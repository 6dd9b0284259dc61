/**
 * The tournament partial of `RiotClient` (RiotNet/RiotClientTournament.cs):
 * platform-to-region resolution, the choice between the tournament and the
 * tournament-stub API, and the requests of the seven tournament endpoints.
 */
module Tournament {
  import opened Wrappers
  import opened Requests

  // The `Models.PlatformId` constants; each one's value is its own name.
  const BR1 := "BR1"
  const EUN1 := "EUN1"
  const EUW1 := "EUW1"
  const JP1 := "JP1"
  const KR := "KR"
  const LA1 := "LA1"
  const LA2 := "LA2"
  const NA1 := "NA1"
  const OC1 := "OC1"
  const PBE1 := "PBE1"
  const RU := "RU"
  const TR1 := "TR1"

  // The default game settings of the tournament-code endpoints.
  const SUMMONERS_RIFT := "SUMMONERS_RIFT"
  const TOURNAMENT_DRAFT := "TOURNAMENT_DRAFT"
  const ALL := "ALL"

  /** The region each supported platform belongs to: the table the resolver must agree with. */
  const RegionTable: map<string, string> := map[
    BR1 := "BR", EUN1 := "EUNE", EUW1 := "EUW", JP1 := "JP",
    KR := "KR", LA1 := "LAN", LA2 := "LAS", NA1 := "NA",
    OC1 := "OCE", PBE1 := "PBE", RU := "RU", TR1 := "TR"]

  const TournamentUrl := "https://global.api.riotgames.com/lol/tournament/v3"
  const TournamentStubUrl := "https://global.api.riotgames.com/lol/tournament-stub/v3"

  /** The `NotSupportedException` raised for a platform without a region. */
  function UnsupportedPlatform(platformId: Option<string>): Error
  {
    NotSupported("Platform ID '" + Interpolate(platformId) + "' is not supported.")
  }

  /**
   * `GetRegion`: a case-sensitive switch over the twelve platform ids; null
   * and every other string throw instead of falling back to a region.
   */
  function GetRegion(platformId: Option<string>): (r: Result<string, Error>)
    ensures r.Success? <==> platformId.Some? && platformId.value in RegionTable
    ensures r.Success? ==> r.value == RegionTable[platformId.value]
    ensures r.Failure? ==> r.error == UnsupportedPlatform(platformId)
  {
    match platformId
    case None => Failure(UnsupportedPlatform(platformId))
    case Some(p) =>
      match p
      case "BR1" => Success("BR")
      case "EUN1" => Success("EUNE")
      case "EUW1" => Success("EUW")
      case "JP1" => Success("JP")
      case "KR" => Success("KR")
      case "LA1" => Success("LAN")
      case "LA2" => Success("LAS")
      case "NA1" => Success("NA")
      case "OC1" => Success("OCE")
      case "PBE1" => Success("PBE")
      case "RU" => Success("RU")
      case "TR1" => Success("TR")
      case _ => Failure(UnsupportedPlatform(platformId))
  }

  /** The twelve resolutions, one by one. */
  lemma GetRegionTable()
    ensures GetRegion(Some(BR1)) == Success("BR") && GetRegion(Some(EUN1)) == Success("EUNE")
    ensures GetRegion(Some(EUW1)) == Success("EUW") && GetRegion(Some(JP1)) == Success("JP")
    ensures GetRegion(Some(KR)) == Success("KR") && GetRegion(Some(LA1)) == Success("LAN")
    ensures GetRegion(Some(LA2)) == Success("LAS") && GetRegion(Some(NA1)) == Success("NA")
    ensures GetRegion(Some(OC1)) == Success("OCE") && GetRegion(Some(PBE1)) == Success("PBE")
    ensures GetRegion(Some(RU)) == Success("RU") && GetRegion(Some(TR1)) == Success("TR")
  {
  }

  /** Matching is exact: a lower-case id, a null id or an unknown id is refused. */
  lemma GetRegionRefuses()
    ensures GetRegion(Some("na1")) == Failure(NotSupported("Platform ID 'na1' is not supported."))
    ensures GetRegion(None) == Failure(NotSupported("Platform ID '' is not supported."))
    ensures GetRegion(Some("EUNE")).Failure? && GetRegion(Some("")).Failure?
  {
    assert "Platform ID '" + "na1" + "' is not supported." == "Platform ID 'na1' is not supported.";
    assert "Platform ID '" + "" + "' is not supported." == "Platform ID '' is not supported.";
  }

  /** Every resolved region is non-empty, and different platforms never share a region. */
  lemma RegionsDistinct(a: string, b: string)
    requires GetRegion(Some(a)).Success? && GetRegion(Some(b)).Success?
    ensures GetRegion(Some(a)).value != ""
    ensures a != b ==> GetRegion(Some(a)).value != GetRegion(Some(b)).value
  {
  }

  /** `GetTournamentBaseUrl`: the stub API or the real one, on the same global host. */
  function GetTournamentBaseUrl(stub: bool): (r: string)
    ensures stub ==> r == TournamentStubUrl
    ensures !stub ==> r == TournamentUrl
  {
    var apiName := if stub then "tournament-stub" else "tournament";
    "https://global.api.riotgames.com/lol/" + apiName + "/v3"
  }

  /** The tournament API selected by the client's `UseTournamentStub` setting. */
  function SettingUrl(c: RiotClient): string
  {
    if c.useTournamentStub then TournamentStubUrl else TournamentUrl
  }

  /**
   * `CreateTournamentProviderAsync`: the region of `platformId ?? PlatformId`
   * is resolved first, so an unsupported platform yields no request at all.
   */
  function CreateTournamentProvider(c: RiotClient, url: Option<string>, platformId: Option<string> := None,
                                    token: CancellationToken := NoCancellation): (r: Result<Request, Error>)
    ensures var p := if platformId.Some? then platformId else c.platformId;
      && (r.Success? <==> p.Some? && p.value in RegionTable)
      && (r.Failure? ==> r.error == UnsupportedPlatform(p))
      && (r.Success? ==> r.value == Request(POST, SettingUrl(c) + "/providers",
                                            Some([Field("region", Str(RegionTable[p.value])), Field("url", NullableStr(url))]),
                                            None, token))
  {
    var region := GetRegion(Coalesce(platformId, c.platformId));
    if region.Failure? then Failure(region.error)
    else
      Success(Request(POST, GetTournamentBaseUrl(c.useTournamentStub) + "/providers",
                      Some([Field("region", Str(region.value)), Field("url", NullableStr(url))]), None, token))
  }

  /** `CreateTournamentAsync`: a POST of the optional name and the provider id. */
  function CreateTournament(c: RiotClient, providerId: int, name: Option<string> := None,
                            token: CancellationToken := NoCancellation): (r: Request)
    ensures r.verb == POST && r.url == SettingUrl(c) + "/tournaments"
    ensures r.body == Some([Field("name", NullableStr(name)), Field("providerId", Num(providerId))])
    ensures r.query.None? && r.token == token
  {
    Request(POST, GetTournamentBaseUrl(c.useTournamentStub) + "/tournaments",
            Some([Field("name", NullableStr(name)), Field("providerId", Num(providerId))]), None, token)
  }

  /**
   * `CreateTournamentCodeAsync`: the query dictionary always holds the
   * tournament id and holds "count" exactly when a count is given. The game
   * settings are converted with `ToString()`, so a null one throws. The
   * documented limits (at most 1000 codes, team size 1 to 5) are not checked.
   */
  method CreateTournamentCode(c: RiotClient, tournamentId: int, count: Option<int> := None,
                              allowedParticipants: Option<seq<int>> := None,
                              mapType: Option<string> := Some(SUMMONERS_RIFT),
                              pickType: Option<string> := Some(TOURNAMENT_DRAFT),
                              spectatorType: Option<string> := Some(ALL),
                              teamSize: int := 5, metadata: Option<string> := None,
                              token: CancellationToken := NoCancellation)
    returns (r: Result<Request, Error>)
    ensures r.Failure? <==> mapType.None? || pickType.None? || spectatorType.None?
    ensures r.Failure? ==> r.error == NullReference
    ensures r.Success? ==> r.value.verb == POST && r.value.url == SettingUrl(c) + "/codes" && r.value.token == token
    ensures r.Success? ==> (
      && r.value.query.Some?
      && r.value.query.value.Keys == {"tournamentId"} + (if count.Some? then {"count"} else {})
      && r.value.query.value["tournamentId"] == Num(tournamentId)
      && (count.Some? ==> r.value.query.value["count"] == Num(count.value)))
    ensures r.Success? ==> r.value.body == Some([
      Field("allowedParticipants", NullableNums(allowedParticipants)),
      Field("mapType", Str(mapType.value)),
      Field("pickType", Str(pickType.value)),
      Field("spectatorType", Str(spectatorType.value)),
      Field("teamSize", Num(teamSize)),
      Field("metadata", NullableStr(metadata))])
  {
    var queryParameters := map["tournamentId" := Num(tournamentId)];
    if count.Some? {
      queryParameters := queryParameters["count" := Num(count.value)];
    }
    var url := GetTournamentBaseUrl(c.useTournamentStub) + "/codes";
    if mapType.None? || pickType.None? || spectatorType.None? {
      return Failure(NullReference);
    }
    var body := [
      Field("allowedParticipants", NullableNums(allowedParticipants)),
      Field("mapType", Str(mapType.value)),
      Field("pickType", Str(pickType.value)),
      Field("spectatorType", Str(spectatorType.value)),
      Field("teamSize", Num(teamSize)),
      Field("metadata", NullableStr(metadata))];
    r := Success(Request(POST, url, Some(body), Some(queryParameters), token));
  }

  /** `GetTournamentCodeAsync`: always the real tournament API, whatever the stub setting. */
  function GetTournamentCode(c: RiotClient, tournamentCode: string, token: CancellationToken := NoCancellation): (r: Request)
    ensures r == Request(GET, "https://global.api.riotgames.com/lol/tournament/v3/codes/" + tournamentCode, None, None, token)
  {
    Request(GET, GetTournamentBaseUrl(false) + "/codes/" + tournamentCode, None, None, token)
  }

  /**
   * `UpdateTournamentCodeAsync(string, ...)`: a PUT on the real tournament
   * API; the settings are sent as given, null included.
   */
  function UpdateTournamentCode(c: RiotClient, tournamentCode: string,
                                allowedParticipants: Option<seq<int>> := None,
                                mapType: Option<string> := Some(SUMMONERS_RIFT),
                                pickType: Option<string> := Some(TOURNAMENT_DRAFT),
                                spectatorType: Option<string> := Some(ALL),
                                token: CancellationToken := NoCancellation): (r: Request)
    ensures r.verb == PUT && r.url == TournamentUrl + "/codes/" + tournamentCode
    ensures r.body == Some([Field("allowedParticipants", NullableNums(allowedParticipants)),
                            Field("mapType", NullableStr(mapType)),
                            Field("pickType", NullableStr(pickType)),
                            Field("spectatorType", NullableStr(spectatorType))])
    ensures r.query.None? && r.token == token
  {
    Request(PUT, GetTournamentBaseUrl(false) + "/codes/" + tournamentCode,
            Some([Field("allowedParticipants", NullableNums(allowedParticipants)),
                  Field("mapType", NullableStr(mapType)),
                  Field("pickType", NullableStr(pickType)),
                  Field("spectatorType", NullableStr(spectatorType))]),
            None, token)
  }

  /**
   * A `TournamentCode` as returned by the API. Only the five members the
   * update reads are spelt out; `rest` stands for all its other members.
   */
  datatype TournamentCode<X> = TournamentCode(
    code: string,
    participants: Option<seq<int>>,
    mapType: Option<string>,
    pickType: Option<string>,
    spectators: Option<string>,
    rest: X)

  /**
   * `UpdateTournamentCodeAsync(TournamentCode, token)`: forwards Code,
   * Participants, Map, PickType and Spectators to the string overload, but
   * not the token; a null object throws.
   */
  function UpdateTournamentCodeFrom<X>(c: RiotClient, tournamentCode: Option<TournamentCode<X>>,
                                       token: CancellationToken := NoCancellation): (r: Result<Request, Error>)
    ensures r.Success? <==> tournamentCode.Some?
    ensures r.Failure? ==> r.error == NullReference
    ensures r.Success? ==> var t := tournamentCode.value;
      && r.value.verb == PUT
      && r.value.url == TournamentUrl + "/codes/" + t.code
      && r.value.body == Some([Field("allowedParticipants", NullableNums(t.participants)),
                               Field("mapType", NullableStr(t.mapType)),
                               Field("pickType", NullableStr(t.pickType)),
                               Field("spectatorType", NullableStr(t.spectators))])
      && r.value.query.None?
      && r.value.token == NoCancellation
  {
    if tournamentCode.None? then Failure(NullReference)
    else
      var t := tournamentCode.value;
      Success(UpdateTournamentCode(c, t.code, t.participants, t.mapType, t.pickType, t.spectators))
  }

  /** Two codes that agree on the five forwarded members give the same request, whatever the token. */
  lemma UpdateReadsOnlyForwardedMembers<X>(c: RiotClient, a: TournamentCode<X>, b: TournamentCode<X>,
                                           ta: CancellationToken, tb: CancellationToken)
    requires a.code == b.code && a.participants == b.participants && a.mapType == b.mapType
    requires a.pickType == b.pickType && a.spectators == b.spectators
    ensures UpdateTournamentCodeFrom(c, Some(a), ta) == UpdateTournamentCodeFrom(c, Some(b), tb)
  {
  }

  /** `GetTournamentCodeLobbyEventsAsync`: the lobby events of a code, on the API the setting selects. */
  function GetTournamentCodeLobbyEvents(c: RiotClient, tournamentCode: string,
                                        token: CancellationToken := NoCancellation): (r: Request)
    ensures r == Request(GET, SettingUrl(c) + "/lobby-events/by-code/" + tournamentCode, None, None, token)
  {
    Request(GET, GetTournamentBaseUrl(c.useTournamentStub) + "/lobby-events/by-code/" + tournamentCode, None, None, token)
  }

  /** The deserialized reply of the lobby-events request. */
  datatype LobbyEventWrapper<E> = LobbyEventWrapper(eventList: Option<seq<E>>)

  /** `wrapper.EventList`: read without a null check, so a null reply throws. */
  function LobbyEvents<E>(wrapper: Option<LobbyEventWrapper<E>>): (r: Result<Option<seq<E>>, Error>)
    ensures r.Failure? <==> wrapper.None?
    ensures r.Failure? ==> r.error == NullReference
    ensures r.Success? ==> r.value == wrapper.value.eventList
  {
    if wrapper.None? then Failure(NullReference) else Success(wrapper.value.eventList)
  }

  /**
   * The stub setting decides the API of the provider, tournament, code-creation
   * and lobby-event requests, and never that of reading or updating a code.
   */
  lemma StubSettingRouting(c: RiotClient, code: string, token: CancellationToken)
    ensures var live, stub := c.(useTournamentStub := false), c.(useTournamentStub := true);
      && GetTournamentCode(live, code, token) == GetTournamentCode(stub, code, token)
      && UpdateTournamentCode(live, code, token := token) == UpdateTournamentCode(stub, code, token := token)
      && CreateTournament(live, 0, token := token).url != CreateTournament(stub, 0, token := token).url
      && GetTournamentCodeLobbyEvents(live, code, token).url != GetTournamentCodeLobbyEvents(stub, code, token).url
  {
  }
}
