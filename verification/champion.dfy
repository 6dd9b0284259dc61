/**
 * The champion partial of `RiotClient` (RiotNet/RiotClientChampion.cs): the
 * platform API base URL, the champion-list request with its lower-cased
 * free-to-play flag, the reply projection and the single-champion request.
 */
module Champion {
  import opened Wrappers
  import opened Text
  import opened Requests

  /** `GetChampionBaseUrl`: the platform API on the platform's server. */
  function GetChampionBaseUrl(c: RiotClient, platformId: Option<string>): (r: string)
    ensures |r| == 8 + |c.services.serverName(platformId)| + 16
    ensures r[..8] == "https://" && r[|r| - 16..] == "/lol/platform/v3"
    ensures r[8..|r| - 16] == c.services.serverName(platformId)
  {
    "https://" + c.services.serverName(platformId) + "/lol/platform/v3"
  }

  /**
   * `GetChampionsAsync`: the flag travels inside the resource string as
   * `b.ToString().ToLowerInvariant()`, so always as "true" or "false".
   */
  function GetChampions(c: RiotClient, freeToPlay: bool := false, platformId: Option<string> := None,
                        token: CancellationToken := NoCancellation): (r: Request)
    ensures var base := GetChampionBaseUrl(c, platformId);
      && r.verb == GET && r.body.None? && r.query.None? && r.token == token
      && base <= r.url
      && r.url[|base|..] == "/champions?freeToPlay=" + (if freeToPlay then "true" else "false")
  {
    LowerBoolWords(freeToPlay);
    var resource := GetChampionBaseUrl(c, platformId) + "/champions?freeToPlay="
                    + ToLowerInvariant(BoolToString(freeToPlay));
    Request(GET, resource, None, None, token)
  }

  /** Called without the flag, the champion list asks for every champion. */
  lemma GetChampionsByDefault(c: RiotClient)
    ensures var url := GetChampions(c).url;
      |url| >= 16 && url[|url| - 16..] == "freeToPlay=false"
  {
  }

  /** The deserialized reply of the champion-list request. */
  datatype ChampionList<C> = ChampionList(champions: Option<seq<C>>)

  /** `championList?.Champions`: a null reply yields null rather than throwing. */
  function Champions<C>(championList: Option<ChampionList<C>>): (r: Option<seq<C>>)
    ensures championList.None? ==> r.None?
    ensures championList.Some? ==> r == championList.value.champions
  {
    if championList.None? then None else championList.value.champions
  }

  /** `GetChampionByIdAsync`. */
  function GetChampionById(c: RiotClient, id: int, platformId: Option<string> := None,
                           token: CancellationToken := NoCancellation): (r: Request)
    ensures var base := GetChampionBaseUrl(c, platformId);
      && r.verb == GET && r.body.None? && r.query.None? && r.token == token
      && base <= r.url && r.url[|base|..] == "/champions/" + c.services.format(id)
  {
    Request(GET, GetChampionBaseUrl(c, platformId) + "/champions/" + c.services.format(id), None, None, token)
  }
}
