/**
 * The match partial of `RiotClient` (RiotNet/RiotClientMatch.cs): the match
 * API base URL, the repeated-parameter builder and the requests of the six
 * match endpoints.
 */
module Match {
  import opened Wrappers
  import opened Text
  import opened Requests

  /** `GetMatchBaseUrl`: the match API on the platform's server. */
  function GetMatchBaseUrl(c: RiotClient, platformId: Option<string>): (r: string)
    ensures |r| == 8 + |c.services.serverName(platformId)| + 13
    ensures r[..8] == "https://" && r[|r| - 13..] == "/lol/match/v3"
    ensures r[8..|r| - 13] == c.services.serverName(platformId)
  {
    "https://" + c.services.serverName(platformId) + "/lol/match/v3"
  }

  /** The `name=item` pairs of a parameter, in the order of the items. */
  function QueryPairs<T>(name: string, items: seq<T>, show: T -> string): (pairs: seq<string>)
    ensures |pairs| == |items|
    ensures forall i :: 0 <= i < |items| ==> pairs[i] == name + "=" + show(items[i])
  {
    seq(|items|, i requires 0 <= i < |items| => name + "=" + show(items[i]))
  }

  /**
   * `BuildQueryParameter`: a null sequence yields the empty string, otherwise
   * one `name=item` per item joined by "&" (so an empty sequence also yields "").
   */
  function BuildQueryParameter<T>(name: string, items: Option<seq<T>>, show: T -> string): (r: string)
    ensures items.None? ==> r == ""
    ensures items.Some? && |items.value| == 0 ==> r == ""
    ensures items.Some? && |items.value| > 0 ==> name + "=" + show(items.value[0]) <= r
  {
    if items.None? then "" else Join(QueryPairs(name, items.value, show), "&")
  }

  /** A built parameter splits on "&" into its `name=item` pairs, one per item and in order. */
  lemma BuildQueryParameterPairs<T>(name: string, items: seq<T>, show: T -> string)
    requires |items| > 0
    requires '&' !in name
    requires forall i :: 0 <= i < |items| ==> '&' !in show(items[i])
    ensures var pieces := Split(BuildQueryParameter(name, Some(items), show), '&');
      && |pieces| == |items|
      && forall i :: 0 <= i < |items| ==> pieces[i] == name + "=" + show(items[i])
  {
    var pairs := QueryPairs(name, items, show);
    forall i | 0 <= i < |pairs|
      ensures '&' !in pairs[i]
    {
      assert pairs[i] == name + "=" + show(items[i]);
    }
    SplitJoin(pairs, '&');
  }

  /** `GetMatchAsync`. */
  function GetMatch(c: RiotClient, matchId: int, platformId: Option<string> := None,
                    token: CancellationToken := NoCancellation): (r: Request)
    ensures var base := GetMatchBaseUrl(c, platformId);
      && r.verb == GET && r.body.None? && r.query.None? && r.token == token
      && base <= r.url && r.url[|base|..] == "/matches/" + c.services.format(matchId)
  {
    Request(GET, GetMatchBaseUrl(c, platformId) + "/matches/" + c.services.format(matchId), None, None, token)
  }

  /** `GetMatchTimelineAsync`. */
  function GetMatchTimeline(c: RiotClient, matchId: int, platformId: Option<string> := None,
                            token: CancellationToken := NoCancellation): (r: Request)
    ensures var base := GetMatchBaseUrl(c, platformId);
      && r.verb == GET && r.body.None? && r.query.None? && r.token == token
      && base <= r.url && r.url[|base|..] == "/timelines/by-match/" + c.services.format(matchId)
  {
    Request(GET, GetMatchBaseUrl(c, platformId) + "/timelines/by-match/" + c.services.format(matchId), None, None, token)
  }

  /**
   * An optional bound as the match-list query carries it: present exactly when
   * given, and then as its invariant-culture rendering.
   */
  predicate SentWhenGiven(q: map<string, Value>, key: string, given: Option<int>)
  {
    && (key in q <==> given.Some?)
    && (given.Some? ==> q[key] == Str(InvariantDecimal(given.value)))
  }

  /** A bound sent this way is never empty and reads back as the number given, unclamped. */
  lemma SentValueReadsBack(q: map<string, Value>, key: string, given: Option<int>)
    requires SentWhenGiven(q, key, given) && given.Some?
    ensures q[key].Str? && q[key].s != "" && ParseDecimal(q[key].s) == Some(given.value)
  {
    DecimalRoundTrip(given.value);
  }

  /** The epoch milliseconds of an optional time. */
  function Millis(c: RiotClient, t: Option<DateTime>): Option<int>
  {
    if t.Some? then Some(c.services.epochMilliseconds(t.value)) else None
  }

  /**
   * `GetMatchListByAccountIdAsync`: the champion, queue and season filters are
   * appended to the URL in that order; the time and index bounds go into the
   * query dictionary only when given, rendered in the invariant culture and
   * without any clamping of the index range.
   */
  method GetMatchListByAccountId(c: RiotClient, accountId: int, championIds: Option<seq<int>> := None,
                                 rankedQueues: Option<seq<int>> := None, seasons: Option<seq<int>> := None,
                                 beginTime: Option<DateTime> := None, endTime: Option<DateTime> := None,
                                 beginIndex: Option<int> := None, endIndex: Option<int> := None,
                                 platformId: Option<string> := None, token: CancellationToken := NoCancellation)
    returns (r: Request)
    ensures r.verb == GET && r.body.None? && r.token == token
    ensures var add, fmt := c.services.addQueryParam, c.services.format;
      r.url == add(add(add(GetMatchBaseUrl(c, platformId) + "/matchlists/by-account/" + fmt(accountId),
                               BuildQueryParameter("champion", championIds, fmt)),
                           BuildQueryParameter("queue", rankedQueues, fmt)),
                   BuildQueryParameter("season", seasons, fmt))
    ensures r.query.Some?
    ensures r.query.value.Keys <= {"beginTime", "endTime", "beginIndex", "endIndex"}
    ensures SentWhenGiven(r.query.value, "beginTime", Millis(c, beginTime))
    ensures SentWhenGiven(r.query.value, "endTime", Millis(c, endTime))
    ensures SentWhenGiven(r.query.value, "beginIndex", beginIndex)
    ensures SentWhenGiven(r.query.value, "endIndex", endIndex)
  {
    var add, fmt := c.services.addQueryParam, c.services.format;
    var url := GetMatchBaseUrl(c, platformId) + "/matchlists/by-account/" + fmt(accountId);
    var championsParam := BuildQueryParameter("champion", championIds, fmt);
    url := add(url, championsParam);
    var queueParam := BuildQueryParameter("queue", rankedQueues, fmt);
    url := add(url, queueParam);
    var seasonsParam := BuildQueryParameter("season", seasons, fmt);
    url := add(url, seasonsParam);

    var queryParameters: map<string, Value> := map[];
    if beginTime.Some? {
      queryParameters := queryParameters["beginTime" := Str(InvariantDecimal(c.services.epochMilliseconds(beginTime.value)))];
    }
    if endTime.Some? {
      queryParameters := queryParameters["endTime" := Str(InvariantDecimal(c.services.epochMilliseconds(endTime.value)))];
    }
    if beginIndex.Some? {
      queryParameters := queryParameters["beginIndex" := Str(InvariantDecimal(beginIndex.value))];
    }
    if endIndex.Some? {
      queryParameters := queryParameters["endIndex" := Str(InvariantDecimal(endIndex.value))];
    }
    r := Request(GET, url, None, Some(queryParameters), token);
  }

  /** `GetRecentMatchListByAccountIdAsync`. */
  function GetRecentMatchListByAccountId(c: RiotClient, accountId: int, platformId: Option<string> := None,
                                         token: CancellationToken := NoCancellation): (r: Request)
    ensures var base := GetMatchBaseUrl(c, platformId);
      && r.verb == GET && r.body.None? && r.query.None? && r.token == token
      && base <= r.url && r.url[|base|..] == "/matchlists/by-account/" + c.services.format(accountId) + "/recent"
  {
    Request(GET, GetMatchBaseUrl(c, platformId) + "/matchlists/by-account/" + c.services.format(accountId) + "/recent",
            None, None, token)
  }

  /** `GetMatchIdsByTournamentCodeAsync`. */
  function GetMatchIdsByTournamentCode(c: RiotClient, tournamentCode: string, platformId: Option<string> := None,
                                       token: CancellationToken := NoCancellation): (r: Request)
    ensures var base := GetMatchBaseUrl(c, platformId);
      && r.verb == GET && r.body.None? && r.query.None? && r.token == token
      && base <= r.url && r.url[|base|..] == "/matches/by-tournament-code/" + tournamentCode + "/ids"
  {
    Request(GET, GetMatchBaseUrl(c, platformId) + "/matches/by-tournament-code/" + tournamentCode + "/ids",
            None, None, token)
  }

  /** `GetMatchForTournamentAsync`. */
  function GetMatchForTournament(c: RiotClient, matchId: int, tournamentCode: string, platformId: Option<string> := None,
                                 token: CancellationToken := NoCancellation): (r: Request)
    ensures var base := GetMatchBaseUrl(c, platformId);
      && r.verb == GET && r.body.None? && r.query.None? && r.token == token
      && base <= r.url
      && r.url[|base|..] == "/matches/" + c.services.format(matchId) + "/by-tournament-code/" + tournamentCode
  {
    Request(GET, GetMatchBaseUrl(c, platformId) + "/matches/" + c.services.format(matchId)
                 + "/by-tournament-code/" + tournamentCode, None, None, token)
  }
}
