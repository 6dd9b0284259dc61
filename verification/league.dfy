/**
 * The league partial of `RiotClient` (RiotNet/RiotClientLeague.cs): the
 * league API base URL and the requests of the four league endpoints.
 */
module League {
  import opened Wrappers
  import opened Requests

  /** `GetLeagueBaseUrl`: the league API on the platform's server. */
  function GetLeagueBaseUrl(c: RiotClient, platformId: Option<string>): (r: string)
    ensures |r| == 8 + |c.services.serverName(platformId)| + 14
    ensures r[..8] == "https://" && r[|r| - 14..] == "/lol/league/v3"
    ensures r[8..|r| - 14] == c.services.serverName(platformId)
  {
    "https://" + c.services.serverName(platformId) + "/lol/league/v3"
  }

  /** `GetLeaguesBySummonerIdAsync`. */
  function GetLeaguesBySummonerId(c: RiotClient, summonerId: int, platformId: Option<string> := None,
                                  token: CancellationToken := NoCancellation): (r: Request)
    ensures var base := GetLeagueBaseUrl(c, platformId);
      && r.verb == GET && r.body.None? && r.query.None? && r.token == token
      && base <= r.url && r.url[|base|..] == "/leagues/by-summoner/" + c.services.format(summonerId)
  {
    Request(GET, GetLeagueBaseUrl(c, platformId) + "/leagues/by-summoner/" + c.services.format(summonerId), None, None, token)
  }

  /** `GetLeaguePositionsBySummonerIdAsync`. */
  function GetLeaguePositionsBySummonerId(c: RiotClient, summonerId: int, platformId: Option<string> := None,
                                          token: CancellationToken := NoCancellation): (r: Request)
    ensures var base := GetLeagueBaseUrl(c, platformId);
      && r.verb == GET && r.body.None? && r.query.None? && r.token == token
      && base <= r.url && r.url[|base|..] == "/positions/by-summoner/" + c.services.format(summonerId)
  {
    Request(GET, GetLeagueBaseUrl(c, platformId) + "/positions/by-summoner/" + c.services.format(summonerId), None, None, token)
  }

  /** `GetChallengerLeagueAsync`. */
  function GetChallengerLeague(c: RiotClient, rankedQueueType: string, platformId: Option<string> := None,
                               token: CancellationToken := NoCancellation): (r: Request)
    ensures var base := GetLeagueBaseUrl(c, platformId);
      && r.verb == GET && r.body.None? && r.query.None? && r.token == token
      && base <= r.url && r.url[|base|..] == "/challengerleagues/by-queue/" + rankedQueueType
  {
    Request(GET, GetLeagueBaseUrl(c, platformId) + "/challengerleagues/by-queue/" + rankedQueueType, None, None, token)
  }

  /** `GetMasterLeagueAsync`. */
  function GetMasterLeague(c: RiotClient, rankedQueueType: string, platformId: Option<string> := None,
                           token: CancellationToken := NoCancellation): (r: Request)
    ensures var base := GetLeagueBaseUrl(c, platformId);
      && r.verb == GET && r.body.None? && r.query.None? && r.token == token
      && base <= r.url && r.url[|base|..] == "/masterleagues/by-queue/" + rankedQueueType
  {
    Request(GET, GetLeagueBaseUrl(c, platformId) + "/masterleagues/by-queue/" + rankedQueueType, None, None, token)
  }

  /**
   * The challenger and master requests for one queue agree on everything but
   * the one path segment naming the tier: same base, same "/by-queue/{queue}" tail.
   */
  lemma ChallengerAndMasterDifferInOneSegment(c: RiotClient, rankedQueueType: string, platformId: Option<string>,
                                              token: CancellationToken)
    ensures var ch, ms := GetChallengerLeague(c, rankedQueueType, platformId, token),
                          GetMasterLeague(c, rankedQueueType, platformId, token);
      var n := |GetLeagueBaseUrl(c, platformId)|;
      && ch.(url := "") == ms.(url := "")
      && ch.url[..n] == ms.url[..n]
      && ch.url[n..][..18] == "/challengerleagues"
      && ms.url[n..][..14] == "/masterleagues"
      && ch.url[n..][18..] == ms.url[n..][14..] == "/by-queue/" + rankedQueueType
  {
  }
}
