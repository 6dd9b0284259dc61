# RiotNet request construction and platform routing

This project models the endpoint partials of RiotNet's `RiotClient`. That is the
layer that turns a typed call such as "get the match list of this account" into a
request for the request executor. It covers:

- the platform-to-region resolver used by the tournament provider endpoint;
- the choice between the tournament API and the tournament-stub API;
- the fixed base URL of each API family (match, league, platform/champion, tournament)
  and the path template of every endpoint;
- the repeated `name=value` query parameter builder;
- the conditional query dictionaries, which leave out every optional value the caller did not give;
- the null handling of the replies that the endpoints post-process.

`GetAsync`, `PostAsync` and `PutAsync` are not executed. Each endpoint returns a
`Requests.Request` descriptor instead: verb, URL, body members in declaration order,
query dictionary (or none) and cancellation token. C# `null` is `None` of
`Wrappers.Option`. An exception the endpoint code itself throws is `Failure` of
`Wrappers.Result`: `NotSupportedException` from the region switch, or
`NullReferenceException` on a null argument or reply.

Some code the endpoints call is not part of this model. It is supplied as functions in
`Requests.Services`, held by the client:

- `GetServerName`;
- the current-culture rendering of an id in an interpolated string;
- `AddQueryParam`;
- `Conversions.DateTimeToEpochMilliseconds`.

`Int32.ToString(CultureInfo.InvariantCulture)`, `string.Join`, `Boolean.ToString`
and `ToLowerInvariant`, which the endpoint code calls, are defined in module `Text`.
Beside them, `Text` defines two reference inverses that the code never calls:
`Split` on one separator undoes `Join`, and `ParseDecimal` reads an invariant-culture
integer back. With these, the query values can be proved to read back as the numbers
the caller gave.

The source of `Models.PlatformId`, `MapType`, `PickType` and `SpectatorType` is not
part of this model. Each constant is taken to have its own name as its value
(`PlatformId.NA1 == "NA1"`, `MapType.SUMMONERS_RIFT == "SUMMONERS_RIFT"`).

The match-list filters pass `""` for a missing or empty list to `AddQueryParam`
(RiotNet/RiotClientMatch.cs:128-134, 188-189). Whether an empty parameter reaches the
URL depends on `AddQueryParam`, which is not modelled, so the model passes `""`
through `Services.addQueryParam`.

## Model

| member | source | states |
|---|---|---|
| Tournament.GetRegion | RiotNet/RiotClientTournament.cs:226-257 | succeeds exactly for the twelve platform ids of the region table, then with that table's region; null or any other id fails with NotSupported naming the id, never a default region |
| Tournament.GetRegionTable | RiotNet/RiotClientTournament.cs:228-253 | BR1→BR, EUN1→EUNE, EUW1→EUW, JP1→JP, KR→KR, LA1→LAN, LA2→LAS, NA1→NA, OC1→OCE, PBE1→PBE, RU→RU, TR1→TR |
| Tournament.GetRegionRefuses | RiotNet/RiotClientTournament.cs:254-255 | matching is exact: "na1", "EUNE", "" and null are refused with the "Platform ID '…' is not supported." message |
| Tournament.RegionsDistinct | RiotNet/RiotClientTournament.cs:228-253 | every resolved region is non-empty and distinct supported platforms resolve to distinct regions |
| Tournament.GetTournamentBaseUrl | RiotNet/RiotClientTournament.cs:215-219 | true gives https://global.api.riotgames.com/lol/tournament-stub/v3, false gives https://global.api.riotgames.com/lol/tournament/v3 |
| Tournament.CreateTournamentProvider | RiotNet/RiotClientTournament.cs:100-104 | the region of `platformId ?? PlatformId` is resolved first; an unsupported platform yields the NotSupported failure and no request; otherwise a POST to the setting's API + "/providers" with body {region, url} |
| Tournament.CreateTournament | RiotNet/RiotClientTournament.cs:114-117 | a POST to the setting's API + "/tournaments" with body {name (null allowed), providerId} and no query |
| Tournament.CreateTournamentCode | RiotNet/RiotClientTournament.cs:133-148 | the query dictionary's keys are exactly "tournamentId" plus "count" iff a count is given, with those values; a null map, pick or spectator type throws NullReference; otherwise a POST to the setting's API + "/codes" with the six body members; count and team size are not range-checked |
| Tournament.GetTournamentCode | RiotNet/RiotClientTournament.cs:157-160 | a GET on the real (non-stub) tournament API + "/codes/{code}", whatever the stub setting |
| Tournament.UpdateTournamentCode | RiotNet/RiotClientTournament.cs:173-183 | a PUT on the real tournament API + "/codes/{code}" with the four settings sent as given, null included |
| Tournament.UpdateTournamentCodeFrom | RiotNet/RiotClientTournament.cs:192-195 | forwards Code, Participants, Map, PickType and Spectators unchanged into a PUT on the real tournament API with no query dictionary, drops the caller's token (the request carries the default token); a null object throws NullReference |
| Tournament.UpdateReadsOnlyForwardedMembers | RiotNet/RiotClientTournament.cs:192-195 | two codes that agree on the five forwarded members give the same request, whatever their other members and tokens |
| Tournament.GetTournamentCodeLobbyEvents | RiotNet/RiotClientTournament.cs:204-206 | a GET on the setting's API + "/lobby-events/by-code/{code}" |
| Tournament.LobbyEvents | RiotNet/RiotClientTournament.cs:206-207 | the reply's EventList; a null reply throws NullReference (no null propagation here) |
| Tournament.StubSettingRouting | RiotNet/RiotClientTournament.cs:100-206 | flipping UseTournamentStub leaves code lookup and code update requests unchanged and changes the URL of the tournament and lobby-event requests |
| Match.GetMatchBaseUrl | RiotNet/RiotClientMatch.cs:83-86 | "https://", then exactly the server name of the platform, then "/lol/match/v3" |
| Match.BuildQueryParameter | RiotNet/RiotClientMatch.cs:186-192 | a null sequence and an empty sequence both yield ""; a non-empty one starts with name=first item |
| Match.BuildQueryParameterPairs | RiotNet/RiotClientMatch.cs:190-191 | splitting the built parameter on "&" gives one `name=item` piece per item, in input order (when neither name nor items contain "&") |
| Match.GetMatch | RiotNet/RiotClientMatch.cs:95-98 | a GET of match base + "/matches/{id}", no body, no query |
| Match.GetMatchTimeline | RiotNet/RiotClientMatch.cs:107-110 | a GET of match base + "/timelines/by-match/{id}" |
| Match.GetMatchListByAccountId | RiotNet/RiotClientMatch.cs:126-147 | URL is base + "/matchlists/by-account/{id}" with the champion, queue and season parameters added in that order; each of beginTime, endTime, beginIndex, endIndex is a query key iff given, then with its invariant-culture rendering (epoch milliseconds for the times, the index itself, unclamped); no other key exists |
| Match.SentValueReadsBack | RiotNet/RiotClientMatch.cs:137-144 | a bound sent in the match-list query is never an empty string and reads back as exactly the number given |
| Match.GetRecentMatchListByAccountId | RiotNet/RiotClientMatch.cs:156-159 | a GET of match base + "/matchlists/by-account/{id}/recent" |
| Match.GetMatchIdsByTournamentCode | RiotNet/RiotClientMatch.cs:168-171 | a GET of match base + "/matches/by-tournament-code/{code}/ids" |
| Match.GetMatchForTournament | RiotNet/RiotClientMatch.cs:181-184 | a GET of match base + "/matches/{id}/by-tournament-code/{code}" |
| Text.SplitJoin | RiotNet/RiotClientMatch.cs:190-191 | `string.Join` with a one-character separator is undone by `Split` on it when no part holds the separator |
| Text.InvariantDecimal | RiotNet/RiotClientMatch.cs:138-144 | the invariant-culture rendering of an integer is non-empty and made of digits and a minus sign only |
| Text.DecimalRoundTrip | RiotNet/RiotClientMatch.cs:138-144 | the invariant-culture rendering of any integer reads back as that integer |
| League.GetLeagueBaseUrl | RiotNet/RiotClientLeague.cs:54-57 | "https://", then exactly the server name of the platform, then "/lol/league/v3" |
| League.GetLeaguesBySummonerId | RiotNet/RiotClientLeague.cs:66-69 | a GET of league base + "/leagues/by-summoner/{id}" |
| League.GetLeaguePositionsBySummonerId | RiotNet/RiotClientLeague.cs:78-81 | a GET of league base + "/positions/by-summoner/{id}" |
| League.GetChallengerLeague | RiotNet/RiotClientLeague.cs:90-93 | a GET of league base + "/challengerleagues/by-queue/{queue}" |
| League.GetMasterLeague | RiotNet/RiotClientLeague.cs:102-105 | a GET of league base + "/masterleagues/by-queue/{queue}" |
| League.ChallengerAndMasterDifferInOneSegment | RiotNet/RiotClientLeague.cs:92-104 | for one queue the two requests agree on everything but the tier segment ("/challengerleagues" against "/masterleagues"): same base before it, same "/by-queue/{queue}" after it |
| Champion.GetChampionBaseUrl | RiotNet/RiotClientChampion.cs:36-39 | "https://", then exactly the server name of the platform, then "/lol/platform/v3" |
| Champion.GetChampions | RiotNet/RiotClientChampion.cs:48-50 | a GET of platform base + "/champions?freeToPlay=" followed by "true" or "false", always lower case |
| Text.LowerBoolWords | RiotNet/RiotClientChampion.cs:50 | `b.ToString().ToLowerInvariant()` is "true" or "false" |
| Champion.GetChampionsByDefault | RiotNet/RiotClientChampion.cs:48-50 | called without the flag, the resource ends in "freeToPlay=false" |
| Champion.Champions | RiotNet/RiotClientChampion.cs:51-52 | a null reply yields null; otherwise the reply's Champions list |
| Champion.GetChampionById | RiotNet/RiotClientChampion.cs:62-65 | a GET of platform base + "/champions/{id}" |

## Left out

- The request executor (`GetAsync`, `PostAsync`, `PutAsync`), with its retries, timeouts, rate limiting, cancellation and JSON (de)serialization, is not part of this model. It is network I/O and async plumbing. Requests are returned as descriptors, and the JSON member naming of bodies is not modelled.
- `GetServerName`, `AddQueryParam`, `Conversions.DateTimeToEpochMilliseconds` and the current-culture formatting of ids in interpolated strings are not part of this model. They are function parameters (`Requests.Services`), and nothing is assumed about them.
- `DateTime` is kept as a tick count. No calendar arithmetic is modelled.
- The QueueType and Season enums enter the match-list builder as the ints `Cast<int>()` produces. The enum definitions are not part of this model.
- Path arguments that are strings (tournament codes, ranked queue types) are modelled as non-null. A null one would render as nothing in the interpolation.
- Text.LowerBoolWords: `ToLowerInvariant` is modelled on ASCII letters only, which covers the two words it is applied to.
- Match.BuildQueryParameterPairs: the order property is stated only for names and items without "&". No URL encoding is done, so an item containing "&" would not split back into its pair.
- The documented limits (at most 1000 codes, team size 1 to 5, no CRYSTAL_SCAR map) are not enforced by the code, so they are not preconditions here.
- Static-data field selection, `Game`, `MatchSummary`, `Recommended` and `RestTimeoutException` hold no request-building logic. They are not part of this model.
