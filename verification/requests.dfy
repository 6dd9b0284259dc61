/**
 * What the endpoint partials of `RiotClient` hand to the request executor.
 * `GetAsync`, `PostAsync` and `PutAsync` are modelled as building a
 * `Request` descriptor (verb, URL, body fields, query dictionary and
 * cancellation token) instead of doing network I/O. The collaborators whose
 * code is not part of this model are parameters of the client (`Services`).
 */
module Requests {
  import opened Wrappers

  datatype Verb = GET | POST | PUT

  /** A value placed in a request body or query dictionary (a C# `object`). */
  datatype Value = Null | Str(s: string) | Num(n: int) | Nums(ns: seq<int>)

  /** One member of the anonymous object serialized as the request body, in declaration order. */
  datatype Field = Field(name: string, value: Value)

  /** `CancellationToken`: `default(CancellationToken)` is `NoCancellation`. */
  datatype CancellationToken = NoCancellation | Cancellable(source: nat)

  /**
   * A request descriptor. `query` is `None` when the endpoint passes no
   * query dictionary, `body` is `None` for GET requests.
   */
  datatype Request = Request(
    verb: Verb,
    url: string,
    body: Option<seq<Field>>,
    query: Option<map<string, Value>>,
    token: CancellationToken)

  /** The exceptions the endpoint code itself can raise before any request exists. */
  datatype Error = NotSupported(message: string) | NullReference

  /** A .NET `DateTime`, kept as its tick count; no calendar arithmetic is modelled. */
  datatype DateTime = DateTime(ticks: int)

  /**
   * Code the endpoint partials call but whose behaviour is not part of this model:
   * `GetServerName(platformId)`, the current-culture rendering of a number in an
   * interpolated string, `AddQueryParam(url, param)` and
   * `Conversions.DateTimeToEpochMilliseconds`.
   */
  datatype Services = Services(
    serverName: Option<string> -> string,
    format: int -> string,
    addQueryParam: (string, string) -> string,
    epochMilliseconds: DateTime -> int)

  /** The client state the endpoints read: the default platform and `settings.UseTournamentStub`. */
  datatype RiotClient = RiotClient(
    platformId: Option<string>,
    useTournamentStub: bool,
    services: Services)

  /** C#'s `a ?? b`. */
  function Coalesce<T>(a: Option<T>, b: Option<T>): Option<T>
  {
    if a.Some? then a else b
  }

  /** How a string interpolation hole renders a possibly-null string: null renders as nothing. */
  function Interpolate(s: Option<string>): string
  {
    if s.Some? then s.value else ""
  }

  /** A possibly-null string as a serialized body member. */
  function NullableStr(s: Option<string>): Value
  {
    if s.Some? then Str(s.value) else Null
  }

  /** A possibly-null `List<long>` as a serialized body member. */
  function NullableNums(ns: Option<seq<int>>): Value
  {
    if ns.Some? then Nums(ns.value) else Null
  }
}
