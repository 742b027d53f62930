/**
  The provider-independent search result every adapter produces, and the server's
  environment variables the search code consults.
*/
module MediaTypes {
  import opened Wrappers
  import opened Text
  import Fetcher

  datatype Provider = Tmdb | YouTube | Spotify | NaverBooks | GoogleBooks
  datatype Category = Movie | Music | Book

  /** A JSON value as it is carried, unexamined, in a result's `extra` record. */
  datatype Json =
    | Undefined
    | Null
    | Num(x: real)
    | Str(s: string)
    | Arr(elems: seq<Json>)
    | Obj(fields: map<string, Json>)

  /** An optional string as a JSON value: absent is `undefined`. */
  function OptStr(o: Option<string>): (j: Json)
    ensures o.None? <==> j == Undefined
    ensures o.Some? ==> j == Str(o.value)
  {
    if o.Some? then Str(o.value) else Undefined
  }

  /** An optional number as a JSON value. */
  function OptNum(o: Option<real>): (j: Json)
    ensures o.None? <==> j == Undefined
    ensures o.Some? ==> j == Num(o.value)
  {
    if o.Some? then Num(o.value) else Undefined
  }

  /** `UnifiedResult`; `None` is a field left `undefined`. */
  datatype UnifiedResult = UnifiedResult(
    provider: Provider,
    providerId: string,
    title: string,
    creators: Option<seq<string>>,
    description: Option<string>,
    imageUrl: Option<string>,
    linkUrl: Option<string>,
    releaseDate: Option<string>,
    extra: map<string, Json>)

  /** The environment variables read by the search code; `None` when unset. */
  datatype Env = Env(
    tmdbToken: Option<string>,
    youtubeKey: Option<string>,
    spotifyClientId: Option<string>,
    spotifyClientSecret: Option<string>,
    naverId: Option<string>,
    naverSecret: Option<string>,
    googleBooksKey: Option<string>)

  /** What an adapter's search gives: its results or the message it throws, and the requests made. */
  datatype SearchOutcome = SearchOutcome(result: Result<seq<UnifiedResult>, string>, requests: nat)

  /**
    The adapters' handling of the final response: a thrown request passes its message
    on, a non-ok status becomes "`<service>` search failed: `<status>`", and an ok
    response yields its parsed body.
  */
  function Settle<T>(outcome: Fetcher.Attempt<T>, service: string): (r: Result<T, string>)
    ensures outcome.Threw? ==> r == Err(outcome.message)
    ensures outcome.Responded? && !Fetcher.Ok(outcome.status) ==>
      r == Err(service + " search failed: " + IntToString(outcome.status))
    ensures r.Ok? <==> outcome.Responded? && Fetcher.Ok(outcome.status)
    ensures r.Ok? ==> r.value == outcome.body
  {
    match outcome
    case Threw(m) => Err(m)
    case Responded(status, body) =>
      if Fetcher.Ok(status) then Ok(body) else Err(service + " search failed: " + IntToString(status))
  }
}
