/** The TMDB movie-search adapter: one `UnifiedResult` per movie of the response. */
module TmdbProvider {
  import opened Wrappers
  import opened Text
  import opened MediaTypes
  import Fetcher

  const PosterPrefix: string := "https://image.tmdb.org/t/p/w500"
  const MoviePagePrefix: string := "https://www.themoviedb.org/movie/"

  /** One entry of `results`; a field that is null or missing is `None`. */
  datatype Movie = Movie(
    id: int,
    title: Option<string>,
    originalTitle: Option<string>,
    overview: Option<string>,
    posterPath: Option<string>,
    releaseDate: Option<string>,
    voteAverage: Option<real>,
    popularity: Option<real>)

  /** The parsed response; `results` may be missing. */
  datatype Response = Response(results: Option<seq<Movie>>)

  /** The mapping of one movie. */
  function ToUnified(m: Movie): (r: UnifiedResult)
    ensures r.provider == Tmdb && r.creators.None?
    ensures r.providerId == IntToString(m.id)
    ensures r.linkUrl == Some(MoviePagePrefix + r.providerId)
    ensures m.title.Some? ==> r.title == m.title.value
    ensures m.title.None? && m.originalTitle.Some? ==> r.title == m.originalTitle.value
    ensures m.title.None? && m.originalTitle.None? ==> r.title == "Untitled"
    ensures r.imageUrl.Some? <==> Truthy(m.posterPath)
    ensures r.imageUrl.Some? ==> r.imageUrl.value == PosterPrefix + m.posterPath.value
    ensures r.description == OrUndefined(m.overview) && r.releaseDate == OrUndefined(m.releaseDate)
    ensures r.extra == map["vote_average" := OptNum(m.voteAverage), "popularity" := OptNum(m.popularity)]
  {
    UnifiedResult(
      Tmdb,
      IntToString(m.id),
      m.title.GetOr(m.originalTitle.GetOr("Untitled")),
      None,
      OrUndefined(m.overview),
      if Truthy(m.posterPath) then Some(PosterPrefix + m.posterPath.value) else None,
      Some(MoviePagePrefix + IntToString(m.id)),
      OrUndefined(m.releaseDate),
      map["vote_average" := OptNum(m.voteAverage), "popularity" := OptNum(m.popularity)])
  }

  /** `(json.results ?? []).map(...)`: one result per movie, in order. */
  function ToResults(resp: Response): (rs: seq<UnifiedResult>)
    ensures |rs| == |resp.results.GetOr([])|
    ensures forall i :: 0 <= i < |rs| ==> rs[i] == ToUnified(resp.results.value[i])
  {
    var ms := resp.results.GetOr([]);
    seq(|ms|, i requires 0 <= i < |ms| => ToUnified(ms[i]))
  }

  /** A non-negative movie id can be read back from the result's `providerId`. */
  lemma ProviderIdIsTheId(m: Movie)
    requires m.id >= 0
    ensures DigitsValue(ToUnified(m).providerId) == m.id
  {
    NatToStringValue(m.id);
  }

  /** `searchTMDBMovies(q)`: no request at all without a token. */
  function Search(token: Option<string>, upstream: nat -> Fetcher.Attempt<Response>): (out: SearchOutcome)
    ensures !Truthy(token) ==> out == SearchOutcome(Err("Missing TMDB_TOKEN"), 0)
    ensures Truthy(token) ==>
      var f := Fetcher.Fetch(upstream, Fetcher.DefaultRetries);
      out.requests == f.requests &&
      match Settle(f.outcome, "TMDB")
      case Ok(resp) => out.result == Ok(ToResults(resp))
      case Err(m) => out.result == Err(m)
  {
    if !Truthy(token) then SearchOutcome(Err("Missing TMDB_TOKEN"), 0)
    else
      var f := Fetcher.Fetch(upstream, Fetcher.DefaultRetries);
      match Settle(f.outcome, "TMDB")
      case Ok(resp) => SearchOutcome(Ok(ToResults(resp)), f.requests)
      case Err(m) => SearchOutcome(Err(m), f.requests)
  }
}
