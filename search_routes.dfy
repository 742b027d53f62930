/**
  The three search endpoints, `/api/search/movie`, `/api/search/music` and
  `/api/search/book`. Each trims the query, checks the environment variables of the
  provider it is about to use, answers from the shared time-to-live cache when it can,
  and otherwise asks the provider and caches a successful answer for sixty seconds.
  The clock readings before the lookup (`now`) and after the provider answered
  (`later`) are parameters, and so are the provider's upstream responses.
*/
module SearchRoutes {
  import opened Wrappers
  import opened Text
  import opened MediaTypes
  import TtlCache
  import Fetcher
  import TmdbProvider
  import YouTubeProvider
  import SpotifyProvider
  import NaverBooksProvider
  import GoogleBooksProvider

  /** The one store all three routes share. */
  type Store = map<string, TtlCache.Entry<seq<UnifiedResult>>>

  const TtlMs: int := 60000
  const MissingQuery: string := "Missing q"
  const MissingSpotifyEnv: string := "Missing Spotify env"
  const TokenFetchFailed: string := "Spotify token fetch failed"

  /** The JSON reply: the result array, or `{ error }` with a status. */
  datatype Reply = Items(results: seq<UnifiedResult>) | Error(status: int, message: string)

  /** A reply, the provider requests made for it, and the cache store afterwards. */
  datatype Outcome = Outcome(reply: Reply, requests: nat, store: Store)

  /** `searchParams.get("q")?.trim()`; an empty result counts as missing. */
  function Query(q: Option<string>): (r: Option<string>)
    ensures r.Some? <==> q.Some? && Trim(q.value) != []
    ensures r.Some? ==> r.value == Trim(q.value) && Trimmed(r.value) && r.value != []
  {
    if q.Some? then TrimIsTrimmedInfix(q.value); (if Trim(q.value) != [] then Some(Trim(q.value)) else None)
    else None
  }

  /** Queries that differ only in surrounding white space are the same query. */
  lemma QueryIgnoresSurroundingSpace(q: string)
    ensures Query(Some(Trim(q))) == Query(Some(q))
  {
    TrimIdempotent(q);
  }

  function MovieKey(q: string): string { "tmdb:" + q }
  function MusicKey(provider: string, q: string): string { "music:" + provider + ":" + q }
  function BookKey(provider: string, q: string): string { "book:" + provider + ":" + q }

  /** The three routes never read each other's entries: the keys start differently. */
  lemma CategoriesNeverShareKeys(q1: string, q2: string, p2: string, q3: string, p3: string)
    ensures MovieKey(q1) != MusicKey(p2, q2)
    ensures MovieKey(q1) != BookKey(p3, q3)
    ensures MusicKey(p2, q2) != BookKey(p3, q3)
  {
    assert MovieKey(q1)[0] == 't';
    assert MusicKey(p2, q2)[0] == 'm';
    assert BookKey(p3, q3)[0] == 'b';
  }

  /**
    The music key does not separate provider from query: a query for "x:y" on Spotify and
    a query for "y" on the provider "spotify:x" (which the route sends to YouTube) share
    one cache entry.
  */
  lemma MusicKeysCanCollide()
    ensures MusicKey("spotify", "x:y") == MusicKey("spotify:x", "y")
  {
  }

  // ---------------------------------------------------------------------------
  // The cache step every route ends with.

  /**
    `getCache(key)`; on a hit the cached array (an array is truthy even when empty);
    on a miss the provider's answer, cached for `TtlMs` when it succeeded, or its
    message with status 500 when it failed.
  */
  function Serve(store: Store, key: string, now: int, later: int, answer: SearchOutcome): (o: Outcome)
    ensures TtlCache.Lookup(store, key, now).Some? ==>
      o == Outcome(Items(TtlCache.Lookup(store, key, now).value), 0, store)
    ensures TtlCache.Lookup(store, key, now).None? ==> o.requests == answer.requests
    ensures TtlCache.Lookup(store, key, now).None? && answer.result.Ok? ==>
      o.reply == Items(answer.result.value)
      && o.store == TtlCache.AfterSet(TtlCache.AfterGet(store, key, now), key, answer.result.value, TtlMs, later)
    ensures TtlCache.Lookup(store, key, now).None? && answer.result.Err? ==>
      o.reply == Error(500, answer.result.error) && o.store == TtlCache.AfterGet(store, key, now)
  {
    var hit := TtlCache.Lookup(store, key, now);
    var s := TtlCache.AfterGet(store, key, now);
    if hit.Some? then Outcome(Items(hit.value), 0, s)
    else match answer.result
      case Ok(items) => Outcome(Items(items), answer.requests, TtlCache.AfterSet(s, key, items, TtlMs, later))
      case Err(m) => Outcome(Error(500, m), answer.requests, s)
  }

  /** Serving touches the entry for its own key and no other. */
  lemma ServeTouchesOnlyItsKey(store: Store, key: string, now: int, later: int, answer: SearchOutcome, k: string)
    requires k != key
    ensures k in Serve(store, key, now, later, answer).store <==> k in store
    ensures k in store ==> Serve(store, key, now, later, answer).store[k] == store[k]
  {
  }

  /** A failed search leaves no entry for its key, so the next request asks again. */
  lemma FailureIsNotCached(store: Store, key: string, now: int, later: int, answer: SearchOutcome)
    requires Serve(store, key, now, later, answer).reply.Error?
    ensures key !in Serve(store, key, now, later, answer).store
  {
  }

  /**
    Once a search has been answered, the same key is answered from the cache, with the
    same results and no request, up to `TtlMs` after the answer was stored.
  */
  lemma RepeatWithinTtlIsCached(store: Store, key: string, now: int, later: int, answer: SearchOutcome,
                                t: int, later2: int, answer2: SearchOutcome)
    requires Serve(store, key, now, later, answer).reply.Items?
    requires TtlCache.Lookup(store, key, now).None? && t <= later + TtlMs
    ensures var first := Serve(store, key, now, later, answer);
      Serve(first.store, key, t, later2, answer2) == Outcome(first.reply, 0, first.store)
  {
    TtlCache.ReadBackUntilExpiry(TtlCache.AfterGet(store, key, now), key, answer.result.value, TtlMs, later, t);
  }

  /** The imperative form of `Serve` on the process's cache object. */
  method ServeFrom(cache: TtlCache.Cache<seq<UnifiedResult>>, key: string, now: int, later: int, answer: SearchOutcome)
    returns (reply: Reply, requests: nat)
    modifies cache
    ensures Outcome(reply, requests, cache.store) == Serve(old(cache.store), key, now, later, answer)
  {
    var cached := cache.Get(key, now);
    if cached.Some? {
      return Items(cached.value), 0;
    }
    match answer.result {
      case Ok(items) =>
        cache.Set(key, items, TtlMs, later);
        return Items(items), answer.requests;
      case Err(m) =>
        return Error(500, m), answer.requests;
    }
  }

  // ---------------------------------------------------------------------------
  // GET /api/search/movie

  function MovieRoute(store: Store, q: Option<string>, env: Env, now: int, later: int,
                      upstream: nat -> Fetcher.Attempt<TmdbProvider.Response>): (o: Outcome)
    ensures Query(q).None? ==> o == Outcome(Error(400, MissingQuery), 0, store)
    ensures Query(q).Some? && !Truthy(env.tmdbToken) ==> o == Outcome(Error(500, "Missing TMDB_TOKEN"), 0, store)
    ensures Query(q).Some? && Truthy(env.tmdbToken) ==>
      o == Serve(store, MovieKey(Query(q).value), now, later, TmdbProvider.Search(env.tmdbToken, upstream))
  {
    var query := Query(q);
    if query.None? then Outcome(Error(400, MissingQuery), 0, store)
    else if !Truthy(env.tmdbToken) then Outcome(Error(500, "Missing TMDB_TOKEN"), 0, store)
    else Serve(store, MovieKey(query.value), now, later, TmdbProvider.Search(env.tmdbToken, upstream))
  }

  method Movie(cache: TtlCache.Cache<seq<UnifiedResult>>, q: Option<string>, env: Env, now: int, later: int,
               upstream: nat -> Fetcher.Attempt<TmdbProvider.Response>)
    returns (reply: Reply, requests: nat)
    modifies cache
    ensures Outcome(reply, requests, cache.store) == MovieRoute(old(cache.store), q, env, now, later, upstream)
  {
    var query := Query(q);
    if query.None? {
      return Error(400, MissingQuery), 0;
    }
    if !Truthy(env.tmdbToken) {
      return Error(500, "Missing TMDB_TOKEN"), 0;
    }
    reply, requests := ServeFrom(cache, MovieKey(query.value), now, later, TmdbProvider.Search(env.tmdbToken, upstream));
  }

  /**
    A movie search that missed the cache and succeeded made at most two requests (one
    retry); the same query, however it is padded with spaces, is then answered within
    the time-to-live with the same results and no request.
  */
  lemma MovieRepeatIsCached(store: Store, q: string, env: Env, now: int, later: int,
                            upstream: nat -> Fetcher.Attempt<TmdbProvider.Response>,
                            t: int, later2: int, upstream2: nat -> Fetcher.Attempt<TmdbProvider.Response>)
    requires MovieRoute(store, Some(q), env, now, later, upstream).reply.Items?
    requires TtlCache.Lookup(store, MovieKey(Trim(q)), now).None? && t <= later + TtlMs
    ensures MovieRoute(store, Some(q), env, now, later, upstream).requests <= 2
    ensures var first := MovieRoute(store, Some(q), env, now, later, upstream);
      MovieRoute(first.store, Some(Trim(q)), env, t, later2, upstream2) == Outcome(first.reply, 0, first.store)
  {
    QueryIgnoresSurroundingSpace(q);
    Fetcher.DefaultMakesAtMostTwoRequests(upstream);
    RepeatWithinTtlIsCached(store, MovieKey(Query(Some(q)).value), now, later,
                            TmdbProvider.Search(env.tmdbToken, upstream), t, later2,
                            TmdbProvider.Search(env.tmdbToken, upstream2));
  }

  // ---------------------------------------------------------------------------
  // GET /api/search/music

  /** What the internal `GET /api/spotify/token` request gave the music route. */
  datatype TokenFetch = TokenReply(ok: bool, accessToken: Option<string>) | TokenThrew(message: string)

  /** `get("provider") || fallback`: the music route falls back to `"youtube"`, the book route to `"naverBooks"`. */
  function ProviderOr(p: Option<string>, fallback: string): (name: string)
    ensures Truthy(p) ==> name == p.value
    ensures !Truthy(p) ==> name == fallback
  {
    Or(p, Some(fallback)).value
  }

  /** `getSpotifyToken(req)` followed by `searchSpotifyTracks(q, token)`. */
  function SpotifySearch(token: TokenFetch, upstream: nat -> Fetcher.Attempt<SpotifyProvider.Response>)
    : (out: SearchOutcome)
    ensures token.TokenThrew? ==> out == SearchOutcome(Err(token.message), 0)
    ensures token.TokenReply? && !token.ok ==> out == SearchOutcome(Err(TokenFetchFailed), 0)
    ensures token.TokenReply? && token.ok ==> out == SpotifyProvider.Search(token.accessToken, upstream)
  {
    match token
    case TokenThrew(m) => SearchOutcome(Err(m), 0)
    case TokenReply(ok, accessToken) =>
      if !ok then SearchOutcome(Err(TokenFetchFailed), 0)
      else SpotifyProvider.Search(accessToken, upstream)
  }

  function MusicRoute(store: Store, q: Option<string>, provider: Option<string>, env: Env, now: int, later: int,
                      youtube: nat -> Fetcher.Attempt<YouTubeProvider.Response>,
                      token: TokenFetch, spotify: nat -> Fetcher.Attempt<SpotifyProvider.Response>): (o: Outcome)
    ensures Query(q).None? ==> o == Outcome(Error(400, MissingQuery), 0, store)
    ensures Query(q).Some? && ProviderOr(provider, "youtube") == "youtube" && !Truthy(env.youtubeKey) ==>
      o == Outcome(Error(500, "Missing YOUTUBE_API_KEY"), 0, store)
    ensures Query(q).Some? && ProviderOr(provider, "youtube") == "spotify"
            && (!Truthy(env.spotifyClientId) || !Truthy(env.spotifyClientSecret)) ==>
      o == Outcome(Error(500, MissingSpotifyEnv), 0, store)
    ensures Query(q).Some? && ProviderOr(provider, "youtube") == "spotify"
            && Truthy(env.spotifyClientId) && Truthy(env.spotifyClientSecret) ==>
      o == Serve(store, MusicKey("spotify", Query(q).value), now, later, SpotifySearch(token, spotify))
    ensures Query(q).Some? && ProviderOr(provider, "youtube") != "spotify"
            && (ProviderOr(provider, "youtube") == "youtube" ==> Truthy(env.youtubeKey)) ==>
      o == Serve(store, MusicKey(ProviderOr(provider, "youtube"), Query(q).value), now, later,
                 YouTubeProvider.Search(env.youtubeKey, youtube))
  {
    var query := Query(q);
    var p := ProviderOr(provider, "youtube");
    if query.None? then Outcome(Error(400, MissingQuery), 0, store)
    else if p == "youtube" && !Truthy(env.youtubeKey) then Outcome(Error(500, "Missing YOUTUBE_API_KEY"), 0, store)
    else if p == "spotify" && (!Truthy(env.spotifyClientId) || !Truthy(env.spotifyClientSecret)) then
      Outcome(Error(500, MissingSpotifyEnv), 0, store)
    else
      var answer := if p == "spotify" then SpotifySearch(token, spotify) else YouTubeProvider.Search(env.youtubeKey, youtube);
      Serve(store, MusicKey(p, query.value), now, later, answer)
  }

  method Music(cache: TtlCache.Cache<seq<UnifiedResult>>, q: Option<string>, provider: Option<string>, env: Env,
               now: int, later: int, youtube: nat -> Fetcher.Attempt<YouTubeProvider.Response>,
               token: TokenFetch, spotify: nat -> Fetcher.Attempt<SpotifyProvider.Response>)
    returns (reply: Reply, requests: nat)
    modifies cache
    ensures Outcome(reply, requests, cache.store)
         == MusicRoute(old(cache.store), q, provider, env, now, later, youtube, token, spotify)
  {
    var query := Query(q);
    var p := ProviderOr(provider, "youtube");
    if query.None? {
      return Error(400, MissingQuery), 0;
    }
    if p == "youtube" && !Truthy(env.youtubeKey) {
      return Error(500, "Missing YOUTUBE_API_KEY"), 0;
    }
    if p == "spotify" && (!Truthy(env.spotifyClientId) || !Truthy(env.spotifyClientSecret)) {
      return Error(500, MissingSpotifyEnv), 0;
    }
    var answer;
    if p == "spotify" {
      answer := SpotifySearch(token, spotify);
    } else {
      answer := YouTubeProvider.Search(env.youtubeKey, youtube);
    }
    reply, requests := ServeFrom(cache, MusicKey(p, query.value), now, later, answer);
  }

  /**
    Any provider name other than "spotify" is served by YouTube. For a name other than
    "youtube" the route skips its own key check, so a missing key is reported by the
    adapter only after the cache lookup, still without a request.
  */
  lemma UnknownMusicProviderFallsBackToYouTube(store: Store, q: string, provider: string, env: Env, now: int,
                                               later: int, youtube: nat -> Fetcher.Attempt<YouTubeProvider.Response>,
                                               token: TokenFetch, spotify: nat -> Fetcher.Attempt<SpotifyProvider.Response>)
    requires Query(Some(q)).Some? && provider != [] && provider != "spotify" && provider != "youtube"
    requires !Truthy(env.youtubeKey)
    requires TtlCache.Lookup(store, MusicKey(provider, Trim(q)), now).None?
    ensures MusicRoute(store, Some(q), Some(provider), env, now, later, youtube, token, spotify)
         == Outcome(Error(500, "Missing YOUTUBE_API_KEY"), 0, TtlCache.AfterGet(store, MusicKey(provider, Trim(q)), now))
  {
  }

  /** A token that could not be fetched is reported as such, and nothing is cached. */
  lemma SpotifyTokenFailureIsReported(store: Store, q: string, env: Env, now: int, later: int,
                                      youtube: nat -> Fetcher.Attempt<YouTubeProvider.Response>,
                                      accessToken: Option<string>, spotify: nat -> Fetcher.Attempt<SpotifyProvider.Response>)
    requires Query(Some(q)).Some? && Truthy(env.spotifyClientId) && Truthy(env.spotifyClientSecret)
    requires TtlCache.Lookup(store, MusicKey("spotify", Trim(q)), now).None?
    ensures var o := MusicRoute(store, Some(q), Some("spotify"), env, now, later, youtube,
                                TokenReply(false, accessToken), spotify);
      o.reply == Error(500, TokenFetchFailed) && o.requests == 0
      && MusicKey("spotify", Trim(q)) !in o.store
  {
    assert ProviderOr(Some("spotify"), "youtube") == "spotify";
    assert Query(Some(q)).value == Trim(q);
  }

  // ---------------------------------------------------------------------------
  // GET /api/search/book

  function BookRoute(store: Store, q: Option<string>, provider: Option<string>, env: Env, now: int, later: int,
                     naver: nat -> Fetcher.Attempt<NaverBooksProvider.Response>,
                     google: nat -> Fetcher.Attempt<GoogleBooksProvider.Response>): (o: Outcome)
    ensures Query(q).None? ==> o == Outcome(Error(400, MissingQuery), 0, store)
    ensures Query(q).Some? && ProviderOr(provider, "naverBooks") == "naverBooks"
            && (!Truthy(env.naverId) || !Truthy(env.naverSecret)) ==>
      o == Outcome(Error(500, "Missing NAVER_ID or NAVER_SECRET"), 0, store)
    ensures Query(q).Some? && ProviderOr(provider, "naverBooks") == "googleBooks" && !Truthy(env.googleBooksKey) ==>
      o == Outcome(Error(500, "Missing GOOGLE_BOOKS_KEY"), 0, store)
    ensures Query(q).Some? && ProviderOr(provider, "naverBooks") == "googleBooks" && Truthy(env.googleBooksKey) ==>
      o == Serve(store, BookKey("googleBooks", Query(q).value), now, later,
                 GoogleBooksProvider.Search(env.googleBooksKey, google))
    ensures Query(q).Some? && ProviderOr(provider, "naverBooks") != "googleBooks"
            && (ProviderOr(provider, "naverBooks") == "naverBooks" ==> Truthy(env.naverId) && Truthy(env.naverSecret)) ==>
      o == Serve(store, BookKey(ProviderOr(provider, "naverBooks"), Query(q).value), now, later,
                 NaverBooksProvider.Search(env.naverId, env.naverSecret, naver))
  {
    var query := Query(q);
    var p := ProviderOr(provider, "naverBooks");
    if query.None? then Outcome(Error(400, MissingQuery), 0, store)
    else if p == "naverBooks" && (!Truthy(env.naverId) || !Truthy(env.naverSecret)) then
      Outcome(Error(500, "Missing NAVER_ID or NAVER_SECRET"), 0, store)
    else if p == "googleBooks" && !Truthy(env.googleBooksKey) then
      Outcome(Error(500, "Missing GOOGLE_BOOKS_KEY"), 0, store)
    else
      var answer := if p == "googleBooks" then GoogleBooksProvider.Search(env.googleBooksKey, google)
                   else NaverBooksProvider.Search(env.naverId, env.naverSecret, naver);
      Serve(store, BookKey(p, query.value), now, later, answer)
  }

  method Book(cache: TtlCache.Cache<seq<UnifiedResult>>, q: Option<string>, provider: Option<string>, env: Env,
              now: int, later: int, naver: nat -> Fetcher.Attempt<NaverBooksProvider.Response>,
              google: nat -> Fetcher.Attempt<GoogleBooksProvider.Response>)
    returns (reply: Reply, requests: nat)
    modifies cache
    ensures Outcome(reply, requests, cache.store) == BookRoute(old(cache.store), q, provider, env, now, later, naver, google)
  {
    var query := Query(q);
    var p := ProviderOr(provider, "naverBooks");
    if query.None? {
      return Error(400, MissingQuery), 0;
    }
    if p == "naverBooks" && (!Truthy(env.naverId) || !Truthy(env.naverSecret)) {
      return Error(500, "Missing NAVER_ID or NAVER_SECRET"), 0;
    }
    if p == "googleBooks" && !Truthy(env.googleBooksKey) {
      return Error(500, "Missing GOOGLE_BOOKS_KEY"), 0;
    }
    var answer;
    if p == "googleBooks" {
      answer := GoogleBooksProvider.Search(env.googleBooksKey, google);
    } else {
      answer := NaverBooksProvider.Search(env.naverId, env.naverSecret, naver);
    }
    reply, requests := ServeFrom(cache, BookKey(p, query.value), now, later, answer);
  }
}
