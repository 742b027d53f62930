/**
  The pure parts of the `useSearch` hook: the request URL it builds, the key it caches
  the query under, when the query runs, and when a failed request is retried. Query
  parameters are key/value pairs; their percent-encoding is not modelled. The debounced
  query is taken once it has settled on the trimmed input.
*/
module SearchHook {
  import opened Wrappers
  import opened Text
  import opened MediaTypes

  const Search: string := "search"

  datatype Param = Param(key: string, value: string)
  datatype Url = Url(path: string, params: seq<Param>)

  function CategoryName(c: Category): string {
    match c
    case Movie => "movie"
    case Music => "music"
    case Book => "book"
  }

  function ProviderName(p: Provider): string {
    match p
    case Tmdb => "tmdb"
    case YouTube => "youtube"
    case Spotify => "spotify"
    case NaverBooks => "naverBooks"
    case GoogleBooks => "googleBooks"
  }

  /** `buildUrl(category, q, providerOverride)` */
  function BuildUrl(category: Category, q: string, providerOverride: Option<Provider>): (u: Url)
    ensures u.path == "/api/search/" + CategoryName(category)
    ensures |u.params| >= 1 && u.params[0] == Param("q", q)
    ensures |u.params| == 2 <==>
      (category == Music && providerOverride == Some(Spotify))
      || (category == Book && providerOverride == Some(GoogleBooks))
    ensures |u.params| == 2 ==> u.params[1] == Param("provider", ProviderName(providerOverride.value))
    ensures |u.params| <= 2
  {
    var base := if category == Movie then "/api/search/movie"
                else if category == Music then "/api/search/music"
                else "/api/search/book";
    var params := [Param("q", q)];
    var params := if category == Music && providerOverride == Some(Spotify)
                  then params + [Param("provider", "spotify")] else params;
    var params := if category == Book && providerOverride == Some(GoogleBooks)
                  then params + [Param("provider", "googleBooks")] else params;
    Url(base, params)
  }

  /**
    An override that does not belong to the category is dropped: the URL is the one
    built without it.
  */
  lemma ForeignOverrideIgnored(category: Category, q: string, p: Provider)
    requires !(category == Music && p == Spotify) && !(category == Book && p == GoogleBooks)
    ensures BuildUrl(category, q, Some(p)) == BuildUrl(category, q, None)
  {
  }

  /** The `url` memo: none for a blank query, else the URL for the trimmed query. */
  function SearchUrl(category: Category, query: string, providerOverride: Option<Provider>): (u: Option<Url>)
    ensures u.None? <==> Trim(query) == []
    ensures u.Some? ==> u.value == BuildUrl(category, Trim(query), providerOverride)
  {
    var q := Trim(query);
    if q == [] then None else Some(BuildUrl(category, q, providerOverride))
  }

  /** `["search", category, providerOverride ?? "default", qDebounced]` */
  function QueryKey(category: Category, query: string, providerOverride: Option<Provider>): (key: seq<string>)
    ensures |key| == 4 && key[0] == Search && key[1] == CategoryName(category) && key[3] == Trim(query)
    ensures providerOverride.None? ==> key[2] == "default"
    ensures providerOverride.Some? ==> key[2] == ProviderName(providerOverride.value)
  {
    var provider := if providerOverride.Some? then ProviderName(providerOverride.value) else "default";
    [Search, CategoryName(category), provider, Trim(query)]
  }

  /**
    Two inputs that differ only in surrounding space share a cache key; two different
    trimmed queries never do.
  */
  lemma QueryKeyIdentifiesQuery(category: Category, a: string, b: string, providerOverride: Option<Provider>)
    ensures QueryKey(category, a, providerOverride) == QueryKey(category, b, providerOverride)
        <==> Trim(a) == Trim(b)
  {
    if QueryKey(category, a, providerOverride) == QueryKey(category, b, providerOverride) {
      assert QueryKey(category, a, providerOverride)[3] == QueryKey(category, b, providerOverride)[3];
    }
  }

  /** `enabled: !!url && enabled` */
  predicate Enabled(category: Category, query: string, providerOverride: Option<Provider>, enabled: bool) {
    SearchUrl(category, query, providerOverride).Some? && enabled
  }

  /** A blank query never runs, whatever the caller asked. */
  lemma BlankQueryNeverRuns(category: Category, query: string, providerOverride: Option<Provider>, enabled: bool)
    requires Trim(query) == []
    ensures !Enabled(category, query, providerOverride, enabled)
  {
  }

  /**
    The message `fetchJson` throws for a response that is not ok: `HTTP <status>`,
    followed by ` – <error>` when the body carried an error text.
  */
  function FetchErrorMessage(status: nat, error: Option<string>): (m: string)
    ensures StartsWith(m, "HTTP " + NatToString(status))
    ensures !Truthy(error) ==> m == "HTTP " + NatToString(status)
  {
    var base := "HTTP " + NatToString(status);
    var m := if Truthy(error) then base + " – " + error.value else base;
    assert m[..|base|] == base;
    m
  }

  /** The `retry` option: never after a 400 or a 404, otherwise once. */
  predicate Retry(count: nat, message: string) {
    if Contains(message, "HTTP 400") || Contains(message, "HTTP 404") then false
    else count < 1
  }

  /** However many attempts were made, a failure is retried at most once in all. */
  lemma AtMostOneRetry(count: nat, message: string)
    requires count >= 1
    ensures !Retry(count, message)
  {
  }

  /** A 400 or a 404 is never retried. */
  lemma BadRequestAndNotFoundNeverRetried(status: nat, error: Option<string>, count: nat)
    requires status == 400 || status == 404
    ensures !Retry(count, FetchErrorMessage(status, error))
  {
    var m := FetchErrorMessage(status, error);
    var p := if status == 400 then "HTTP 400" else "HTTP 404";
    assert NatToString(status) == p[5..];
    assert OccursAt(m, p, 0);
  }

  lemma ThreeDigits(n: nat)
    requires 100 <= n <= 999
    ensures |NatToString(n)| == 3
  {
    assert |NatToString(n / 10)| == 2 by {
      assert NatToString(n / 10) == NatToString(n / 100) + ['0' + (n / 10 % 10) as char];
    }
  }

  /** The bare message for one three-digit status never mentions another status. */
  lemma NotMentioned(status: nat, code: nat)
    requires 100 <= status <= 999 && 100 <= code <= 999 && status != code
    ensures !Contains("HTTP " + NatToString(status), "HTTP " + NatToString(code))
  {
    ThreeDigits(status);
    ThreeDigits(code);
    var m := "HTTP " + NatToString(status);
    if Contains(m, "HTTP " + NatToString(code)) {
      assert OccursAt(m, "HTTP " + NatToString(code), 0);
      assert m[5..] == NatToString(status);
      assert NatToString(status) == NatToString(code);
      NatToStringValue(status);
      NatToStringValue(code);
      assert false;
    }
  }

  /**
    Any other status whose response carried no error text (a 500, a 429, a 401) is
    retried exactly once.
  */
  lemma OtherStatusRetriedOnce(status: nat)
    requires 100 <= status <= 999 && status != 400 && status != 404
    ensures Retry(0, FetchErrorMessage(status, None))
    ensures !Retry(1, FetchErrorMessage(status, None))
  {
    assert "HTTP " + NatToString(400) == "HTTP 400" && "HTTP " + NatToString(404) == "HTTP 404";
    NotMentioned(status, 400);
    NotMentioned(status, 404);
  }

  /**
    The rule reads the whole message: a server error whose error text mentions
    "HTTP 404" is not retried either.
  */
  lemma ErrorTextCanPreventRetry()
    ensures !Retry(0, FetchErrorMessage(500, Some("upstream HTTP 404")))
  {
    var m := FetchErrorMessage(500, Some("upstream HTTP 404"));
    assert NatToString(500) == "500";
    assert OccursAt(m, "HTTP 404", |m| - 8);
  }

  /** `data: q.data ?? []` */
  function Data(data: Option<seq<UnifiedResult>>): (d: seq<UnifiedResult>)
    ensures data.None? ==> d == []
    ensures data.Some? ==> d == data.value
  {
    data.GetOr([])
  }
}
