/**
  The Google Books adapter: a thumbnail served over `http:` is upgraded to `https:`,
  and a publication date given as a bare year becomes the first of January.
*/
module GoogleBooksProvider {
  import opened Wrappers
  import opened Text
  import opened MediaTypes
  import Fetcher

  /**
    One volume. A missing `volumeInfo` or `imageLinks` object reads as one whose fields
    are all missing, as `?? {}` and `?.` make it.
  */
  datatype Item = Item(
    id: string,
    title: Option<string>,
    description: Option<string>,
    authors: Option<seq<string>>,
    thumbnail: Option<string>,
    smallThumbnail: Option<string>,
    infoLink: Option<string>,
    publisher: Option<string>,
    pageCount: Option<real>,
    publishedDate: Option<string>,
    industryIdentifiers: Json)

  datatype Response = Response(items: Option<seq<Item>>)

  /** `img.replace(/^http:/, "https:")`, applied only when `img` starts with `http:`. */
  function Secure(url: string): (u: string)
    ensures !StartsWith(u, "http:")
    ensures StartsWith(url, "http:") ==> u == "https:" + url[5..]
    ensures !StartsWith(url, "http:") ==> u == url
  {
    if StartsWith(url, "http:") then
      var u := "https:" + url[5..];
      assert u[4] == 's';
      u
    else url
  }

  /** An address that is already secure, or not http at all, is left as it is. */
  lemma SecureIdempotent(url: string)
    ensures Secure(Secure(url)) == Secure(url)
  {
  }

  /** `v.imageLinks?.thumbnail || v.imageLinks?.smallThumbnail`, then upgraded. */
  function Image(it: Item): (img: Option<string>)
    ensures img.Some? <==> Or(it.thumbnail, it.smallThumbnail).Some?
    ensures img.Some? ==> img.value == Secure(Or(it.thumbnail, it.smallThumbnail).value)
    ensures img.Some? ==> !StartsWith(img.value, "http:")
  {
    var raw := Or(it.thumbnail, it.smallThumbnail);
    if raw.Some? then Some(Secure(raw.value)) else None
  }

  /** A date of exactly four characters (a year) is completed to `YYYY-01-01`; others pass. */
  function CompleteDate(date: string): (d: string)
    ensures |date| == 4 ==> d == date + "-01-01" && |d| == 10
    ensures |date| != 4 ==> d == date
  {
    if |date| == 4 then date + "-01-01" else date
  }

  /** A year-and-month date is not padded: "2021-05" stays "2021-05". */
  lemma MonthDateNotPadded()
    ensures CompleteDate("2021-05") == "2021-05"
  {
  }

  /** The mapping of one volume. */
  function ToUnified(it: Item): (r: UnifiedResult)
    ensures r.provider == GoogleBooks && r.providerId == it.id
    ensures r.title == it.title.GetOr("Untitled")
    ensures r.creators == it.authors
    ensures r.description == OrUndefined(it.description)
    ensures r.imageUrl == Image(it) && r.linkUrl == it.infoLink
    ensures r.releaseDate.Some? <==> Truthy(it.publishedDate)
    ensures r.releaseDate.Some? ==> r.releaseDate.value == CompleteDate(it.publishedDate.value)
    ensures r.extra == map["publisher" := OptStr(it.publisher), "pageCount" := OptNum(it.pageCount),
                           "industryIdentifiers" := it.industryIdentifiers]
  {
    var date := if it.publishedDate.Some? then Some(CompleteDate(it.publishedDate.value)) else None;
    UnifiedResult(
      GoogleBooks,
      it.id,
      it.title.GetOr("Untitled"),
      it.authors,
      OrUndefined(it.description),
      Image(it),
      it.infoLink,
      OrUndefined(date),
      map["publisher" := OptStr(it.publisher), "pageCount" := OptNum(it.pageCount),
          "industryIdentifiers" := it.industryIdentifiers])
  }

  function ToResults(resp: Response): (rs: seq<UnifiedResult>)
    ensures |rs| == |resp.items.GetOr([])|
    ensures forall i :: 0 <= i < |rs| ==> rs[i] == ToUnified(resp.items.value[i])
  {
    var its := resp.items.GetOr([]);
    seq(|its|, i requires 0 <= i < |its| => ToUnified(its[i]))
  }

  /** `searchGoogleBooks(q)`: no request at all without an API key. */
  function Search(key: Option<string>, upstream: nat -> Fetcher.Attempt<Response>): (out: SearchOutcome)
    ensures !Truthy(key) ==> out == SearchOutcome(Err("Missing GOOGLE_BOOKS_KEY"), 0)
    ensures Truthy(key) ==>
      var f := Fetcher.Fetch(upstream, Fetcher.DefaultRetries);
      out.requests == f.requests &&
      match Settle(f.outcome, "Google Books")
      case Ok(resp) => out.result == Ok(ToResults(resp))
      case Err(m) => out.result == Err(m)
  {
    if !Truthy(key) then SearchOutcome(Err("Missing GOOGLE_BOOKS_KEY"), 0)
    else
      var f := Fetcher.Fetch(upstream, Fetcher.DefaultRetries);
      match Settle(f.outcome, "Google Books")
      case Ok(resp) => SearchOutcome(Ok(ToResults(resp)), f.requests)
      case Err(m) => SearchOutcome(Err(m), f.requests)
  }
}
