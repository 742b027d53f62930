/** The YouTube video-search adapter used for music. */
module YouTubeProvider {
  import opened Wrappers
  import opened Text
  import opened MediaTypes
  import Fetcher

  const WatchPrefix: string := "https://www.youtube.com/watch?v="

  /**
    One entry of `items`. A missing `snippet` or `thumbnails` object reads as one whose
    fields are all missing, exactly as `?? {}` makes it.
  */
  datatype Item = Item(
    videoId: Option<string>,
    title: Option<string>,
    description: Option<string>,
    channelTitle: Option<string>,
    channelId: Option<string>,
    publishedAt: Option<string>,
    high: Option<string>,
    medium: Option<string>,
    default: Option<string>)

  datatype Response = Response(items: Option<seq<Item>>)

  /** `String(vid)`: a missing id prints as "undefined". */
  function IdString(vid: Option<string>): (s: string)
    ensures vid.Some? ==> s == vid.value
    ensures vid.None? ==> s == "undefined"
  {
    if vid.Some? then vid.value else "undefined"
  }

  /** `th.high?.url || th.medium?.url || th.default?.url` */
  function Thumbnail(it: Item): (img: Option<string>)
    ensures Truthy(it.high) ==> img == it.high
    ensures !Truthy(it.high) && Truthy(it.medium) ==> img == it.medium
    ensures !Truthy(it.high) && !Truthy(it.medium) ==> img == it.default
  {
    Or(it.high, Or(it.medium, it.default))
  }

  /** The mapping of one item. */
  function ToUnified(it: Item): (r: UnifiedResult)
    ensures r.provider == YouTube && r.providerId == IdString(it.videoId)
    ensures r.title == it.title.GetOr("Untitled")
    ensures r.creators.Some? <==> Truthy(it.channelTitle)
    ensures r.creators.Some? ==> r.creators.value == [it.channelTitle.value]
    ensures r.description == OrUndefined(it.description)
    ensures r.imageUrl == Thumbnail(it)
    ensures r.linkUrl.Some? <==> Truthy(it.videoId)
    ensures r.linkUrl.Some? ==> r.linkUrl.value == WatchPrefix + it.videoId.value
    ensures r.releaseDate.Some? <==> Truthy(it.publishedAt)
    ensures r.releaseDate.Some? ==>
      var p := it.publishedAt.value;
      r.releaseDate.value == if |p| <= 10 then p else p[..10]
    ensures r.extra == map["channelId" := OptStr(it.channelId)]
  {
    UnifiedResult(
      YouTube,
      IdString(it.videoId),
      it.title.GetOr("Untitled"),
      if Truthy(it.channelTitle) then Some([it.channelTitle.value]) else None,
      OrUndefined(it.description),
      Thumbnail(it),
      if Truthy(it.videoId) then Some(WatchPrefix + it.videoId.value) else None,
      if Truthy(it.publishedAt) then Some(Slice(it.publishedAt.value, 0, 10)) else None,
      map["channelId" := OptStr(it.channelId)])
  }

  /** An ISO timestamp keeps only its date: "2024-03-05T10:00:00Z" gives "2024-03-05". */
  lemma PublishedDateIsTheDay()
    ensures ToUnified(Item(None, None, None, None, None, Some("2024-03-05T10:00:00Z"), None, None, None)).releaseDate
      == Some("2024-03-05")
  {
    var p := "2024-03-05T10:00:00Z";
    assert Slice(p, 0, 10) == p[0..10];
    assert p[0..10] == "2024-03-05";
  }

  /** `(json.items ?? []).map(...)`: one result per item, in order. */
  function ToResults(resp: Response): (rs: seq<UnifiedResult>)
    ensures |rs| == |resp.items.GetOr([])|
    ensures forall i :: 0 <= i < |rs| ==> rs[i] == ToUnified(resp.items.value[i])
  {
    var its := resp.items.GetOr([]);
    seq(|its|, i requires 0 <= i < |its| => ToUnified(its[i]))
  }

  /** `searchYouTube(q)`: no request at all without an API key. */
  function Search(key: Option<string>, upstream: nat -> Fetcher.Attempt<Response>): (out: SearchOutcome)
    ensures !Truthy(key) ==> out == SearchOutcome(Err("Missing YOUTUBE_API_KEY"), 0)
    ensures Truthy(key) ==>
      var f := Fetcher.Fetch(upstream, Fetcher.DefaultRetries);
      out.requests == f.requests &&
      match Settle(f.outcome, "YouTube")
      case Ok(resp) => out.result == Ok(ToResults(resp))
      case Err(m) => out.result == Err(m)
  {
    if !Truthy(key) then SearchOutcome(Err("Missing YOUTUBE_API_KEY"), 0)
    else
      var f := Fetcher.Fetch(upstream, Fetcher.DefaultRetries);
      match Settle(f.outcome, "YouTube")
      case Ok(resp) => SearchOutcome(Ok(ToResults(resp)), f.requests)
      case Err(m) => SearchOutcome(Err(m), f.requests)
  }
}
