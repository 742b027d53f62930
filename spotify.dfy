/** The Spotify track-search adapter used for music. */
module SpotifyProvider {
  import opened Wrappers
  import opened Text
  import opened MediaTypes
  import Fetcher

  /** `album`; `images` holds each image's optional `url`. */
  datatype Album = Album(name: Option<string>, releaseDate: Option<string>, images: Option<seq<Option<string>>>)

  /** One track; `artists` holds each artist's optional `name`. */
  datatype Track = Track(
    id: string,
    name: string,
    artists: Option<seq<Option<string>>>,
    previewUrl: Json,
    spotifyUrl: Option<string>,
    album: Option<Album>)

  /** `tracks?.items` */
  datatype Response = Response(items: Option<seq<Track>>)

  /** `names.map((a) => a.name || "").filter(Boolean)`: the non-empty names, in order. */
  function ArtistNames(names: seq<Option<string>>): (r: seq<string>)
    ensures |r| <= |names|
    ensures forall k :: 0 <= k < |r| ==> r[k] != []
    ensures forall i :: 0 <= i < |names| && Truthy(names[i]) ==> names[i].value in r
    ensures forall k :: 0 <= k < |r| ==> exists i :: 0 <= i < |names| && names[i] == Some(r[k])
  {
    if names == [] then []
    else
      var rest := ArtistNames(names[1..]);
      assert forall i :: 1 <= i < |names| ==> names[i] == names[1..][i - 1];
      if Truthy(names[0]) then [names[0].value] + rest else rest
  }

  /** When every artist has a name, the creators are exactly those names in order. */
  lemma {:induction false} AllNamedArtistsKept(names: seq<Option<string>>)
    requires forall i :: 0 <= i < |names| ==> Truthy(names[i])
    ensures |ArtistNames(names)| == |names|
    ensures forall i :: 0 <= i < |names| ==> ArtistNames(names)[i] == names[i].value
  {
    if names != [] {
      AllNamedArtistsKept(names[1..]);
    }
  }

  /** The filter works element by element: the names of `a + b` are those of `a` followed by those of `b`. */
  lemma {:induction false} ArtistNamesAppend(a: seq<Option<string>>, b: seq<Option<string>>)
    ensures ArtistNames(a + b) == ArtistNames(a) + ArtistNames(b)
  {
    if a == [] {
      assert a + b == b;
    } else {
      assert (a + b)[0] == a[0] && (a + b)[1..] == a[1..] + b;
      ArtistNamesAppend(a[1..], b);
    }
  }

  /** One artist gives its name when the name is non-empty, and nothing otherwise. */
  lemma ArtistNamesOfOne(name: Option<string>)
    ensures ArtistNames([name]) == if Truthy(name) then [name.value] else []
  {
  }

  /** `t.album?.images?.[0]?.url` */
  function FirstImage(album: Option<Album>): (img: Option<string>)
    ensures img.Some? ==>
      album.Some? && album.value.images.Some? && |album.value.images.value| > 0
      && img == album.value.images.value[0]
    ensures album.Some? && album.value.images.Some? && |album.value.images.value| > 0 ==>
      img == album.value.images.value[0]
  {
    if album.Some? && album.value.images.Some? && |album.value.images.value| > 0
    then album.value.images.value[0] else None
  }

  /** The mapping of one track. The album's release date is passed on as it is, never padded. */
  function ToUnified(t: Track): (r: UnifiedResult)
    ensures r.provider == Spotify && r.providerId == t.id && r.title == t.name
    ensures r.creators == Some(ArtistNames(t.artists.GetOr([])))
    ensures r.description.None?
    ensures r.imageUrl == FirstImage(t.album) && r.linkUrl == t.spotifyUrl
    ensures r.releaseDate.Some? <==> t.album.Some? && Truthy(t.album.value.releaseDate)
    ensures r.releaseDate.Some? ==> r.releaseDate == t.album.value.releaseDate
    ensures r.extra == map["album" := OptStr(if t.album.Some? then t.album.value.name else None),
                           "preview_url" := t.previewUrl]
  {
    UnifiedResult(
      Spotify,
      t.id,
      t.name,
      Some(ArtistNames(t.artists.GetOr([]))),
      None,
      FirstImage(t.album),
      t.spotifyUrl,
      if t.album.Some? then OrUndefined(t.album.value.releaseDate) else None,
      map["album" := OptStr(if t.album.Some? then t.album.value.name else None),
          "preview_url" := t.previewUrl])
  }

  function ToResults(resp: Response): (rs: seq<UnifiedResult>)
    ensures |rs| == |resp.items.GetOr([])|
    ensures forall i :: 0 <= i < |rs| ==> rs[i] == ToUnified(resp.items.value[i])
  {
    var ts := resp.items.GetOr([]);
    seq(|ts|, i requires 0 <= i < |ts| => ToUnified(ts[i]))
  }

  /** `searchSpotifyTracks(q, accessToken)`: no request at all without a token. */
  function Search(accessToken: Option<string>, upstream: nat -> Fetcher.Attempt<Response>): (out: SearchOutcome)
    ensures !Truthy(accessToken) ==> out == SearchOutcome(Err("Missing Spotify access token"), 0)
    ensures Truthy(accessToken) ==>
      var f := Fetcher.Fetch(upstream, Fetcher.DefaultRetries);
      out.requests == f.requests &&
      match Settle(f.outcome, "Spotify")
      case Ok(resp) => out.result == Ok(ToResults(resp))
      case Err(m) => out.result == Err(m)
  {
    if !Truthy(accessToken) then SearchOutcome(Err("Missing Spotify access token"), 0)
    else
      var f := Fetcher.Fetch(upstream, Fetcher.DefaultRetries);
      match Settle(f.outcome, "Spotify")
      case Ok(resp) => SearchOutcome(Ok(ToResults(resp)), f.requests)
      case Err(m) => SearchOutcome(Err(m), f.requests)
  }
}
