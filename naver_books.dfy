/**
  The Naver book-search adapter: HTML tags are stripped from title and description
  with `/<[^>]+>/g`, the comma-separated author string becomes a list, and the
  `YYYYMMDD` publication date is written `YYYY-MM-DD`.
*/
module NaverBooksProvider {
  import opened Wrappers
  import opened Text
  import opened MediaTypes
  import Fetcher

  datatype Item = Item(
    title: Option<string>,
    link: Option<string>,
    image: Option<string>,
    author: Option<string>,
    discount: Option<string>,
    publisher: Option<string>,
    isbn: Option<string>,
    description: Option<string>,
    pubdate: Option<string>)

  datatype Response = Response(items: Option<seq<Item>>)

  // ---------------------------------------------------------------------------
  // `s.replace(/<[^>]+>/g, "")`

  /** The position of the first `>` of `s`. */
  function FirstGt(s: string): (k: nat)
    requires '>' in s
    ensures k < |s| && s[k] == '>'
    ensures forall j :: 0 <= j < k ==> s[j] != '>'
  {
    if s[0] == '>' then 0
    else
      assert '>' in s[1..] by {
        var j :| 0 <= j < |s| && s[j] == '>';
        assert s[1..][j - 1] == '>';
      }
      1 + FirstGt(s[1..])
  }

  /**
    `/<[^>]+>/` matches at index `i`: a `<`, at least one character other than `>`,
    and a later `>`.
  */
  predicate TagAt(s: string, i: nat) {
    i + 1 < |s| && s[i] == '<' && s[i + 1] != '>' && '>' in s[i + 2..]
  }

  /** No match of the tag pattern anywhere in `s`. */
  predicate NoTag(s: string) {
    forall i :: 0 <= i < |s| ==> !TagAt(s, i)
  }

  /**
    The global replacement: a match is looked for from the left, removed up to and
    including its first `>`, and the search goes on after it.
  */
  function StripTags(s: string): (r: string)
    decreases |s|
    ensures |r| <= |s|
    ensures '>' !in s ==> '>' !in r
  {
    if s == [] then []
    else if TagAt(s, 0) then
      assert '>' in s[1..] by {
        var j :| 0 <= j < |s[2..]| && s[2..][j] == '>';
        assert s[1..][j + 1] == '>';
      }
      var k := FirstGt(s[1..]) + 1;
      StripTags(s[k + 1..])
    else
      assert '>' !in s ==> '>' !in s[1..];
      [s[0]] + StripTags(s[1..])
  }

  /** A match in `[c] + t` after the first character is a match in `t`, and back. */
  lemma TagShift(c: char, t: string, i: nat)
    ensures TagAt([c] + t, i + 1) <==> TagAt(t, i)
  {
    var s := [c] + t;
    if i + 2 < |s| {
      assert s[i + 3..] == t[i + 2..];
    }
  }

  /** Nothing the pattern matches is left after stripping. */
  lemma {:induction false} StripLeavesNoTag(s: string)
    decreases |s|
    ensures NoTag(StripTags(s))
  {
    if s == [] {
    } else if TagAt(s, 0) {
      assert '>' in s[1..] by {
        var j :| 0 <= j < |s[2..]| && s[2..][j] == '>';
        assert s[1..][j + 1] == '>';
      }
      var k := FirstGt(s[1..]) + 1;
      StripLeavesNoTag(s[k + 1..]);
    } else {
      var rest := StripTags(s[1..]);
      StripLeavesNoTag(s[1..]);
      var r := [s[0]] + rest;
      assert StripTags(s) == r;
      forall i | 0 <= i < |r|
        ensures !TagAt(r, i)
      {
        if i > 0 {
          TagShift(s[0], rest, i - 1);
        } else if s[0] == '<' && |s| > 1 {
          if s[1] == '>' {
            assert !TagAt(s[1..], 0);
            assert rest[0] == '>';
          } else {
            assert '>' !in s[2..];
            forall j | 0 <= j < |s[1..]|
              ensures s[1..][j] != '>'
            {
              if j > 0 {
                assert s[1..][j] == s[2..][j - 1];
              }
            }
            assert '>' !in rest;
            if |r| > 2 {
              assert r[2..] == rest[1..];
            }
          }
        }
      }
    }
  }

  /** Text without tags is left alone. */
  lemma {:induction false} StripOfNoTag(s: string)
    decreases |s|
    requires NoTag(s)
    ensures StripTags(s) == s
  {
    if s != [] {
      assert !TagAt(s, 0);
      assert s == [s[0]] + s[1..];
      forall i | 0 <= i < |s[1..]|
        ensures !TagAt(s[1..], i)
      {
        TagShift(s[0], s[1..], i);
      }
      StripOfNoTag(s[1..]);
    }
  }

  /** Stripping twice is stripping once. */
  lemma StripIdempotent(s: string)
    ensures StripTags(StripTags(s)) == StripTags(s)
  {
    StripLeavesNoTag(s);
    StripOfNoTag(StripTags(s));
  }

  /** A leading tag is dropped: `"<i>ok"` gives `"ok"`. */
  lemma StripExample()
    ensures StripTags("<i>ok") == "ok"
  {
    var s := "<i>ok";
    assert s[2..][0] == '>';
    assert FirstGt(s[1..]) == 1;
    assert s[3..] == "ok";
    assert StripTags("ok") == "ok" by { StripOfNoTag("ok"); }
  }

  // ---------------------------------------------------------------------------
  // `String(b.author).split(",").map((s) => s.trim()).filter(Boolean)`

  /** One part, trimmed, or nothing when it is blank. */
  function TrimmedPart(part: string): (kept: seq<string>)
    ensures |kept| <= 1
    ensures forall k :: 0 <= k < |kept| ==> kept[k] != [] && Trimmed(kept[k])
  {
    TrimIsTrimmedInfix(part);
    if Trim(part) != [] then [Trim(part)] else []
  }

  /** Each part trimmed, the empty ones dropped, the order kept. */
  function TrimmedNonEmpty(parts: seq<string>): (names: seq<string>)
    ensures |names| <= |parts|
    ensures forall k :: 0 <= k < |names| ==> names[k] != [] && Trimmed(names[k])
  {
    if parts == [] then []
    else TrimmedPart(parts[0]) + TrimmedNonEmpty(parts[1..])
  }

  /** The filter works part by part: the names of `a + b` are those of `a` followed by those of `b`. */
  lemma {:induction false} TrimmedNonEmptyAppend(a: seq<string>, b: seq<string>)
    ensures TrimmedNonEmpty(a + b) == TrimmedNonEmpty(a) + TrimmedNonEmpty(b)
  {
    if a == [] {
      assert a + b == b;
    } else {
      var ab := a + b;
      assert ab[0] == a[0] && ab[1..] == a[1..] + b;
      TrimmedNonEmptyAppend(a[1..], b);
    }
  }

  /** One part gives its trimmed text, or nothing when that is empty. */
  lemma TrimmedNonEmptyOfOne(part: string)
    ensures TrimmedNonEmpty([part]) == if Trim(part) != [] then [Trim(part)] else []
  {
  }

  function Authors(author: string): (names: seq<string>)
    ensures |names| <= CountChar(author, ',') + 1
    ensures forall k :: 0 <= k < |names| ==> names[k] != [] && Trimmed(names[k])
  {
    TrimmedNonEmpty(Split(author, ','))
  }

  lemma {:induction false} SplitWithoutSeparator(s: string, sep: char)
    requires sep !in s
    ensures Split(s, sep) == [s]
  {
    if s != [] {
      assert sep !in s[1..];
      SplitWithoutSeparator(s[1..], sep);
      assert [s[0]] + s[1..] == s;
    }
  }

  /** A single author is that name, trimmed; a blank one gives no author. */
  lemma SingleAuthor(author: string)
    requires ',' !in author
    ensures Authors(author) == if Trim(author) != [] then [Trim(author)] else []
  {
    SplitWithoutSeparator(author, ',');
    TrimmedNonEmptyOfOne(author);
  }

  /** The text up to the first separator is the first part, and the rest is split on its own. */
  lemma {:induction false} SplitAtFirst(a: string, b: string, sep: char)
    requires sep !in a
    ensures Split(a + [sep] + b, sep) == [a] + Split(b, sep)
  {
    var s := a + [sep] + b;
    if a == [] {
      assert s == [sep] + b;
      assert s[1..] == b;
    } else {
      assert s[1..] == a[1..] + [sep] + b;
      assert sep !in a[1..];
      SplitAtFirst(a[1..], b, sep);
      assert [a[0]] + a[1..] == a;
    }
  }

  /**
    The first comma-separated part comes first among the authors when it is not blank, and is
    dropped when it is: together with SingleAuthor this fixes `Authors` on every input.
  */
  lemma FirstAuthorThenRest(a: string, b: string)
    requires ',' !in a
    ensures Authors(a + [','] + b) == (if Trim(a) != [] then [Trim(a)] else []) + Authors(b)
  {
    SplitAtFirst(a, b, ',');
    TrimmedNonEmptyAppend([a], Split(b, ','));
    TrimmedNonEmptyOfOne(a);
  }

  /** When no part is blank, every part becomes one name, trimmed, in order. */
  lemma {:induction false} NoBlankPartDropped(parts: seq<string>)
    requires forall i :: 0 <= i < |parts| ==> Trim(parts[i]) != []
    ensures |TrimmedNonEmpty(parts)| == |parts|
    ensures forall i :: 0 <= i < |parts| ==> TrimmedNonEmpty(parts)[i] == Trim(parts[i])
  {
    if parts != [] {
      NoBlankPartDropped(parts[1..]);
    }
  }

  // ---------------------------------------------------------------------------
  // `${p.slice(0, 4)}-${p.slice(4, 6)}-${p.slice(6, 8)}`

  function FormatPubdate(p: string): (d: string)
    ensures |p| >= 8 ==>
      |d| == 10 && d[4] == '-' && d[7] == '-' && d[..4] + d[5..7] + d[8..] == p[..8]
    ensures |p| == 8 ==> d == p[..4] + "-" + p[4..6] + "-" + p[6..]
  {
    var year, month, day := Slice(p, 0, 4), Slice(p, 4, 6), Slice(p, 6, 8);
    var d := year + "-" + month + "-" + day;
    assert |p| >= 8 ==> d[..4] == year && d[5..7] == month && d[8..] == day
                        && p[..8] == p[..4] + p[4..6] + p[6..8];
    d
  }

  /** A date shorter than eight characters is not padded: "2020" gives "2020--". */
  lemma ShortPubdate()
    ensures FormatPubdate("2020") == "2020--"
  {
  }

  // ---------------------------------------------------------------------------

  /** `(b.isbn || b.link || b.title) ?? "unknown"` */
  function ProviderId(b: Item): (id: string)
    ensures Truthy(b.isbn) ==> id == b.isbn.value
    ensures !Truthy(b.isbn) && Truthy(b.link) ==> id == b.link.value
    ensures !Truthy(b.isbn) && !Truthy(b.link) ==> id == b.title.GetOr("unknown")
  {
    Or(b.isbn, Or(b.link, b.title)).GetOr("unknown")
  }

  /** The mapping of one book. */
  function ToUnified(b: Item): (r: UnifiedResult)
    ensures r.provider == NaverBooks && r.providerId == ProviderId(b)
    ensures Truthy(b.title) ==> r.title == StripTags(b.title.value) && NoTag(r.title)
    ensures !Truthy(b.title) ==> r.title == "Untitled"
    ensures r.creators.Some? <==> Truthy(b.author)
    ensures r.creators.Some? ==> r.creators.value == Authors(b.author.value)
    ensures r.description.Some? <==> Truthy(b.description)
    ensures r.description.Some? ==> r.description.value == StripTags(b.description.value) && NoTag(r.description.value)
    ensures r.imageUrl == OrUndefined(b.image) && r.linkUrl == OrUndefined(b.link)
    ensures r.releaseDate.Some? <==> Truthy(b.pubdate)
    ensures r.releaseDate.Some? ==> r.releaseDate.value == FormatPubdate(b.pubdate.value)
    ensures r.extra == map["publisher" := OptStr(b.publisher), "discount" := OptStr(b.discount),
                           "isbn" := OptStr(b.isbn)]
  {
    StripLeavesNoTag(b.title.GetOr(""));
    StripLeavesNoTag(b.description.GetOr(""));
    UnifiedResult(
      NaverBooks,
      ProviderId(b),
      if Truthy(b.title) then StripTags(b.title.value) else "Untitled",
      if Truthy(b.author) then Some(Authors(b.author.value)) else None,
      if Truthy(b.description) then Some(StripTags(b.description.value)) else None,
      OrUndefined(b.image),
      OrUndefined(b.link),
      if Truthy(b.pubdate) then Some(FormatPubdate(b.pubdate.value)) else None,
      map["publisher" := OptStr(b.publisher), "discount" := OptStr(b.discount), "isbn" := OptStr(b.isbn)])
  }

  function ToResults(resp: Response): (rs: seq<UnifiedResult>)
    ensures |rs| == |resp.items.GetOr([])|
    ensures forall i :: 0 <= i < |rs| ==> rs[i] == ToUnified(resp.items.value[i])
  {
    var bs := resp.items.GetOr([]);
    seq(|bs|, i requires 0 <= i < |bs| => ToUnified(bs[i]))
  }

  /** `searchNaverBooks(q)`: no request at all without both credentials. */
  function Search(id: Option<string>, secret: Option<string>, upstream: nat -> Fetcher.Attempt<Response>)
    : (out: SearchOutcome)
    ensures !Truthy(id) || !Truthy(secret) ==>
      out == SearchOutcome(Err("Missing NAVER_ID or NAVER_SECRET"), 0)
    ensures Truthy(id) && Truthy(secret) ==>
      var f := Fetcher.Fetch(upstream, Fetcher.DefaultRetries);
      out.requests == f.requests &&
      match Settle(f.outcome, "Naver Books")
      case Ok(resp) => out.result == Ok(ToResults(resp))
      case Err(m) => out.result == Err(m)
  {
    if !Truthy(id) || !Truthy(secret) then SearchOutcome(Err("Missing NAVER_ID or NAVER_SECRET"), 0)
    else
      var f := Fetcher.Fetch(upstream, Fetcher.DefaultRetries);
      match Settle(f.outcome, "Naver Books")
      case Ok(resp) => SearchOutcome(Ok(ToResults(resp)), f.requests)
      case Err(m) => SearchOutcome(Err(m), f.requests)
  }
}
