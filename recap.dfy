/**
  `buildRecap(entries, year)`: a year's top-10 entries ordered by rank, split by
  category, the first three of each category, the first ten thumbnails, and the number
  of entries created in each month of the year.
*/
module Recap {
  import opened Wrappers
  import opened Text
  import RankSort
  import MediaTypes

  type Month = m: int | 0 <= m < 12

  /** `new Date(createdAt)` read in local time: its year and zero-based month. */
  datatype Created = Created(year: int, month: Month)

  /**
    An entry joined with its media. `createdAt` is `None` when the string is empty or
    does not parse as a date.
  */
  datatype RecapEntry = RecapEntry(id: string, rank: int, createdAt: Option<Created>,
                                   category: MediaTypes.Category, imageUrl: Option<string>)

  datatype Recap = Recap(
    byRank: seq<RecapEntry>,
    movie: seq<RecapEntry>,
    music: seq<RecapEntry>,
    book: seq<RecapEntry>,
    top3Movie: seq<RecapEntry>,
    top3Music: seq<RecapEntry>,
    top3Book: seq<RecapEntry>,
    monthly: seq<nat>,
    thumbs: seq<string>)

  function RankOf(e: RecapEntry): int { e.rank }

  /** `[...entries].sort((a, b) => a.rank - b.rank)` */
  function ByRank(entries: seq<RecapEntry>): (s: seq<RecapEntry>)
    ensures |s| == |entries| && multiset(s) == multiset(entries)
    ensures RankSort.SortedBy(s, RankOf)
  {
    RankSort.SortBy(entries, RankOf)
  }

  /** The entries of `s` in category `c`, in their order in `s`. */
  function InCategory(s: seq<RecapEntry>, c: MediaTypes.Category): (r: seq<RecapEntry>)
    ensures |r| <= |s|
    ensures forall e :: e in r ==> e in s && e.category == c
  {
    if s == [] then []
    else
      var last := s[|s| - 1];
      var init := InCategory(s[..|s| - 1], c);
      if last.category == c then init + [last] else init
  }

  /** Every entry is in exactly one bucket: the three buckets together are `s` again. */
  lemma {:induction false} BucketsPartition(s: seq<RecapEntry>)
    ensures multiset(InCategory(s, MediaTypes.Movie)) + multiset(InCategory(s, MediaTypes.Music))
            + multiset(InCategory(s, MediaTypes.Book)) == multiset(s)
    ensures |InCategory(s, MediaTypes.Movie)| + |InCategory(s, MediaTypes.Music)|
            + |InCategory(s, MediaTypes.Book)| == |s|
  {
    if s != [] {
      var init := s[..|s| - 1];
      var e := s[|s| - 1];
      BucketsPartition(init);
      assert s == init + [e];
      assert multiset(s) == multiset(init) + multiset{e};
      match e.category {
        case Movie =>
          assert InCategory(s, MediaTypes.Movie) == InCategory(init, MediaTypes.Movie) + [e];
          assert InCategory(s, MediaTypes.Music) == InCategory(init, MediaTypes.Music);
          assert InCategory(s, MediaTypes.Book) == InCategory(init, MediaTypes.Book);
        case Music =>
          assert InCategory(s, MediaTypes.Movie) == InCategory(init, MediaTypes.Movie);
          assert InCategory(s, MediaTypes.Music) == InCategory(init, MediaTypes.Music) + [e];
          assert InCategory(s, MediaTypes.Book) == InCategory(init, MediaTypes.Book);
        case Book =>
          assert InCategory(s, MediaTypes.Movie) == InCategory(init, MediaTypes.Movie);
          assert InCategory(s, MediaTypes.Music) == InCategory(init, MediaTypes.Music);
          assert InCategory(s, MediaTypes.Book) == InCategory(init, MediaTypes.Book) + [e];
      }
    }
  }

  /** A bucket of a rank-ordered sequence is in rank order too. */
  lemma {:induction false} BucketKeepsRankOrder(s: seq<RecapEntry>, c: MediaTypes.Category)
    requires RankSort.SortedBy(s, RankOf)
    ensures RankSort.SortedBy(InCategory(s, c), RankOf)
  {
    if s != [] {
      var init := s[..|s| - 1];
      var last := s[|s| - 1];
      BucketKeepsRankOrder(init, c);
      var b := InCategory(init, c);
      forall i | 0 <= i < |b|
        ensures b[i].rank <= last.rank
      {
        assert b[i] in init;
        var k :| 0 <= k < |init| && init[k] == b[i];
      }
    }
  }

  /** One entry's image URL, or nothing when it is missing or empty. */
  function UrlOf(e: RecapEntry): (kept: seq<string>)
    ensures |kept| <= 1
    ensures forall u :: u in kept ==> u != [] && e.imageUrl == Some(u)
    ensures Truthy(e.imageUrl) ==> e.imageUrl.value in kept
  {
    if Truthy(e.imageUrl) then [e.imageUrl.value] else []
  }

  /** `byRank.map((e) => e.media.imageUrl).filter(Boolean)` */
  function ImageUrls(s: seq<RecapEntry>): (urls: seq<string>)
    ensures |urls| <= |s|
    ensures forall u :: u in urls ==> u != [] && exists e :: e in s && e.imageUrl == Some(u)
    ensures forall e :: e in s && Truthy(e.imageUrl) ==> e.imageUrl.value in urls
  {
    if s == [] then []
    else
      assert forall e :: e in s ==> e == s[0] || e in s[1..];
      UrlOf(s[0]) + ImageUrls(s[1..])
  }

  /** The filter works entry by entry: the URLs of `a + b` are those of `a` followed by those of `b`. */
  lemma {:induction false} ImageUrlsAppend(a: seq<RecapEntry>, b: seq<RecapEntry>)
    ensures ImageUrls(a + b) == ImageUrls(a) + ImageUrls(b)
  {
    if a == [] {
      assert a + b == b;
    } else {
      var ab := a + b;
      assert ab[0] == a[0] && ab[1..] == a[1..] + b;
      ImageUrlsAppend(a[1..], b);
    }
  }

  /** One entry gives its URL when that is non-empty, and nothing otherwise. */
  lemma ImageUrlsOfOne(e: RecapEntry)
    ensures ImageUrls([e]) == if Truthy(e.imageUrl) then [e.imageUrl.value] else []
  {
  }

  /** Whether `e` counts for month `m` of `year`. */
  predicate CreatedIn(e: RecapEntry, year: int, m: Month) {
    e.createdAt.Some? && e.createdAt.value.year == year && e.createdAt.value.month == m
  }

  /** The number of entries of `s` created in month `m` of `year`. */
  function CountIn(s: seq<RecapEntry>, year: int, m: Month): (n: nat)
    ensures n <= |s|
  {
    if s == [] then 0
    else CountIn(s[..|s| - 1], year, m) + (if CreatedIn(s[|s| - 1], year, m) then 1 else 0)
  }

  /** The number of entries of `s` created in `year` at all. */
  function CountYear(s: seq<RecapEntry>, year: int): (n: nat)
    ensures n <= |s|
  {
    if s == [] then 0
    else
      var last := s[|s| - 1];
      CountYear(s[..|s| - 1], year) + (if last.createdAt.Some? && last.createdAt.value.year == year then 1 else 0)
  }

  /** The twelve-slot histogram `monthly`. */
  function MonthlyOf(s: seq<RecapEntry>, year: int): (h: seq<nat>)
    ensures |h| == 12
    ensures forall m: Month :: h[m] == CountIn(s, year, m)
  {
    seq(12, (m: int) requires 0 <= m < 12 => CountIn(s, year, m))
  }

  function Sum(a: seq<nat>): nat {
    if a == [] then 0 else a[0] + Sum(a[1..])
  }

  lemma {:induction false} SumOfZeros(a: seq<nat>)
    requires forall i :: 0 <= i < |a| ==> a[i] == 0
    ensures Sum(a) == 0
  {
    if a != [] {
      SumOfZeros(a[1..]);
    }
  }

  lemma {:induction false} SumBump(a: seq<nat>, k: nat)
    requires k < |a|
    ensures Sum(a[k := a[k] + 1]) == Sum(a) + 1
  {
    if k > 0 {
      SumBump(a[1..], k - 1);
      assert a[k := a[k] + 1][1..] == a[1..][k - 1 := a[k] + 1];
    }
  }

  /**
    The histogram counts each entry of the year once, in its own month, so its total is
    the number of entries created that year, and never more than the number of entries.
  */
  lemma {:induction false} MonthlyTotal(s: seq<RecapEntry>, year: int)
    ensures Sum(MonthlyOf(s, year)) == CountYear(s, year) <= |s|
  {
    if s == [] {
      SumOfZeros(MonthlyOf(s, year));
    } else {
      var init := s[..|s| - 1];
      var e := s[|s| - 1];
      MonthlyTotal(init, year);
      if e.createdAt.Some? && e.createdAt.value.year == year {
        var k := e.createdAt.value.month;
        SumBump(MonthlyOf(init, year), k);
        assert MonthlyOf(s, year) == MonthlyOf(init, year)[k := MonthlyOf(init, year)[k] + 1];
      } else {
        assert MonthlyOf(s, year) == MonthlyOf(init, year);
      }
    }
  }

  /** The `byRank.forEach` loop that pushes each entry onto its category's bucket. */
  method SplitByCategory(byRank: seq<RecapEntry>) returns (movie: seq<RecapEntry>, music: seq<RecapEntry>,
                                                           book: seq<RecapEntry>)
    ensures movie == InCategory(byRank, MediaTypes.Movie)
    ensures music == InCategory(byRank, MediaTypes.Music)
    ensures book == InCategory(byRank, MediaTypes.Book)
  {
    movie, music, book := [], [], [];
    var i := 0;
    while i < |byRank|
      invariant 0 <= i <= |byRank|
      invariant movie == InCategory(byRank[..i], MediaTypes.Movie)
      invariant music == InCategory(byRank[..i], MediaTypes.Music)
      invariant book == InCategory(byRank[..i], MediaTypes.Book)
    {
      var e := byRank[i];
      assert byRank[..i + 1][..i] == byRank[..i];
      if e.category == MediaTypes.Movie {
        movie := movie + [e];
      }
      if e.category == MediaTypes.Music {
        music := music + [e];
      }
      if e.category == MediaTypes.Book {
        book := book + [e];
      }
      i := i + 1;
    }
    assert byRank[..i] == byRank;
  }

  /** The `entries.forEach` loop that fills the twelve-slot `monthly` array. */
  method CountMonths(entries: seq<RecapEntry>, year: int) returns (monthly: seq<nat>)
    ensures monthly == MonthlyOf(entries, year)
  {
    var counts := new nat[12](_ => 0);
    var j := 0;
    while j < |entries|
      invariant 0 <= j <= |entries|
      invariant forall m: Month :: counts[m] == CountIn(entries[..j], year, m)
    {
      var e := entries[j];
      assert entries[..j + 1][..j] == entries[..j];
      if e.createdAt.Some? && e.createdAt.value.year == year {
        var k := e.createdAt.value.month;
        counts[k] := counts[k] + 1;
      }
      j := j + 1;
    }
    assert entries[..j] == entries;
    monthly := counts[..];
  }

  /** `buildRecap(entries, year)` */
  method BuildRecap(entries: seq<RecapEntry>, year: int) returns (r: Recap)
    ensures r.byRank == ByRank(entries)
    ensures r.movie == InCategory(r.byRank, MediaTypes.Movie)
    ensures r.music == InCategory(r.byRank, MediaTypes.Music)
    ensures r.book == InCategory(r.byRank, MediaTypes.Book)
    ensures r.top3Movie == Take(r.movie, 3) && r.top3Music == Take(r.music, 3) && r.top3Book == Take(r.book, 3)
    ensures r.monthly == MonthlyOf(entries, year)
    ensures r.thumbs == Take(ImageUrls(r.byRank), 10)
  {
    var byRank := ByRank(entries);
    var movie, music, book := SplitByCategory(byRank);
    var monthly := CountMonths(entries, year);
    r := Recap(byRank, movie, music, book, Take(movie, 3), Take(music, 3), Take(book, 3),
               monthly, Take(ImageUrls(byRank), 10));
  }
}
