/**
  The layout arithmetic of the two share images: the 1080x1920 story image
  (`/api/story`), a grid of up to twelve covers whose column count and cell aspect
  ratio are parameters, and the 1200x630 recap card (`/api/og`), a fixed 2x5 grid of up
  to ten covers. Only the layout values are modelled, not the rendering. A numeric
  parameter is read as a decimal integer.
*/
module ShareImage {
  import opened Wrappers
  import opened Text

  const StoryWidth: int := 1080
  const StoryHeight: int := 1920
  const Gap: int := 16
  const Pad: int := 48
  /** The width the columns share: `W - pad * 2`. */
  const InnerWidth: int := StoryWidth - 2 * Pad
  const MaxStoryImages: nat := 12
  const DefaultCols: nat := 3
  const DefaultRatio: string := "2:3"
  const LightBackground: string := "linear-gradient(180deg,#ffffff,#f3f3f3)"
  const DarkBackground: string := "linear-gradient(180deg,#0f0f0f,#1b1b1b)"

  /** The story's query parameters; `cols` is the parsed number, `None` when absent. */
  datatype StoryParams = StoryParams(
    year: Option<string>,
    title: Option<string>,
    category: Option<string>,
    imgs: seq<string>,
    theme: Option<string>,
    bgColor: Option<string>,
    cols: Option<nat>,
    ratio: Option<string>)

  /** The values the story image is drawn from; `cellH` is `None` when it is NaN. */
  datatype StoryLayout = StoryLayout(
    title: string,
    subtitle: string,
    background: string,
    rows: nat,
    cols: nat,
    cellW: int,
    cellH: Option<int>,
    grid: seq<Option<string>>)

  predicate AllDigits(s: string) {
    forall i :: 0 <= i < |s| ==> '0' <= s[i] <= '9'
  }

  /** `Number(n) || 1` for a ratio component: zero, empty or unreadable gives 1. */
  function RatioPart(s: string): (n: nat)
    ensures n >= 1
    ensures s != [] && AllDigits(s) && DigitsValue(s) > 0 ==> n == DigitsValue(s)
    ensures !(s != [] && AllDigits(s) && DigitsValue(s) > 0) ==> n == 1
  {
    if s != [] && AllDigits(s) && DigitsValue(s) > 0 then DigitsValue(s) else 1
  }

  /** `Math.ceil(12 / cols)` */
  function Rows(cols: nat): (rows: nat)
    requires cols > 0
    ensures rows * cols >= MaxStoryImages
    ensures (rows - 1) * cols < MaxStoryImages
  {
    (MaxStoryImages + cols - 1) / cols
  }

  /** `Math.floor((W - pad * 2 - (cols - 1) * gap) / cols)` */
  function CellWidth(cols: nat): (w: int)
    requires cols > 0
    ensures cols * w + (cols - 1) * Gap <= InnerWidth
    ensures InnerWidth - (cols * w + (cols - 1) * Gap) < cols
  {
    (InnerWidth - (cols - 1) * Gap) / cols
  }

  /** `Array.from({ length: n }, (_, i) => imgs[i] ?? null)` */
  function Grid(imgs: seq<string>, n: nat): (g: seq<Option<string>>)
    ensures |g| == n
    ensures forall i :: 0 <= i < n ==> (i < |imgs| ==> g[i] == Some(imgs[i])) && (i >= |imgs| ==> g[i].None?)
  {
    seq(n, i requires 0 <= i < n => if i < |imgs| then Some(imgs[i]) else None)
  }

  function StoryDefaultTitle(year: string): string {
    "youreview • " + year + " Top 10"
  }

  /**
    The story layout, or `None` for `cols` = 0, where the grid would need infinitely
    many rows and the route fails.
  */
  function Story(p: StoryParams): (l: Option<StoryLayout>)
    ensures l.None? <==> p.cols == Some(0)
    ensures l.Some? ==>
      var s := l.value;
      && s.cols == p.cols.GetOr(DefaultCols)
      && s.rows == Rows(s.cols) && s.cellW == CellWidth(s.cols)
      && |s.grid| == s.rows * s.cols >= MaxStoryImages
      && (forall i :: 0 <= i < |s.grid| && i < |p.imgs| && i < MaxStoryImages ==> s.grid[i] == Some(p.imgs[i]))
      && (forall i :: 0 <= i < |s.grid| && (i >= |p.imgs| || i >= MaxStoryImages) ==> s.grid[i].None?)
      && s.title == p.title.GetOr(StoryDefaultTitle(p.year.GetOr("")))
      && s.subtitle == p.year.GetOr("") + " · " + p.category.GetOr("all")
      && (Truthy(p.bgColor) ==> s.background == p.bgColor.value)
      && (!Truthy(p.bgColor) ==> s.background == if p.theme == Some("light") then LightBackground else DarkBackground)
  {
    var cols := p.cols.GetOr(DefaultCols);
    if cols == 0 then None
    else
      var year := p.year.GetOr("");
      var imgs := Take(p.imgs, MaxStoryImages);
      var rows := Rows(cols);
      var parts := Split(p.ratio.GetOr(DefaultRatio), ':');
      var rw := RatioPart(parts[0]);
      var rh := if |parts| >= 2 then Some(RatioPart(parts[1])) else None;
      var cellW := CellWidth(cols);
      var cellH := if rh.Some? then Some((cellW * rh.value) / rw) else None;
      var background := if Truthy(p.bgColor) then p.bgColor.value
                        else if p.theme == Some("light") then LightBackground else DarkBackground;
      Some(StoryLayout(
        p.title.GetOr(StoryDefaultTitle(year)),
        year + " · " + p.category.GetOr("all"),
        background, rows, cols, cellW, cellH, Grid(imgs, rows * cols)))
  }

  /** The ratio a layout was computed from, as `[rw, rh]` would read it. */
  function CellHeight(cellW: int, ratio: string): (h: Option<int>)
  {
    var parts := Split(ratio, ':');
    if |parts| >= 2 then Some((cellW * RatioPart(parts[1])) / RatioPart(parts[0])) else None
  }

  /** The cell height is `floor(cellW * rh / rw)`, NaN when the ratio has no `:`. */
  lemma StoryCellHeight(p: StoryParams)
    requires p.cols != Some(0)
    ensures Story(p).value.cellH == CellHeight(Story(p).value.cellW, p.ratio.GetOr(DefaultRatio))
  {
  }

  /** `"ab".split(sep)` and `"a" + sep + "b"` split, for characters other than `sep`. */
  lemma SplitShort(a: char, b: char, sep: char)
    requires a != sep && b != sep
    ensures Split([a, b], sep) == [[a, b]]
    ensures Split([a, sep, b], sep) == [[a], [b]]
  {
    var e: string := [];
    assert Split(e, sep) == [e];
    var sb: string := [b];
    assert sb[1..] == e;
    assert [sb[0]] + e == sb;
    assert Split(sb, sep) == [sb];
    var ab: string := [a, b];
    assert ab[1..] == sb;
    assert [ab[0]] + sb == ab;
    assert Split(ab, sep) == [ab];
    var xb: string := [sep, b];
    assert xb[1..] == sb;
    assert Split(xb, sep) == [e, sb];
    var axb: string := [a, sep, b];
    assert axb[1..] == xb;
    assert [axb[0]] + e == [a];
    assert Split(axb, sep) == [[a], sb];
  }

  /** With no parameters: three columns of four rows, 317 wide and 475 high, on the dark background. */
  lemma StoryDefaults()
    ensures var l := Story(StoryParams(None, None, None, [], None, None, None, None)).value;
      l.rows == 4 && l.cols == 3 && l.cellW == 317 && l.cellH == Some(475)
      && l.background == DarkBackground && l.title == "youreview •  Top 10"
  {
    var p := StoryParams(None, None, None, [], None, None, None, None);
    StoryCellHeight(p);
    DefaultCellHeight();
  }

  /** The default ratio "2:3" on the default width of 317 gives cells 475 high. */
  lemma DefaultCellHeight()
    ensures CellWidth(DefaultCols) == 317
    ensures CellHeight(317, DefaultRatio) == Some(475)
  {
    SplitShort('2', '3', ':');
    assert DefaultRatio == ['2', ':', '3'];
    assert DigitsValue("2") == 2 && DigitsValue("3") == 3;
  }

  /** A ratio component of zero reads as 1: "0:0" makes square cells. */
  lemma ZeroRatioIsSquare(cellW: int)
    ensures CellHeight(cellW, "0:0") == Some(cellW)
  {
    SplitShort('0', '0', ':');
    assert "0:0" == ['0', ':', '0'];
    assert DigitsValue("0") == 0;
  }

  /** A ratio without `:` has no height component, so the cell height is NaN. */
  lemma RatioWithoutColonHasNoHeight(cellW: int)
    ensures CellHeight(cellW, "16").None?
  {
    SplitShort('1', '6', ':');
    assert "16" == ['1', '6'];
  }

  // ---------------------------------------------------------------------------
  // /api/og

  const OgCell: nat := 180
  const OgCols: nat := 5
  const OgRows: nat := 2
  const MaxOgImages: nat := 10

  datatype OgLayout = OgLayout(title: string, subtitle: string, grid: seq<Option<string>>)

  /** The card's default title, with the bullet as the source file spells it: "â€¢". */
  function OgDefaultTitle(year: string): string {
    "youreview â€¢ " + year + " Top 10"
  }

  function Og(year: Option<string>, title: Option<string>, imgs: seq<string>): (l: OgLayout)
    ensures |l.grid| == OgRows * OgCols == MaxOgImages
    ensures forall i :: 0 <= i < MaxOgImages && i < |imgs| ==> l.grid[i] == Some(imgs[i])
    ensures forall i :: |imgs| <= i < MaxOgImages ==> l.grid[i].None?
    ensures l.title == title.GetOr(OgDefaultTitle(year.GetOr("")))
    ensures l.subtitle == year.GetOr("") + " Recap"
  {
    var y := year.GetOr("");
    var shown := Take(imgs, MaxOgImages);
    OgLayout(title.GetOr(OgDefaultTitle(y)), y + " Recap", Grid(shown, OgRows * OgCols))
  }

  /** The two images' default titles differ for every year, in the bullet between name and year. */
  lemma DefaultTitlesDiffer(year: string)
    ensures Og(Some(year), None, []).title != Story(StoryParams(Some(year), None, None, [], None, None, None, None)).value.title
  {
    var og := OgDefaultTitle(year);
    var story := StoryDefaultTitle(year);
    assert og[10] != story[10];
  }
}
