/** The line chart: the data ranges it computes from its series, the layout
    decisions it makes when it renders, and the cache of ranges it keeps
    between updates. Scales and path generation are external and not part
    of this model; the rendered markup is a value, a `ChartView`. */
module LineChart {
  import opened Wrappers

  // ---------------------------------------------------------------------------
  // Data

  /** One record of a series, its fields in key order: the first field is
      read as the x value, the second as the y value. */
  type Record = (real, real)

  type Series = seq<Record>

  type Color = string

  /** A JavaScript array whose elements may themselves be arrays. */
  datatype Nested = Leaf(v: real) | Arr(items: seq<Nested>)

  /** Which field of every record an axis pools. */
  datatype Field = First | Second

  datatype Bounds = Bounds(min: real, max: real)

  /** The range handed to an axis: the extent of the pooled values (`None`,
      that is `min` and `max` undefined, when there are no values) and the
      tick count. */
  datatype Range = Range(bounds: Option<Bounds>, tickCount: int)

  /** One entry of the `grid` property: an axis configuration that may fix
      the axis' labels (`text`), its domain (`min`, `max`) or its tick count. */
  datatype GridConfig = GridConfig(
    text: Option<seq<string>>,
    min: Option<real>,
    max: Option<real>,
    tickCount: Option<int>)

  const DefaultTickCount: int := 5

  function FieldOf(r: Record, f: Field): real {
    match f
    case First => r.0
    case Second => r.1
  }

  /** JavaScript truthiness of an optional number: present and not zero. */
  predicate Truthy(n: Option<real>) {
    n.Some? && n.value != 0.0
  }

  predicate TruthyCount(n: Option<int>) {
    n.Some? && n.value != 0
  }

  // ---------------------------------------------------------------------------
  // Flattening

  /** The numbers in `xs`, concatenated as the source's `reduce` does: element
      after element, an inner array by its own flattening. */
  function Flatten(xs: seq<Nested>): seq<real>
    decreases xs
  {
    if xs == [] then []
    else
      Flatten(xs[..|xs| - 1]) +
        match xs[|xs| - 1]
        case Leaf(v) => [v]
        case Arr(items) => Flatten(items)
  }

  /** The leaves of `xs` read from the left: an independent, head-first
      definition of the order `Flatten` should produce. */
  function InOrder(xs: seq<Nested>): seq<real>
    decreases xs
  {
    if xs == [] then []
    else
      (match xs[0]
       case Leaf(v) => [v]
       case Arr(items) => InOrder(items)) + InOrder(xs[1..])
  }

  /** The number of leaves in `xs`. */
  function LeafCount(xs: seq<Nested>): nat
    decreases xs
  {
    if xs == [] then 0
    else
      (match xs[0]
       case Leaf(_) => 1
       case Arr(items) => LeafCount(items)) + LeafCount(xs[1..])
  }

  /** The numbers of `s`, each as a leaf. */
  function Leaves(s: seq<real>): (r: seq<Nested>)
    ensures |r| == |s|
  {
    seq(|s|, i requires 0 <= i < |s| => Leaf(s[i]))
  }

  lemma {:induction false} InOrderAppend(a: seq<Nested>, b: seq<Nested>)
    ensures InOrder(a + b) == InOrder(a) + InOrder(b)
    decreases a
  {
    if a != [] {
      assert (a + b)[0] == a[0];
      assert (a + b)[1..] == a[1..] + b;
      InOrderAppend(a[1..], b);
    } else {
      assert a + b == b;
    }
  }

  /** `Flatten` yields the leaves from left to right. */
  lemma {:induction false} FlattenIsInOrder(xs: seq<Nested>)
    ensures Flatten(xs) == InOrder(xs)
    decreases xs
  {
    if xs != [] {
      var init, last := xs[..|xs| - 1], xs[|xs| - 1];
      FlattenIsInOrder(init);
      assert xs == init + [last];
      InOrderAppend(init, [last]);
      assert InOrder([last]) == (match last case Leaf(v) => [v] case Arr(items) => InOrder(items)) + InOrder([]);
      match last
      case Leaf(v) =>
      case Arr(items) => FlattenIsInOrder(items);
    }
  }

  lemma {:induction false} InOrderCount(xs: seq<Nested>)
    ensures |InOrder(xs)| == LeafCount(xs)
    decreases xs
  {
    if xs != [] {
      InOrderCount(xs[1..]);
      match xs[0]
      case Leaf(v) =>
      case Arr(items) => InOrderCount(items);
    }
  }

  /** Flattening keeps every leaf, and nothing else. */
  lemma FlattenCount(xs: seq<Nested>)
    ensures |Flatten(xs)| == LeafCount(xs)
  {
    FlattenIsInOrder(xs);
    InOrderCount(xs);
  }

  /** Flattening a concatenation concatenates the flattenings. */
  lemma FlattenAppend(a: seq<Nested>, b: seq<Nested>)
    ensures Flatten(a + b) == Flatten(a) + Flatten(b)
  {
    FlattenIsInOrder(a + b);
    FlattenIsInOrder(a);
    FlattenIsInOrder(b);
    InOrderAppend(a, b);
  }

  /** A list that is already flat comes back unchanged. */
  lemma {:induction false} FlattenFlat(s: seq<real>)
    ensures Flatten(Leaves(s)) == s
    decreases |s|
  {
    if s != [] {
      var init := s[..|s| - 1];
      assert Leaves(s)[..|s| - 1] == Leaves(init);
      FlattenFlat(init);
      assert s == init + [s[|s| - 1]];
    }
  }

  /** Flattening twice is flattening once. */
  lemma FlattenIdempotent(xs: seq<Nested>)
    ensures Flatten(Leaves(Flatten(xs))) == Flatten(xs)
  {
    FlattenFlat(Flatten(xs));
  }

  // ---------------------------------------------------------------------------
  // Pooling the fields of all series

  /** One field of every record of a series. */
  function Values(s: Series, f: Field): (r: seq<real>)
    ensures |r| == |s|
  {
    seq(|s|, j requires 0 <= j < |s| => FieldOf(s[j], f))
  }

  /** `lines.map(line => line.map(obj => obj[<field>]))`: one array per series. */
  function FieldArrays(lines: seq<Series>, f: Field): (r: seq<Nested>)
    ensures |r| == |lines|
  {
    seq(|lines|, k requires 0 <= k < |lines| => Arr(Leaves(Values(lines[k], f))))
  }

  /** The values of one field, series after series: the reference for what
      `getRange` pools. */
  function Pool(lines: seq<Series>, f: Field): seq<real>
    decreases |lines|
  {
    if lines == [] then [] else Values(lines[0], f) + Pool(lines[1..], f)
  }

  lemma {:induction false} InOrderFieldArrays(lines: seq<Series>, f: Field)
    ensures InOrder(FieldArrays(lines, f)) == Pool(lines, f)
    decreases |lines|
  {
    if lines != [] {
      var xs := FieldArrays(lines, f);
      assert xs[1..] == FieldArrays(lines[1..], f);
      InOrderFieldArrays(lines[1..], f);
      var leaves := Leaves(Values(lines[0], f));
      FlattenFlat(Values(lines[0], f));
      FlattenIsInOrder(leaves);
      assert xs[0] == Arr(leaves);
    }
  }

  /** Flattening the per-series arrays pools the field of every record, in
      series order and record order. */
  lemma FlattenFieldArrays(lines: seq<Series>, f: Field)
    ensures Flatten(FieldArrays(lines, f)) == Pool(lines, f)
  {
    FlattenIsInOrder(FieldArrays(lines, f));
    InOrderFieldArrays(lines, f);
  }

  /** A value is pooled exactly when some record carries it in that field. */
  lemma {:induction false} PoolMembers(lines: seq<Series>, f: Field, v: real)
    ensures v in Pool(lines, f) <==>
            exists k, j :: 0 <= k < |lines| && 0 <= j < |lines[k]| && FieldOf(lines[k][j], f) == v
    decreases |lines|
  {
    if lines != [] {
      PoolMembers(lines[1..], f, v);
      if v in Values(lines[0], f) {
        var j :| 0 <= j < |lines[0]| && Values(lines[0], f)[j] == v;
        assert FieldOf(lines[0][j], f) == v;
      }
      if exists k, j :: 0 <= k < |lines| && 0 <= j < |lines[k]| && FieldOf(lines[k][j], f) == v {
        var k, j :| 0 <= k < |lines| && 0 <= j < |lines[k]| && FieldOf(lines[k][j], f) == v;
        if k == 0 {
          assert Values(lines[0], f)[j] == v;
        } else {
          assert lines[1..][k - 1][j] == lines[k][j];
        }
      }
    }
  }

  /** Nothing is pooled exactly when every series is empty. */
  lemma {:induction false} PoolEmpty(lines: seq<Series>, f: Field)
    ensures Pool(lines, f) == [] <==> forall k :: 0 <= k < |lines| ==> lines[k] == []
    decreases |lines|
  {
    if lines != [] {
      PoolEmpty(lines[1..], f);
      assert forall k :: 1 <= k < |lines| ==> lines[k] == lines[1..][k - 1];
    }
  }

  // ---------------------------------------------------------------------------
  // Extent and ranges

  /** The smallest and the largest of `s`, scanned from the left as the
      charting library's `extent` does; `None` for no values. */
  function Extent(s: seq<real>): (r: Option<Bounds>)
    ensures r.None? <==> s == []
    ensures r.Some? ==> r.value.min in s && r.value.max in s
    ensures r.Some? ==> forall i :: 0 <= i < |s| ==> r.value.min <= s[i] <= r.value.max
    decreases |s|
  {
    if s == [] then None
    else
      var x := s[|s| - 1];
      match Extent(s[..|s| - 1])
      case None => Some(Bounds(x, x))
      case Some(b) =>
        Some(Bounds(if b.min > x then x else b.min, if b.max < x then x else b.max))
  }

  /** An axis' tick count: the configured one when it is truthy, 5 otherwise. */
  function TickCountFor(g: GridConfig): int {
    if TruthyCount(g.tickCount) then g.tickCount.value else DefaultTickCount
  }

  /** `getRange`: the extent of the first fields of all records for x, of the
      second fields for y, each with its axis' tick count. */
  function GetRange(lines: seq<Series>, grid: seq<GridConfig>): (r: seq<Range>)
    requires |grid| >= 2
    ensures |r| == 2
  {
    [Range(Extent(Flatten(FieldArrays(lines, First))), TickCountFor(grid[0])),
     Range(Extent(Flatten(FieldArrays(lines, Second))), TickCountFor(grid[1]))]
  }

  function AxisIndex(f: Field): nat {
    match f
    case First => 0
    case Second => 1
  }

  /** The range of the axis that pools field `f`: undefined exactly when no
      series has a record; otherwise its `min` and `max` are values of some
      record and every record's value lies between them. */
  lemma RangeExtent(lines: seq<Series>, grid: seq<GridConfig>, f: Field)
    requires |grid| >= 2
    ensures var b := GetRange(lines, grid)[AxisIndex(f)].bounds;
            (b.None? <==> forall k :: 0 <= k < |lines| ==> lines[k] == []) &&
            (b.Some? ==>
              (exists k, j :: 0 <= k < |lines| && 0 <= j < |lines[k]| && FieldOf(lines[k][j], f) == b.value.min) &&
              (exists k, j :: 0 <= k < |lines| && 0 <= j < |lines[k]| && FieldOf(lines[k][j], f) == b.value.max) &&
              forall k, j :: 0 <= k < |lines| && 0 <= j < |lines[k]| ==>
                b.value.min <= FieldOf(lines[k][j], f) <= b.value.max)
  {
    var pool := Pool(lines, f);
    FlattenFieldArrays(lines, f);
    var b := Extent(pool);
    assert GetRange(lines, grid)[AxisIndex(f)].bounds == b;
    PoolEmpty(lines, f);
    if b.Some? {
      PoolMembers(lines, f, b.value.min);
      PoolMembers(lines, f, b.value.max);
      forall k, j | 0 <= k < |lines| && 0 <= j < |lines[k]|
        ensures b.value.min <= FieldOf(lines[k][j], f) <= b.value.max
      {
        PoolMembers(lines, f, FieldOf(lines[k][j], f));
      }
    }
  }

  /** Each axis' tick count is the configured one when truthy, and 5 when it
      is missing or 0. */
  lemma RangeTickCount(lines: seq<Series>, grid: seq<GridConfig>, k: nat)
    requires |grid| >= 2 && k < 2
    ensures var n := GetRange(lines, grid)[k].tickCount;
            (grid[k].tickCount.None? ==> n == 5) &&
            (grid[k].tickCount == Some(0) ==> n == 5) &&
            (grid[k].tickCount.Some? && grid[k].tickCount.value != 0 ==> n == grid[k].tickCount.value)
  {
  }

  /** Two series `[(1, 5), (3, 2)]` and `[(0, 9)]` give x from 0 to 3 and y
      from 2 to 9. */
  lemma RangeExample(grid: seq<GridConfig>)
    requires |grid| >= 2
    ensures var r := GetRange([[(1.0, 5.0), (3.0, 2.0)], [(0.0, 9.0)]], grid);
            r[0].bounds == Some(Bounds(0.0, 3.0)) && r[1].bounds == Some(Bounds(2.0, 9.0))
  {
    var lines: seq<Series> := [[(1.0, 5.0), (3.0, 2.0)], [(0.0, 9.0)]];
    FlattenFieldArrays(lines, First);
    FlattenFieldArrays(lines, Second);
    ExamplePools(lines);
    ExampleExtents();
  }

  lemma ExamplePools(lines: seq<Series>)
    requires lines == [[(1.0, 5.0), (3.0, 2.0)], [(0.0, 9.0)]]
    ensures Pool(lines, First) == [1.0, 3.0, 0.0]
    ensures Pool(lines, Second) == [5.0, 2.0, 9.0]
  {
    var rest := lines[1..];
    assert rest[1..] == [];
    assert Pool(rest, First) == Values(rest[0], First) + Pool([], First);
    assert Pool(rest, Second) == Values(rest[0], Second) + Pool([], Second);
    assert Values(lines[0], First) == [1.0, 3.0];
    assert Values(lines[1], First) == [0.0];
    assert Values(lines[0], Second) == [5.0, 2.0];
    assert Values(lines[1], Second) == [9.0];
  }

  lemma ExampleExtents()
    ensures Extent([1.0, 3.0, 0.0]) == Some(Bounds(0.0, 3.0))
    ensures Extent([5.0, 2.0, 9.0]) == Some(Bounds(2.0, 9.0))
  {
    assert [1.0, 3.0, 0.0][..2] == [1.0, 3.0];
    assert [1.0, 3.0][..1] == [1.0];
    assert [5.0, 2.0, 9.0][..2] == [5.0, 2.0];
    assert [5.0, 2.0][..1] == [5.0];
  }

  /** With no series at all the ranges are undefined rather than a failure. */
  lemma RangeOfNothing(grid: seq<GridConfig>)
    requires |grid| >= 2
    ensures GetRange([], grid)[0].bounds.None? && GetRange([], grid)[1].bounds.None?
  {
    FlattenFieldArrays([], First);
    FlattenFieldArrays([], Second);
  }

  // ---------------------------------------------------------------------------
  // Render-time decisions

  datatype Margin = Margin(top: real, right: real, bottom: real, left: real)

  /** The `legend` property. */
  datatype Legend = Legend(title: Option<string>, labels: seq<string>, width: Option<real>)

  datatype Size = Size(width: real, height: real)

  /** What an axis is given: its explicit `grid` entry, or the computed range. */
  datatype Domain = Explicit(config: GridConfig) | Computed(range: Range)

  const DefaultWidth: real := 960.0
  const DefaultHeight: real := 500.0
  const DefaultMargin: Margin := Margin(20.0, 20.0, 30.0, 50.0)
  const DefaultLegend: Legend := Legend(None, [], Some(200.0))
  const FallbackLegendWidth: real := 200.0

  /** The stroke of series `index`: the palette cycled by index; undefined
      (`None`) when the palette is empty, as `strokes[index % 0]` is. */
  function StrokeFor(strokes: seq<Color>, index: nat): Option<Color> {
    if |strokes| == 0 then None else Some(strokes[index % |strokes|])
  }

  predicate LegendVisible(legend: Legend) {
    |legend.labels| != 0
  }

  /** The width the legend takes: its configured width when truthy, 200
      otherwise, and nothing when the legend is hidden. */
  function LegendWidth(legend: Legend): real {
    if LegendVisible(legend) then
      (if Truthy(legend.width) then legend.width.value else FallbackLegendWidth)
    else 0.0
  }

  /** The drawing area left inside the margins: with the margins added back
      it is the outer size again. */
  function InnerSize(width: real, height: real, margin: Margin): (r: Size)
    ensures margin.left + r.width + margin.right == width
    ensures margin.top + r.height + margin.bottom == height
  {
    Size(width - margin.left - margin.right, height - margin.top - margin.bottom)
  }

  /** `text || (min && max)`: whether an axis keeps its `grid` entry. */
  predicate UsesExplicit(g: GridConfig) {
    g.text.Some? || (Truthy(g.min) && Truthy(g.max))
  }

  function AxisDomain(g: GridConfig, computed: Range): Domain {
    if UsesExplicit(g) then Explicit(g) else Computed(computed)
  }

  /** Every stroke is a palette colour, and series `k` and `k + |strokes|`
      share one: the palette repeats. The first `|strokes|` series take the
      palette in order. */
  lemma StrokesCycle(strokes: seq<Color>, k: nat)
    requires |strokes| > 0
    ensures StrokeFor(strokes, k).Some? && StrokeFor(strokes, k).value in strokes
    ensures StrokeFor(strokes, k + |strokes|) == StrokeFor(strokes, k)
    ensures k < |strokes| ==> StrokeFor(strokes, k) == Some(strokes[k])
  {
    var n := |strokes|;
    var q, r := k / n, k % n;
    MulSub(q + 1, 1, n);
    ModUnique(k + n, n, q + 1, r);
    if k < n {
      ModUnique(k, n, 0, k);
    }
  }

  /** The remainder is the only one in `[0, n)` that fits `a == q * n + r`. */
  lemma ModUnique(a: int, n: int, q: int, r: int)
    requires n > 0 && 0 <= r < n && a == q * n + r
    ensures a % n == r
  {
    var q', r' := a / n, a % n;
    assert a == q' * n + r';
    MulSub(q, q', n);
    var d := q - q';
    if d > 0 {
      MulAtLeast(d, n);
    } else if d < 0 {
      MulAtLeast(-d, n);
      MulSub(q', q, n);
    }
  }

  lemma MulSub(a: int, b: int, n: int)
    ensures (a - b) * n == a * n - b * n
  {
  }

  lemma {:induction false} MulAtLeast(d: int, n: int)
    requires d >= 1 && n > 0
    ensures d * n >= n
    decreases d
  {
    if d > 1 {
      MulAtLeast(d - 1, n);
      MulSub(d, 1, n);
    }
  }

  /** With at least as many series as colours, every colour is used. */
  lemma StrokesCoverPalette(strokes: seq<Color>, seriesCount: nat, c: Color)
    requires |strokes| <= seriesCount && c in strokes
    ensures exists k :: 0 <= k < seriesCount && StrokeFor(strokes, k) == Some(c)
  {
    var k :| 0 <= k < |strokes| && strokes[k] == c;
    StrokesCycle(strokes, k);
  }

  /** The legend takes its width, or 200 when that is falsy, exactly when it
      has labels; otherwise it takes nothing. */
  lemma LegendWidthRule(legend: Legend)
    ensures !LegendVisible(legend) ==> LegendWidth(legend) == 0.0
    ensures LegendVisible(legend) && (legend.width.None? || legend.width == Some(0.0)) ==>
              LegendWidth(legend) == 200.0
    ensures LegendVisible(legend) && legend.width.Some? && legend.width.value != 0.0 ==>
              LegendWidth(legend) == legend.width.value
    ensures LegendWidth(legend) == 0.0 <==> !LegendVisible(legend)
  {
  }

  /** An axis keeps its `grid` entry when it has `text`, or both a non-zero
      `min` and a non-zero `max`; so a `min` of 0 counts as not supplied. */
  lemma DomainChoice(g: GridConfig, computed: Range)
    ensures AxisDomain(g, computed).Explicit? <==>
              g.text.Some? || (g.min.Some? && g.min.value != 0.0 && g.max.Some? && g.max.value != 0.0)
    ensures AxisDomain(g, computed).Explicit? ==> AxisDomain(g, computed).config == g
    ensures AxisDomain(g, computed).Computed? ==> AxisDomain(g, computed).range == computed
    ensures g.text.None? && g.min == Some(0.0) ==> AxisDomain(g, computed) == Computed(computed)
  {
  }

  /** With the default size and margins the drawing area is 890 by 450, and
      the default legend, having no labels, takes no width. */
  lemma DefaultLayout()
    ensures InnerSize(DefaultWidth, DefaultHeight, DefaultMargin) == Size(890.0, 450.0)
    ensures LegendWidth(DefaultLegend) == 0.0
  {
  }

  // ---------------------------------------------------------------------------
  // The component

  /** The `lines` property. A JavaScript array is compared by reference, so
      it is modelled as an object; its series are fixed once it exists. */
  class LinesArray {
    const series: seq<Series>

    constructor (series: seq<Series>)
      ensures this.series == series
    {
      this.series := series;
    }
  }

  /** The properties of a line chart, after the framework has filled in the
      defaults (`DefaultWidth`, `DefaultHeight`, `DefaultMargin`,
      `DefaultLegend`; the default palette is external). */
  datatype Props = Props(
    lines: LinesArray,
    legend: Legend,
    width: real,
    height: real,
    margin: Margin,
    strokes: seq<Color>,
    grid: seq<GridConfig>)

  datatype LegendView = LegendView(title: Option<string>, labels: seq<string>, width: real)

  /** One drawn line: its series and its stroke. */
  datatype LineView = LineView(data: Series, stroke: Option<Color>)

  /** What `render` produces: the outer width, the legend if shown, the
      chart's own size and margins, the two axes' domains and the lines. */
  datatype ChartView = ChartView(
    width: real,
    legend: Option<LegendView>,
    chartWidth: real,
    chartHeight: real,
    margin: Margin,
    x: Domain,
    y: Domain,
    lines: seq<LineView>)

  /** `render`, given the component's properties and its cached ranges. */
  function RenderChart(p: Props, ranges: seq<Range>): (v: ChartView)
    requires |p.grid| >= 2 && |ranges| >= 2
    ensures |v.lines| == |p.lines.series|
  {
    var legendWidth := LegendWidth(p.legend);
    var series := p.lines.series;
    ChartView(
      p.width,
      if LegendVisible(p.legend) then Some(LegendView(p.legend.title, p.legend.labels, legendWidth)) else None,
      p.width - legendWidth,
      p.height,
      p.margin,
      AxisDomain(p.grid[0], ranges[0]),
      AxisDomain(p.grid[1], ranges[1]),
      seq(|series|, k requires 0 <= k < |series| => LineView(series[k], StrokeFor(p.strokes, k))))
  }

  /** The rendered chart: one line per series, in order, stroked by the
      cycled palette; the legend shown exactly when it has labels and the
      chart narrowed by its width exactly then; each axis given its `grid`
      entry or the computed range by `DomainChoice`. */
  lemma RenderLayout(p: Props, ranges: seq<Range>)
    requires |p.grid| >= 2 && |ranges| >= 2
    ensures var v := RenderChart(p, ranges);
            (forall k :: 0 <= k < |v.lines| ==>
               v.lines[k].data == p.lines.series[k] && v.lines[k].stroke == StrokeFor(p.strokes, k)) &&
            (v.legend.Some? <==> |p.legend.labels| > 0) &&
            (v.chartWidth == p.width <==> |p.legend.labels| == 0) &&
            v.chartWidth == p.width - LegendWidth(p.legend) &&
            v.x == AxisDomain(p.grid[0], ranges[0]) &&
            v.y == AxisDomain(p.grid[1], ranges[1])
  {
    LegendWidthRule(p.legend);
  }

  /** The mounted component: `componentWillMount` computes the inner size,
      the pixel ranges of the two scales and the ranges. A later property
      change is rendered first, with the ranges still cached, and only then
      does `componentDidUpdate` recompute the ranges when the `lines`
      reference changed. */
  class LineChart {
    var props: Props
    /** `this.width`, `this.height`: the drawing area inside the margins. */
    var inner: Size
    /** The pixel ranges the x and y scales are rounded to. */
    var xPixels: (real, real)
    var yPixels: (real, real)
    /** `state.ranges`. */
    var ranges: seq<Range>
    /** The grid the cached ranges were computed with. */
    ghost var rangesGrid: seq<GridConfig>

    /** What `render` needs: two grid entries and two cached ranges. */
    ghost predicate Renderable()
      reads this
    {
      |props.grid| >= 2 && |ranges| >= 2
    }

    /** The cached ranges are the ranges of the series in `lines`. */
    ghost predicate CachedFor(lines: LinesArray)
      reads this
    {
      |rangesGrid| >= 2 && ranges == GetRange(lines.series, rangesGrid)
    }

    /** The cached ranges are the ranges of the current series. */
    ghost predicate Valid()
      reads this
    {
      Renderable() && CachedFor(props.lines)
    }

    /** Construction followed by `componentWillMount`. */
    constructor Mount(p: Props)
      requires |p.grid| >= 2
      ensures Valid()
      ensures props == p
      ensures inner == InnerSize(p.width, p.height, p.margin)
      ensures xPixels == (0.0, inner.width) && yPixels == (inner.height, 0.0)
      ensures ranges == GetRange(p.lines.series, p.grid) && rangesGrid == p.grid
    {
      var size := InnerSize(p.width, p.height, p.margin);
      props := p;
      inner := size;
      xPixels := (0.0, size.width);
      yPixels := (size.height, 0.0);
      ranges := GetRange(p.lines.series, p.grid);
      rangesGrid := p.grid;
    }

    /** New properties arrive; the state, and so the cached ranges, is
      left as it was. Returns the previous properties, which
      `componentDidUpdate` is given. */
    method ReceiveProps(next: Props) returns (prev: Props)
      requires Renderable() && |next.grid| >= 2
      modifies this
      ensures Renderable()
      ensures prev == old(props) && props == next
      ensures ranges == old(ranges) && rangesGrid == old(rangesGrid)
      ensures inner == old(inner) && xPixels == old(xPixels) && yPixels == old(yPixels)
    {
      prev := props;
      props := next;
    }

    /** `componentDidUpdate(prevProps)`: the ranges are recomputed only when
      `lines` is another array than before; the inner size and pixel
      ranges stay as mounted. If the cached ranges described the previous
      series, they describe the current ones afterwards. */
    method DidUpdate(prev: Props)
      requires Renderable()
      modifies this
      ensures Renderable()
      ensures old(CachedFor(prev.lines)) ==> Valid()
      ensures props == old(props)
      ensures inner == old(inner) && xPixels == old(xPixels) && yPixels == old(yPixels)
      ensures prev.lines != props.lines ==>
                ranges == GetRange(props.lines.series, props.grid) && rangesGrid == props.grid
      ensures prev.lines == props.lines ==>
                ranges == old(ranges) && rangesGrid == old(rangesGrid)
    {
      if prev.lines != props.lines {
        ranges := GetRange(props.lines.series, props.grid);
        rangesGrid := props.grid;
      }
    }

    /** A property change as the framework runs it: the new properties are
      rendered with the ranges cached so far (`rendered`), then
      `componentDidUpdate` brings the ranges up to date. */
    method Update(next: Props) returns (rendered: ChartView)
      requires Valid() && |next.grid| >= 2
      modifies this
      ensures rendered == RenderChart(next, old(ranges))
      ensures Valid()
      ensures props == next
      ensures inner == old(inner) && xPixels == old(xPixels) && yPixels == old(yPixels)
      ensures next.lines != old(props.lines) ==>
                ranges == GetRange(next.lines.series, next.grid) && rangesGrid == next.grid
      ensures next.lines == old(props.lines) ==>
                ranges == old(ranges) && rangesGrid == old(rangesGrid)
    {
      var prev := ReceiveProps(next);
      rendered := View();
      DidUpdate(prev);
    }

    /** `render` over the current properties and cached ranges: an axis that
      is given the computed range is given the cached range, and when the
      cache is up to date that is the extent of the current series. */
    function View(): (v: ChartView)
      reads this
      requires Renderable()
      ensures |v.lines| == |props.lines.series|
      ensures forall k :: 0 <= k < |v.lines| ==> v.lines[k].data == props.lines.series[k]
      ensures v.x.Computed? ==> v.x.range == ranges[0]
      ensures v.y.Computed? ==> v.y.range == ranges[1]
      ensures Valid() && v.x.Computed? ==> v.x.range.bounds == Extent(Pool(props.lines.series, First))
      ensures Valid() && v.y.Computed? ==> v.y.range.bounds == Extent(Pool(props.lines.series, Second))
    {
      FlattenFieldArrays(props.lines.series, First);
      FlattenFieldArrays(props.lines.series, Second);
      RenderChart(props, ranges)
    }
  }

  /** The render between a property change and `componentDidUpdate`: a
      chart mounted with the series `[(0,0),(1,1)]` that is given a new
      array holding `[(5,5),(9,9)]` first draws the new line on the old x
      range 0..1, and only after `componentDidUpdate` on the range 5..9. */
  method StaleRender() returns (stale: ChartView, current: ChartView)
    ensures |stale.lines| == 1 && stale.lines[0].data == [(5.0, 5.0), (9.0, 9.0)]
    ensures stale.x == Computed(Range(Some(Bounds(0.0, 1.0)), DefaultTickCount))
    ensures current.x == Computed(Range(Some(Bounds(5.0, 9.0)), DefaultTickCount))
  {
    var noConfig := GridConfig(None, None, None, None);
    var grid := [noConfig, noConfig];
    var before := new LinesArray([[(0.0, 0.0), (1.0, 1.0)]]);
    var after := new LinesArray([[(5.0, 5.0), (9.0, 9.0)]]);
    var p := Props(before, DefaultLegend, DefaultWidth, DefaultHeight, DefaultMargin, [], grid);
    var chart := new LineChart.Mount(p);
    TwoPointExtent(0.0, 1.0);
    TwoPointExtent(5.0, 9.0);
    stale := chart.Update(p.(lines := after));
    current := chart.View();
  }

  /** The x range of a single two-record series. */
  lemma TwoPointExtent(a: real, b: real)
    requires a <= b
    ensures GetRange([[(a, a), (b, b)]], [GridConfig(None, None, None, None), GridConfig(None, None, None, None)])[0]
            == Range(Some(Bounds(a, b)), DefaultTickCount)
  {
    var lines: seq<Series> := [[(a, a), (b, b)]];
    FlattenFieldArrays(lines, First);
    assert lines[1..] == [];
    assert Pool(lines, First) == Values(lines[0], First) + Pool([], First);
    assert Values(lines[0], First) == [a, b];
    assert [a, b][..1] == [a];
  }
}
