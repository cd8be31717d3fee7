/** The axis component: how many ticks it draws, which label each tick shows,
    where each tick sits, which way its stroke points and how it is animated.
    The chart's drawing area (`chart.width`, `chart.height`) is passed
    explicitly. The rendered markup is a value: an `AxisView` holding one
    `Tick` per tick. */
module Axis {
  import opened Wrappers

  /** What a tick shows: an entry of the caller's `text`, or a computed number. */
  datatype Label = Text(s: string) | Num(v: real)

  /** The `animation` property: the value `false`, a function of the tick
      index, or any other value (absent included). */
  datatype AnimationProp =
    | AnimationOff
    | AnimationFunction(f: nat -> string)
    | AnimationOther

  /** The animation a tick receives.
      `Flat` is `dashoffset forwards`; `Custom` is whatever the caller's
      function returned; `Staggered(d)` is `dashoffset 0.4s linear <d>s forwards`. */
  datatype TickAnimation = Flat | Custom(value: string) | Staggered(delay: real)

  /** A point, or a translation, in the drawing's coordinates. */
  datatype Point = Point(x: real, y: real)

  /** A tick's translation, one coordinate at a time: a coordinate is `None`
      when it is not a number (it was computed from a division by zero). */
  datatype Translation = Translation(dx: Option<real>, dy: Option<real>)

  /** One tick. `offset` is the tick's translation; `strokeEnd` is the end
      point of the stroke drawn from the origin; `x`, `y`, `dy` anchor the label. */
  datatype Tick = Tick(
    caption: Label,
    length: real,
    offset: Translation,
    strokeEnd: Point,
    x: real,
    y: real,
    dy: real,
    animation: TickAnimation)

  /** The axis' properties. `min` and `kind` (the `type` property) may be
      absent and then take their default values. */
  datatype AxisProps = AxisProps(
    max: real,
    min: Option<real>,
    text: Option<seq<string>>,
    tickCount: int,
    kind: Option<string>,
    animation: AnimationProp)

  /** The group's `transform`: none, or a vertical translation. */
  datatype Transform = NoTransform | TranslateY(dy: real)

  datatype AxisView = AxisView(transform: Transform, ticks: seq<Tick>)

  const DefaultMin: real := 0.0
  const DefaultKind: string := "bottom"

  /** The source reads `tickCount` only when `text` is absent, and then it must
      be a positive count, or -1, which asks for no label and no tick. Zero
      makes every label a division by zero, and below -1 the count is not an
      array length. */
  predicate WellFormed(p: AxisProps) {
    p.text.Some? || p.tickCount > 0 || p.tickCount == -1
  }

  predicate IsBottom(p: AxisProps) {
    p.kind.GetOr(DefaultKind) == "bottom"
  }

  /** `tickCount + 1` numbers from `min` to `max`; label `i` is
      `i * (max - min) / tickCount + min`. */
  function CalcLabels(max: real, min: real, tickCount: nat): (r: seq<real>)
    requires tickCount > 0
    ensures |r| == tickCount + 1
    ensures r[0] == min && r[tickCount] == max
  {
    MulDivCancel(tickCount as real, max - min);
    seq(tickCount + 1, i requires 0 <= i <= tickCount => i as real * (max - min) / tickCount as real + min)
  }

  /** The number of intervals the axis is divided into: one less than the
      number of text labels when `text` is given (any array is truthy, the
      empty one too), the configured `tickCount` otherwise. */
  function TotalTicks(p: AxisProps): int {
    match p.text
    case Some(t) => |t| - 1
    case None => p.tickCount
  }

  /** The labels the ticks read from: `text` verbatim, or the computed ones. */
  function Labels(p: AxisProps): (r: seq<Label>)
    requires WellFormed(p)
    ensures |r| == TotalTicks(p) + 1
  {
    match p.text
    case Some(t) => seq(|t|, i requires 0 <= i < |t| => Text(t[i]))
    case None =>
      if p.tickCount == -1 then []
      else
        var nums := CalcLabels(p.max, p.min.GetOr(DefaultMin), p.tickCount);
        seq(|nums|, i requires 0 <= i < |nums| => Num(nums[i]))
  }

  /** The stroke length: the chart's height for a bottom axis, its width otherwise. */
  function StrokeLength(p: AxisProps, width: real, height: real): real {
    if IsBottom(p) then height else width
  }

  /** The distance between ticks, which the tick count times over spans the
      axis (its width at the bottom, its height on the left); `None` exactly
      when that is a division by zero. */
  function Interval(p: AxisProps, width: real, height: real): (r: Option<real>)
    ensures r.None? <==> TotalTicks(p) == 0
    ensures r.Some? ==> r.value * TotalTicks(p) as real == if IsBottom(p) then width else height
  {
    var total := TotalTicks(p);
    if total == 0 then None
    else
      var span := if IsBottom(p) then width else height;
      DivMulCancel(span, total);
      Some(span / total as real)
  }

  function AxisTransform(p: AxisProps, height: real): Transform {
    if IsBottom(p) then TranslateY(height) else NoTransform
  }

  /** The caller's `animation` overrides the tick's default one: `false`
      flattens it, a function is applied to the tick index, anything else
      keeps the default. */
  function ChooseAnimation(animation: AnimationProp, default: TickAnimation, i: nat): TickAnimation {
    match animation
    case AnimationOff => Flat
    case AnimationFunction(f) => Custom(f(i))
    case AnimationOther => default
  }

  /** Where tick `i` is moved to: right by `interval * i` on a bottom axis,
      down by `height - interval * i` on any other. The coordinate across
      the axis is always 0; the one along it is a number exactly when the
      interval is. */
  function TickOffset(kind: string, height: real, interval: Option<real>, i: nat): (r: Translation)
    ensures kind == "bottom" ==> r.dy == Some(0.0) && (r.dx.Some? <==> interval.Some?)
    ensures kind != "bottom" ==> r.dx == Some(0.0) && (r.dy.Some? <==> interval.Some?)
  {
    var along := if interval.Some? then Some(interval.value * i as real) else None;
    if kind == "bottom" then Translation(along, Some(0.0))
    else Translation(Some(0.0), if along.Some? then Some(height - along.value) else None)
  }

  /** Tick `i` of an axis of the given kind; any kind but "bottom" is drawn
      as a left axis. */
  function RenderTick(height: real, interval: Option<real>, labels: seq<Label>, length: real,
                      kind: string, animation: AnimationProp, i: nat): Tick
    requires i < |labels|
  {
    var offset := TickOffset(kind, height, interval, i);
    var base :=
      if kind == "bottom" then
        Tick(labels[i], length, offset, Point(0.0, -length), 0.5, 9.0, 0.71,
             Staggered(0.3 + i as real / 20.0))
      else
        Tick(labels[i], length, offset, Point(length, 0.0), -9.0, 0.5, 0.32,
             Staggered(i as real / 10.0));
    base.(animation := ChooseAnimation(animation, base.animation, i))
  }

  /** The whole axis over a `width` by `height` drawing area. */
  function RenderAxis(p: AxisProps, width: real, height: real): (v: AxisView)
    requires WellFormed(p)
    ensures TotalTicks(p) >= -1
    ensures |v.ticks| == TotalTicks(p) + 1
    ensures forall i :: 0 <= i < |v.ticks| ==> v.ticks[i].caption == Labels(p)[i]
  {
    var labels := Labels(p);
    var interval := Interval(p, width, height);
    var length := StrokeLength(p, width, height);
    var kind := p.kind.GetOr(DefaultKind);
    var count := TotalTicks(p) + 1;
    AxisView(
      AxisTransform(p, height),
      seq(count, i requires 0 <= i < count =>
        RenderTick(height, interval, labels, length, kind, p.animation, i)))
  }


  // ---------------------------------------------------------------------------
  // Properties of the labels

  lemma MulDivCancel(n: real, d: real)
    requires n != 0.0
    ensures n * d / n == d
  {
  }

  /** Consecutive computed labels are `(max - min) / tickCount` apart. */
  lemma {:induction false} LabelsEvenlySpaced(max: real, min: real, tickCount: nat, i: nat)
    requires tickCount > 0 && i < tickCount
    ensures CalcLabels(max, min, tickCount)[i + 1] - CalcLabels(max, min, tickCount)[i]
            == (max - min) / tickCount as real
  {
    var n, d, k := tickCount as real, max - min, i as real;
    assert (i + 1) as real == k + 1.0;
    assert (k + 1.0) * d == k * d + d;
    assert (k * d + d) / n == k * d / n + d / n;
  }

  /** With `min <= max` the computed labels never decrease, and with
      `min < max` they strictly increase. */
  lemma {:induction false} LabelsOrdered(max: real, min: real, tickCount: nat, i: nat, j: nat)
    requires tickCount > 0 && min <= max && i <= j <= tickCount
    ensures CalcLabels(max, min, tickCount)[i] <= CalcLabels(max, min, tickCount)[j]
    ensures min < max && i < j ==> CalcLabels(max, min, tickCount)[i] < CalcLabels(max, min, tickCount)[j]
  {
    if i < j {
      LabelsOrdered(max, min, tickCount, i, j - 1);
      LabelsEvenlySpaced(max, min, tickCount, j - 1);
      assert (max - min) / tickCount as real >= 0.0;
      assert min < max ==> (max - min) / tickCount as real > 0.0;
    }
  }

  /** With `text` supplied the axis draws one tick per text entry and shows
      the entries verbatim, whatever `tickCount` says. */
  lemma TicksFromText(p: AxisProps, width: real, height: real)
    requires p.text.Some?
    ensures TotalTicks(p) == |p.text.value| - 1
    ensures |RenderAxis(p, width, height).ticks| == |p.text.value|
    ensures forall i :: 0 <= i < |p.text.value| ==>
              RenderAxis(p, width, height).ticks[i].caption == Text(p.text.value[i])
  {
  }

  /** Without `text` the axis draws `tickCount + 1` ticks whose labels run
      evenly from `min` (0 when absent) to `max`. */
  lemma TicksFromRange(p: AxisProps, width: real, height: real)
    requires p.text.None? && p.tickCount > 0
    ensures TotalTicks(p) == p.tickCount
    ensures var ticks := RenderAxis(p, width, height).ticks;
            |ticks| == p.tickCount + 1 &&
            (forall i :: 0 <= i < |ticks| ==> ticks[i].caption.Num?) &&
            ticks[0].caption.v == p.min.GetOr(0.0) &&
            ticks[p.tickCount].caption.v == p.max &&
            forall i :: 0 <= i < p.tickCount ==>
              ticks[i + 1].caption.v - ticks[i].caption.v == (p.max - p.min.GetOr(0.0)) / p.tickCount as real
  {
    var ticks := RenderAxis(p, width, height).ticks;
    var r := CalcLabels(p.max, p.min.GetOr(DefaultMin), p.tickCount);
    assert forall i :: 0 <= i < |ticks| ==> ticks[i].caption == Num(r[i]);
    forall i | 0 <= i < p.tickCount
      ensures ticks[i + 1].caption.v - ticks[i].caption.v == (p.max - p.min.GetOr(0.0)) / p.tickCount as real
    {
      LabelsEvenlySpaced(p.max, p.min.GetOr(DefaultMin), p.tickCount, i);
    }
  }

  // ---------------------------------------------------------------------------
  // Properties of the tick geometry

  /** Tick `i` of a drawn axis is `RenderTick` applied to `i`. */
  lemma TickAt(p: AxisProps, width: real, height: real, i: nat)
    requires WellFormed(p) && i <= TotalTicks(p)
    ensures RenderAxis(p, width, height).ticks[i] ==
            RenderTick(height, Interval(p, width, height), Labels(p), StrokeLength(p, width, height),
                       p.kind.GetOr(DefaultKind), p.animation, i)
  {
  }

  /** Bottom tick `i` is moved right by `(width / totalTicks) * i` and not
      moved vertically, so the ticks run from 0 to `width`. */
  lemma BottomTickOffsets(p: AxisProps, width: real, height: real, i: nat)
    requires WellFormed(p) && IsBottom(p) && 0 < TotalTicks(p) && i <= TotalTicks(p)
    ensures var o := RenderAxis(p, width, height).ticks[i].offset;
            o.dx.Some? && o.dx.value == (width / TotalTicks(p) as real) * i as real &&
            o.dy.Some? && o.dy.value == 0.0
    ensures i == 0 ==> RenderAxis(p, width, height).ticks[i].offset.dx.value == 0.0
    ensures i == TotalTicks(p) ==> RenderAxis(p, width, height).ticks[i].offset.dx.value == width
  {
    TickAt(p, width, height, i);
    DivMulCancel(width, TotalTicks(p));
  }

  /** Left tick `i` is moved down by `height - (height / totalTicks) * i` and
      not moved horizontally, so the ticks run from `height` up to 0. */
  lemma LeftTickOffsets(p: AxisProps, width: real, height: real, i: nat)
    requires WellFormed(p) && !IsBottom(p) && 0 < TotalTicks(p) && i <= TotalTicks(p)
    ensures var o := RenderAxis(p, width, height).ticks[i].offset;
            o.dx.Some? && o.dx.value == 0.0 &&
            o.dy.Some? && o.dy.value == height - (height / TotalTicks(p) as real) * i as real
    ensures i == 0 ==> RenderAxis(p, width, height).ticks[i].offset.dy.value == height
    ensures i == TotalTicks(p) ==> RenderAxis(p, width, height).ticks[i].offset.dy.value == 0.0
  {
    TickAt(p, width, height, i);
    DivMulCancel(height, TotalTicks(p));
  }

  /** On a bottom axis of non-negative width, later ticks lie further right. */
  lemma BottomTicksLeftToRight(p: AxisProps, width: real, height: real, i: nat, j: nat)
    requires WellFormed(p) && IsBottom(p) && 0 < TotalTicks(p) && i <= j <= TotalTicks(p)
    requires width >= 0.0
    ensures RenderAxis(p, width, height).ticks[i].offset.dx.value <=
            RenderAxis(p, width, height).ticks[j].offset.dx.value
  {
    var v := RenderAxis(p, width, height);
    BottomTickOffsets(p, width, height, i);
    BottomTickOffsets(p, width, height, j);
    ScaledOrdered(v.ticks[i].offset.dx.value, v.ticks[j].offset.dx.value,
                  width, TotalTicks(p) as real, i as real, j as real);
  }

  /** On a left axis of non-negative height, later ticks lie higher up. */
  lemma LeftTicksBottomToTop(p: AxisProps, width: real, height: real, i: nat, j: nat)
    requires WellFormed(p) && !IsBottom(p) && 0 < TotalTicks(p) && i <= j <= TotalTicks(p)
    requires height >= 0.0
    ensures RenderAxis(p, width, height).ticks[i].offset.dy.value >=
            RenderAxis(p, width, height).ticks[j].offset.dy.value
  {
    var v := RenderAxis(p, width, height);
    LeftTickOffsets(p, width, height, i);
    LeftTickOffsets(p, width, height, j);
    ScaledDescending(v.ticks[i].offset.dy.value, v.ticks[j].offset.dy.value,
                     height, TotalTicks(p) as real, i as real, j as real);
  }

  /** `(len / t) * a` grows with `a` when `len` is not negative. */
  lemma ScaledOrdered(u: real, w: real, len: real, t: real, a: real, b: real)
    requires t > 0.0 && len >= 0.0 && a <= b
    requires u == (len / t) * a && w == (len / t) * b
    ensures u <= w
  {
    var c := len / t;
    assert c >= 0.0;
    assert c * b - c * a == c * (b - a);
  }

  /** `len - (len / t) * a` shrinks as `a` grows when `len` is not negative. */
  lemma ScaledDescending(u: real, w: real, len: real, t: real, a: real, b: real)
    requires t > 0.0 && len >= 0.0 && a <= b
    requires u == len - (len / t) * a && w == len - (len / t) * b
    ensures u >= w
  {
    ScaledOrdered(len - u, len - w, len, t, a, b);
  }

  lemma DivMulCancel(a: real, t: int)
    requires t != 0
    ensures (a / t as real) * t as real == a
  {
  }

  /** A single text label leaves nothing to divide: the interval is a division
      by zero, so the one tick drawn is moved by a non-number along the axis
      (`translate(NaN, 0)` at the bottom, `translate(0, NaN)` on the left)
      and by 0 across it. */
  lemma SingleTextLabel(p: AxisProps, width: real, height: real)
    requires p.text.Some? && |p.text.value| == 1
    ensures Interval(p, width, height).None?
    ensures |RenderAxis(p, width, height).ticks| == 1
    ensures var o := RenderAxis(p, width, height).ticks[0].offset;
            if IsBottom(p) then o.dx.None? && o.dy == Some(0.0)
            else o.dx == Some(0.0) && o.dy.None?
  {
    TickAt(p, width, height, 0);
  }

  /** An empty `text` array is still truthy: the axis then has
      `totalTicks = -1` and draws no tick at all. */
  lemma EmptyText(p: AxisProps, width: real, height: real)
    requires p.text == Some([])
    ensures TotalTicks(p) == -1
    ensures RenderAxis(p, width, height).ticks == []
  {
  }

  /** A `tickCount` of -1 without `text` asks for no label: the axis then
      draws no tick at all, as an empty `text` does. */
  lemma NoTicks(p: AxisProps, width: real, height: real)
    requires p.text.None? && p.tickCount == -1
    ensures WellFormed(p) && TotalTicks(p) == -1
    ensures Labels(p) == []
    ensures RenderAxis(p, width, height).ticks == []
  {
  }

  /** The bottom axis: strokes as long as the chart is high pointing up,
      label anchor `(0.5, 9)` with `dy = 0.71`, the group moved down by the
      chart's height. Every other kind: strokes as long as the chart is wide
      pointing right, anchor `(-9, 0.5)` with `dy = 0.32`, no transform. */
  lemma TickGeometry(p: AxisProps, width: real, height: real, i: nat)
    requires WellFormed(p) && i <= TotalTicks(p)
    ensures var v := RenderAxis(p, width, height);
            var t := v.ticks[i];
            if IsBottom(p) then
              t.length == height && t.strokeEnd == Point(0.0, -height) &&
              t.x == 0.5 && t.y == 9.0 && t.dy == 0.71 && v.transform == TranslateY(height)
            else
              t.length == width && t.strokeEnd == Point(width, 0.0) &&
              t.x == -9.0 && t.y == 0.5 && t.dy == 0.32 && v.transform == NoTransform
  {
    TickAt(p, width, height, i);
  }

  /** The animation of tick `i`: flat when `animation` is `false`, the
      function's value at `i` when it is a function, and otherwise the
      default staggered delay, `0.3 + i/20` seconds at the bottom and `i/10`
      seconds on the left. */
  lemma AnimationRule(p: AxisProps, width: real, height: real, i: nat)
    requires WellFormed(p) && i <= TotalTicks(p)
    ensures var a := RenderAxis(p, width, height).ticks[i].animation;
            match p.animation
            case AnimationOff => a == Flat
            case AnimationFunction(f) => a == Custom(f(i))
            case AnimationOther =>
              a == Staggered(if IsBottom(p) then 0.3 + i as real / 20.0 else i as real / 10.0)
  {
    TickAt(p, width, height, i);
  }
}
