# Chart arithmetic of the axis and line-chart components

This project models, in Dafny, the arithmetic at the heart of two charting
components: the **axis**, which divides a drawing area into ticks and gives
each tick a label, a position, a stroke and an animation; and the **line
chart**, which pools the values of all its series into an x range and a y
range, decides per render which stroke each series gets, whether a legend is
shown and how wide the chart is, which domain each axis receives, and keeps
the computed ranges cached between updates.

Numbers are `real`, so laws such as "the last label is `max`" hold exactly.
JavaScript's `undefined` and the non-finite results of a division by zero are
`None`. Truthiness is modelled as the source relies on it: an array (even an
empty one) is truthy, a number is truthy when present and non-zero.

Files:

- `wrappers.dfy`: module `Wrappers`, the `Option` type.
- `axis.dfy`: module `Axis`, the axis component as pure functions
  (`CalcLabels`, `TotalTicks`, `Labels`, `Interval`, `TickOffset`,
  `RenderTick`, `RenderAxis`) and lemmas about them.
- `line_chart.dfy`: module `LineChart`: `Flatten`, `Extent`, `GetRange`, the
  render-time choices (`StrokeFor`, `LegendWidth`, `InnerSize`, `AxisDomain`,
  `RenderChart`) with their lemmas, and the class `LineChart`, whose
  constructor `Mount` is construction plus `componentWillMount`; a property
  change is `ReceiveProps` (new properties, state untouched), a render
  (`View`) and then `DidUpdate` (`componentDidUpdate`), which `Update` runs
  in that order.
  The `lines` array is an object (`LinesArray`) so that the source's
  reference comparison is a reference comparison here too.

Behaviour worth knowing, all as the source has it:

- With `text` given, the tick count is `text.length - 1` whatever
  `tickCount` says; a single text entry makes the interval a division by
  zero, so its one tick is moved by a non-number along the axis
  (`SingleTextLabel`); an empty `text` array draws no tick (`EmptyText`),
  and neither does a `tickCount` of -1 without `text` (`NoTicks`).
- Any axis `type` other than `"bottom"` is drawn as a left axis.
- An axis keeps its `grid` entry only when it has `text` or both `min` and
  `max` are non-zero: a `min` of 0 counts as not supplied (`DomainChoice`).
- A configured `tickCount` of 0 is replaced by 5 (`RangeTickCount`).
- New properties are rendered before `componentDidUpdate` runs, so a new
  `lines` array is first drawn with the ranges of the previous one
  (`StaleRender`).
- The cached ranges are recomputed only when `lines` is a different array;
  a changed `grid` alone leaves the cached tick counts as they were, and the
  inner size computed at mount is never recomputed (`LineChart.DidUpdate`).
- With an empty palette each stroke is undefined (`StrokeFor` gives `None`).

## Model

| member | source | states |
|---|---|---|
| `Axis.CalcLabels` | packages/charts-react-axis/src/Axis.js:5-8 | exactly `tickCount + 1` labels, the first is `min` and the last is `max` |
| `Axis.LabelsEvenlySpaced` | packages/charts-react-axis/src/Axis.js:6-7 | consecutive labels differ by `(max - min) / tickCount` |
| `Axis.LabelsOrdered` | packages/charts-react-axis/src/Axis.js:6-7 | with `min <= max` labels never decrease in the index; with `min < max` they strictly increase |
| `Axis.Labels` | packages/charts-react-axis/src/Axis.js:60-68 | the label source has exactly `totalTicks + 1` entries, so every rendered tick index is within bounds |
| `Axis.Interval` | packages/charts-react-axis/src/Axis.js:63-65 | `Interval`: the interval is undefined exactly when `totalTicks` is 0; otherwise `totalTicks` intervals span the axis, its width at the bottom and its height on the left |
| `Axis.TickOffset` | packages/charts-react-axis/src/Axis.js:13-23 | `TickOffset`: the coordinate across the axis is 0 and the one along it is a number exactly when the interval is |
| `Axis.RenderAxis` | packages/charts-react-axis/src/Axis.js:73-83 | `totalTicks + 1` ticks are drawn and tick `i` shows label `i` |
| `Axis.TicksFromText` | packages/charts-react-axis/src/Axis.js:60-68 | `TotalTicks` and `Labels` with `text`: `totalTicks = text.length - 1` and the ticks show `text` verbatim |
| `Axis.TicksFromRange` | packages/charts-react-axis/src/Axis.js:60-68 | without `text`, `tickCount + 1` numeric labels running evenly from `min` (0 when absent) to `max` |
| `Axis.BottomTickOffsets` | packages/charts-react-axis/src/Axis.js:11-15 | bottom tick `i` is translated by `(width / totalTicks) * i` horizontally and 0 vertically: first at 0, last at `width` |
| `Axis.LeftTickOffsets` | packages/charts-react-axis/src/Axis.js:21-23 | left tick `i` is translated by `height - (height / totalTicks) * i` vertically and 0 horizontally: first at `height`, last at 0 |
| `Axis.BottomTicksLeftToRight` | packages/charts-react-axis/src/Axis.js:15 | for non-negative width, bottom ticks run left to right |
| `Axis.LeftTicksBottomToTop` | packages/charts-react-axis/src/Axis.js:23 | for non-negative height, left ticks run upward |
| `Axis.SingleTextLabel` | packages/charts-react-axis/src/Axis.js:60-65 | a one-entry `text` divides by zero: one tick, moved by a non-number along the axis (`translate(NaN, 0)` at the bottom, `translate(0, NaN)` on the left) and by 0 across it |
| `Axis.EmptyText` | packages/charts-react-axis/src/Axis.js:60-62 | `TotalTicks` of an empty `text` array, which is truthy: -1, and no tick is drawn |
| `Axis.NoTicks` | packages/charts-react-axis/src/Axis.js:5-8 | a `tickCount` of -1 without `text` gives no label and no tick |
| `Axis.TickGeometry` | packages/charts-react-axis/src/Axis.js:11-28 | `RenderTick`, `StrokeLength` and `AxisTransform`: stroke length, stroke direction, label anchor and group transform for bottom versus every other kind |
| `Axis.AnimationRule` | packages/charts-react-axis/src/Axis.js:30-34 | `ChooseAnimation` within `RenderTick`: `false` gives the flat animation, a function `f` gives `f(i)`, anything else the default delay `0.3 + i/20` (bottom) or `i/10` (left) |
| `LineChart.FlattenIsInOrder` | packages/charts-react-line/src/LineChart.js:106-110 | `Flatten`, the reduce-based flattening, yields the leaves in left-to-right order |
| `LineChart.FlattenCount` | packages/charts-react-line/src/LineChart.js:106-110 | flattening keeps exactly the leaves: as many numbers as leaves |
| `LineChart.FlattenAppend` | packages/charts-react-line/src/LineChart.js:106-110 | flattening a concatenation concatenates the flattenings |
| `LineChart.FlattenFlat` | packages/charts-react-line/src/LineChart.js:106-110 | an already flat list comes back unchanged |
| `LineChart.FlattenIdempotent` | packages/charts-react-line/src/LineChart.js:106-110 | flattening twice is flattening once |
| `LineChart.FlattenFieldArrays` | packages/charts-react-line/src/LineChart.js:100-110 | flattening the per-series field arrays pools that field of every record, series after series |
| `LineChart.PoolMembers` | packages/charts-react-line/src/LineChart.js:100-105 | a value is pooled if and only if some record carries it in that field |
| `LineChart.PoolEmpty` | packages/charts-react-line/src/LineChart.js:100-105 | nothing is pooled if and only if every series is empty |
| `LineChart.Extent` | packages/charts-react-line/src/LineChart.js:112-113 | undefined exactly for no values; otherwise both bounds are values and every value lies between them |
| `LineChart.GetRange` | packages/charts-react-line/src/LineChart.js:99-130 | one range for x and one for y |
| `LineChart.RangeExtent` | packages/charts-react-line/src/LineChart.js:112-117 | an axis' range is undefined iff all series are empty, else its min and max are attained by records and bound every record's field |
| `LineChart.RangeTickCount` | packages/charts-react-line/src/LineChart.js:118-127 | `TickCountFor`: the tick count is the configured one when non-zero, and 5 when missing or 0 |
| `LineChart.RangeExample` | packages/charts-react-line/src/LineChart.js:99-117 | series `[(1,5),(3,2)]` and `[(0,9)]` give x from 0 to 3 and y from 2 to 9 |
| `LineChart.RangeOfNothing` | packages/charts-react-line/src/LineChart.js:112-117 | no series gives undefined ranges, not a failure |
| `LineChart.StrokesCycle` | packages/charts-react-line/src/LineChart.js:142 | `StrokeFor`: each stroke is a palette colour, the assignment repeats with period `strokes.length`, and the first series take the palette in order |
| `LineChart.StrokesCoverPalette` | packages/charts-react-line/src/LineChart.js:137-143 | with at least as many series as colours every colour is used |
| `LineChart.LegendWidthRule` | packages/charts-react-line/src/LineChart.js:135-136 | `LegendWidth`: the legend's width is `legend.width`, or 200 when falsy, and 0 when hidden |
| `LineChart.DomainChoice` | packages/charts-react-line/src/LineChart.js:159-168 | `AxisDomain` and `UsesExplicit`: an axis gets its `grid` entry iff `text` is given or `min` and `max` are both non-zero, else the computed range; `min = 0` without `text` gives the computed range |
| `LineChart.InnerSize` | packages/charts-react-line/src/LineChart.js:74-75 | the drawing area with the margins added back is the outer size |
| `LineChart.DefaultLayout` | packages/charts-react-line/src/LineChart.js:44-58 | the default size and margins give an 890 by 450 drawing area; the default legend takes no width |
| `LineChart.RenderChart` | packages/charts-react-line/src/LineChart.js:137-144 | one drawn line per series |
| `LineChart.RenderLayout` | packages/charts-react-line/src/LineChart.js:134-168 | line `k` draws series `k` with stroke `k mod |strokes|`; the chart is `width - legendWidth` wide, narrower iff the legend has labels; the axes get `DomainChoice`'s domains |
| `LineChart.LineChart.Mount` | packages/charts-react-line/src/LineChart.js:61-91 | the inner size is width and height minus margins, the scales' pixel ranges are `[0, width]` and `[height, 0]`, and the ranges are computed from the lines |
| `LineChart.LineChart.ReceiveProps` | packages/charts-react-line/src/LineChart.js:93 | new properties replace the old, which are handed on as `prevProps`; the cached ranges, the inner size and the pixel ranges are kept |
| `LineChart.LineChart.DidUpdate` | packages/charts-react-line/src/LineChart.js:93-97 | ranges are recomputed iff the `lines` reference changed, else kept; if they described the previous series they describe the current ones afterwards |
| `LineChart.LineChart.Update` | packages/charts-react-line/src/LineChart.js:93-97 | a property change renders the new properties with the previously cached ranges, then brings the ranges up to date as `DidUpdate` does |
| `LineChart.LineChart.View` | packages/charts-react-line/src/LineChart.js:132-168 | one line per current series, in order; an axis given the computed range gets the cached `state.ranges` entry, which is the extent of the current series' field when the cache is up to date |
| `LineChart.StaleRender` | packages/charts-react-line/src/LineChart.js:159-163 | after `lines` changes from `[(0,0),(1,1)]` to `[(5,5),(9,9)]`, the new line is first drawn on the x range 0..1, and on 5..9 only after `componentDidUpdate` |

## Left out

- JSX markup, PropTypes, the `Tick`, `Line`, `Legend` and `Chart` components, and the delivery of `chart` through the framework's context: the chart's width and height are parameters.
- The scales and the path generator (`scaleX()`, `scaleY()`, `domainX`, `domainY`, `shape.line()`, the `x`/`y` accessors): they come from external libraries; only the pixel ranges the scales are rounded to are kept.
- The text of `translate(...)`, SVG path commands, CSS animation strings and `labels[i].toString()`: they are numbers, points and a small datatype here.
- IEEE-754 rounding: reals are exact, so endpoint equalities such as "last label = `max`" hold exactly only in the model. NaN and infinities appear only as `None` where the source divides by zero.
- The library `extent` also skips `null` and NaN values; records here are ordered pairs of numbers, so there are none, and the key order that decides the "first" field is the pair's order.
- A `tickCount` of 0 or below -1 without `text` (`WellFormed`): 0 makes every label a division by zero (NaN) and below -1 `Array` throws a range error; the model requires a positive count or -1 (which draws an empty axis, `NoTicks`). A missing `max` (NaN labels) and a non-integer `tickCount` are not modelled either.
- A missing `grid`, or one with fewer than two entries: it has no default, so the source throws a type error in `componentWillMount` (and in `render`); the members that read `grid` require two entries.
- A `legend` passed without `labels`: the default legend is not merged into a passed one, so `render` throws a type error reading `labels.length`; `Legend.labels` is always a sequence here.
- The custom animation function's result is modelled as a string.
- `text` given as something other than an array.
- The default palette (`palettes.qualitative`) comes from an external package; `strokes` is always passed in.
- Mutating a `lines` array in place: `LinesArray` is immutable, so the staleness that in-place mutation would cause under reference comparison is not modelled.
- `setState` is asynchronous in the framework; the model applies it at once.
