# Horizontal bar chart layout core of williamchart, in Dafny

This project models the layout core of williamchart's horizontal bar chart:
the renderer `HorizontalBarChartRenderer` and the pure geometry and label
rules of the two bar views, `BarChartView` and `HorizontalBarChartView`.
Kotlin `Float` is `real`; rounding, NaN and Infinity are not modelled.

- `ChartData` mirrors the value types: `Frame`, `Paddings`, `Scale`, `Label`, `DataPoint`,
  `Bar`, `RectF`, `AxisType` and the `BarChartConfiguration` record, in its
  declaration order. `label` is a Dafny keyword, so the Kotlin fields called `label` are
  named `text` (in `Label`), `labelText` (in `DataPoint`) and `barLabel` (in `Bar`).
- `HorizontalBarLayout` holds the renderer's placement rules:
  - value-axis ticks placed evenly across the inner frame's width;
  - categories spaced evenly down its height, with half a slot kept free at each end;
  - the value-to-x mapping, floored at zero;
  - one bar rectangle per placed point.
- `HorizontalBarChartRenderer` is the renderer as a state machine over an immutable record.
  - `PreDraw` returns one of three outcomes: skip (returns true), proceed (returns false and
    starts the animation), or a thrown exception.
  - `Draw` returns the ordered list of view calls. When a `lateinit` field is still unset
    it also returns the exception that cuts the call short.
  - `Render`, `Anim` and `ShowToolTip` are the remaining step functions.
  - The `by lazy` lists `xLabels` and `yLabels` are `Option` fields. Each is filled on first
    read and never rebuilt. Layout later overwrites the labels' positions in place.
- `RendererProperties` states the properties that span several operations:
  - the bars and labels a layout produces;
  - the order of drawing calls;
  - that the label lists persist, so category labels go stale after `render`;
  - the state invariant;
  - idempotence of `preDraw`;
  - that the horizontal view draws exactly the renderer's rectangles.
- `BarChartView`, `HorizontalBarChartView` and `LabelFormatting` model:
  - the views' rectangle geometry, label and tooltip drawing, and configuration getters;
  - `getFormattedLabel`, with Kotlin's saturating `Float.toInt()` and `Int.toString()`
    defined concretely and a decimal reader to check them against.

Collaborators whose code is not part of this model are parameters, gathered in
`HorizontalBarChartRenderer.Collaborators`:
- the Painter text measurements;
- `MeasureHorizontalBarChartPaddings`, `withPaddings` and `toOuterFrame`;
- `toLabels`, `toDataPoints` and `Scale.notInitialized`;
- `Float.toString` and the view's `getFormattedLabel`;
- the `RendererConstants` values.

`AxisType` (data/AxisType.kt) is not part of this model. Its `shouldDisplayAxisX` is assumed true for
`X` and `XY`, and its `shouldDisplayAxisY` true for `Y` and `XY`. The draw order and label placement
depend on these two predicates.

`limits().second` is taken to be the largest value, and `Scale.size` to be `max - min`.
The renderer's divisions by zero are preconditions:
- `scale.max != scale.min`;
- at least two category labels whenever a layout reaches placement.

An inverted scale (`scale.min > scale.max`) divides by a non-zero size, so it is laid out.
An uninitialised scale over data whose values are all negative resolves to one, from 0 down to the
largest value. Every value then maps onto the inner frame's left edge (`NonPositiveAutoScaleExample`). A caller-set inverted scale maps values
above its minimum left of that edge (`ValueToXInvertedScale`).

`CanLayOut` states both preconditions.

Three behaviours of the code that a reader might not expect, all kept by the model:
- `showToolTip` is empty. It selects no bar, and `touchedBar` is never assigned.
- The category and value-axis label lists are cached rather than recomputed.
  - After `render` with new data, the next layout keeps the old category texts.
  - It also spreads the new points over the old number of slots (`RenderKeepsStaleCategories`).
- The renderer passes its `Bar` list to the view's `drawBars`, not data points.

## Model

| member | source | states |
|---|---|---|
| `HorizontalBarChartRenderer.PreDraw` | williamchart/src/main/java/com/db/williamchart/renderer/HorizontalBarChartRenderer.kt:52-104 | returns true exactly when there is no data, and then changes nothing; throws IllegalArgumentException exactly when data exists but there are no category labels; otherwise lays out one bar per point, keeps values, sets frames and both label lists, stores the resolved configuration; never touches the animation or the touched bar |
| `HorizontalBarChartRenderer.ResolveScale` | williamchart/src/main/java/com/db/williamchart/renderer/HorizontalBarChartRenderer.kt:58-65 | an uninitialised scale becomes 0 to the largest data value (an upper bound that some point attains); an initialised one is kept; no other configuration field changes |
| `HorizontalBarChartRenderer.ForceXLabels` | williamchart/src/main/java/com/db/williamchart/renderer/HorizontalBarChartRenderer.kt:35-46 | the first read builds the value-axis labels from the current configuration and caches them; later reads return the cache and change nothing |
| `HorizontalBarChartRenderer.ForceYLabels` | williamchart/src/main/java/com/db/williamchart/renderer/HorizontalBarChartRenderer.kt:48-50 | the first read builds the category labels from the current data; later reads return the cached list |
| `HorizontalBarChartRenderer.LayOut` | williamchart/src/main/java/com/db/williamchart/renderer/HorizontalBarChartRenderer.kt:76-100 | the frames come from the configuration and the measured labels; points are placed against the cached category count; bars are derived from the placed points; the animation starts from the inner bottom with the placed points; the label texts are kept; a shown X axis puts tick i at TickX (inner left plus i·width/steps) on the baseline inner bottom − ascent + labelsPaddingToInnerChart; a shown Y axis puts category label i at outer left plus half its measured width and at its category's y plus the descent; a hidden axis leaves its list unchanged |
| `HorizontalBarChartRenderer.LabelWidths` | williamchart/src/main/java/com/db/williamchart/renderer/HorizontalBarChartRenderer.kt:67-73 | one measured width per category label, in order |
| `HorizontalBarChartRenderer.Draw` | williamchart/src/main/java/com/db/williamchart/renderer/HorizontalBarChartRenderer.kt:106-134 | no data: no calls; no configuration yet: fails as uninitialised before any call; never changes data, bars, frames or configuration, and keeps filled label lists |
| `HorizontalBarChartRenderer.Render` | williamchart/src/main/java/com/db/williamchart/renderer/HorizontalBarChartRenderer.kt:136-139 | only the data is replaced; exactly one invalidate is requested |
| `HorizontalBarChartRenderer.Anim` | williamchart/src/main/java/com/db/williamchart/renderer/HorizontalBarChartRenderer.kt:141-145 | only the data and the animation are replaced; exactly one invalidate is requested |
| `HorizontalBarChartRenderer.ShowToolTip` | williamchart/src/main/java/com/db/williamchart/renderer/HorizontalBarChartRenderer.kt:147-149 | changes no state and draws nothing |
| `HorizontalBarLayout.BuildXLabels` | williamchart/src/main/java/com/db/williamchart/renderer/HorizontalBarChartRenderer.kt:36-45 | exactly steps + 1 labels at the origin; label i carries the view-formatted text of the scale value of tick i |
| `HorizontalBarLayout.TickValuesSpanScale` | williamchart/src/main/java/com/db/williamchart/renderer/HorizontalBarChartRenderer.kt:36-39 | the first tick is the scale minimum, the last the scale maximum, and neighbouring ticks differ by size / steps |
| `HorizontalBarLayout.PlaceLabelsX` | williamchart/src/main/java/com/db/williamchart/renderer/HorizontalBarChartRenderer.kt:151-164 | texts unchanged; label i moves to tick i's x, and all labels share one baseline |
| `HorizontalBarLayout.TicksSpanInnerWidth` | williamchart/src/main/java/com/db/williamchart/renderer/HorizontalBarChartRenderer.kt:153-161 | tick 0 is on the inner left edge, tick steps on the inner right edge, with equal gaps of innerWidth / steps |
| `HorizontalBarLayout.CategorySpacingIsSlot` | williamchart/src/main/java/com/db/williamchart/renderer/HorizontalBarChartRenderer.kt:168-171 | the distance between neighbouring categories equals one slot, innerHeight / count |
| `HorizontalBarLayout.CategoriesSpanInnerHeight` | williamchart/src/main/java/com/db/williamchart/renderer/HorizontalBarChartRenderer.kt:188-203 | category 0 sits half a slot above the inner bottom and category count-1 half a slot below the inner top; the y strictly decreases with the index when the frame has height |
| `HorizontalBarLayout.PlaceLabelsY` | williamchart/src/main/java/com/db/williamchart/renderer/HorizontalBarChartRenderer.kt:166-182 | texts unchanged; each label is centred on the outer left margin by its width, at its category's y plus the descent |
| `HorizontalBarLayout.ValueToXClamp` | williamchart/src/main/java/com/db/williamchart/renderer/HorizontalBarChartRenderer.kt:194-200 | no value maps left of the inner frame; values at or below the minimum map onto its left edge; the maximum maps onto its right edge; larger values map past it, since there is no upper clamp; the mapping is monotone |
| `HorizontalBarLayout.ValueToXInvertedScale` | williamchart/src/main/java/com/db/williamchart/renderer/HorizontalBarChartRenderer.kt:194-200 | with an inverted scale no value maps right of the inner frame's left edge; values at or below the minimum map onto it; larger values map left of it |
| `HorizontalBarLayout.PlaceDataPoints` | williamchart/src/main/java/com/db/williamchart/renderer/HorizontalBarChartRenderer.kt:184-205 | one point per point, same label and value, x from the value mapping, y from the category slots of the label count |
| `HorizontalBarLayout.ProcessData` | williamchart/src/main/java/com/db/williamchart/renderer/HorizontalBarChartRenderer.kt:208-227 | one bar per point, in order; each bar copies the point's label and position and carries its formatted value; its rectangle runs from the inner left edge to the point's x and is centred on the point's y; all bars share one thickness, with n bars and n+1 gaps filling the inner height |
| `HorizontalBarLayout.PlacedBarsRunRightwards` | williamchart/src/main/java/com/db/williamchart/renderer/HorizontalBarChartRenderer.kt:196-221 | on an ascending scale with a well-formed inner frame, no placed bar has its right edge left of its left edge, whatever the values |
| `Extensions.MaxValue` | williamchart/src/main/java/com/db/williamchart/renderer/HorizontalBarChartRenderer.kt:63 | `limits().second` is an upper bound of all values that some point attains |
| `Extensions.MaxValueBy` | williamchart/src/main/java/com/db/williamchart/renderer/HorizontalBarChartRenderer.kt:67-74 | null exactly for an empty list; otherwise the largest measured value |
| `RendererProperties.PreDrawPlacesBars` | williamchart/src/main/java/com/db/williamchart/renderer/HorizontalBarChartRenderer.kt:184-227 | after a layout, bar i runs from the inner left edge to the mapped x of point i's value; it is centred on category i's y and carries point i's label and position; in a well-formed frame, bars never run leftwards on an ascending scale and never rightwards on an inverted one |
| `RendererProperties.FirstPreDrawBuildsXLabels` | williamchart/src/main/java/com/db/williamchart/renderer/HorizontalBarChartRenderer.kt:35-46 | the first layout fills the value-axis list with steps + 1 labels; their texts are the formatted ticks of the resolved scale, running from its minimum to its maximum |
| `RendererProperties.PreDrawPlacesXLabels` | williamchart/src/main/java/com/db/williamchart/renderer/HorizontalBarChartRenderer.kt:151-164 | after a layout there are steps + 1 value labels; with the X axis shown, label i sits at TickX (inner left plus i·width/steps), from the inner left to the inner right edge, on the baseline inner bottom − ascent + labelsPaddingToInnerChart; with it hidden, a cached list is left exactly as it was |
| `RendererProperties.PreDrawPlacesYLabels` | williamchart/src/main/java/com/db/williamchart/renderer/HorizontalBarChartRenderer.kt:166-182 | with the Y axis shown, category label i sits at outer left plus half its measured width, at its category's y plus the descent, which is point i's y plus the descent; with it hidden, a cached list is left exactly as it was |
| `RendererProperties.AutoScaleExample` | williamchart/src/main/java/com/db/williamchart/renderer/HorizontalBarChartRenderer.kt:58-65 | the data {A: 5, B: -2, C: 10} with an uninitialised scale resolves to the scale 0 to 10 |
| `RendererProperties.NonPositiveAutoScaleExample` | williamchart/src/main/java/com/db/williamchart/renderer/HorizontalBarChartRenderer.kt:58-65 | the data {A: -5, B: -2} with an uninitialised scale resolves to the inverted scale 0 to -2, and both values map onto the inner left edge |
| `RendererProperties.DrawOrder` | williamchart/src/main/java/com/db/williamchart/renderer/HorizontalBarChartRenderer.kt:106-134 | on a laid-out renderer, draw changes nothing and calls, in order: x labels if the X axis is shown, y labels if the Y axis is shown, the background if its colour is not -1, the bars always, then the debug frame in debug builds |
| `RendererProperties.PreDrawThenDraw` | williamchart/src/main/java/com/db/williamchart/renderer/HorizontalBarChartRenderer.kt:87-119 | after a successful layout every lateinit field and lazy list is set, and the next draw succeeds and draws the bars just built |
| `RendererProperties.PreDrawKeepsLabelLists` | williamchart/src/main/java/com/db/williamchart/renderer/HorizontalBarChartRenderer.kt:35-50 | a label list, once filled, keeps its texts through every layout; a layout that reads the category list holds the texts it had or was built with |
| `RendererProperties.OtherOperationsKeepLabelLists` | williamchart/src/main/java/com/db/williamchart/renderer/HorizontalBarChartRenderer.kt:106-149 | draw keeps filled label lists; render and anim leave both lists exactly as they were; showToolTip changes nothing |
| `RendererProperties.RenderKeepsStaleCategories` | williamchart/src/main/java/com/db/williamchart/renderer/HorizontalBarChartRenderer.kt:184-204 | after render, the next layout keeps the old category texts and spreads the new points over the old number of category slots |
| `RendererProperties.NewIsValid` | williamchart/src/main/java/com/db/williamchart/renderer/HorizontalBarChartRenderer.kt:24-50 | a new renderer has no data, no bars, no touched bar and empty lazy lists |
| `RendererProperties.OperationsKeepValid` | williamchart/src/main/java/com/db/williamchart/renderer/HorizontalBarChartRenderer.kt:24-149 | every operation keeps the touched bar unset and a filled value-axis list at steps + 1 labels; hence a layout never fails on an empty value-axis list |
| `RendererProperties.ResolveScaleReadsOnlyValues` | williamchart/src/main/java/com/db/williamchart/renderer/HorizontalBarChartRenderer.kt:58-65 | the resolved scale depends only on the data values, not on positions |
| `RendererProperties.PlaceLabelsXReadsOnlyTexts` | williamchart/src/main/java/com/db/williamchart/renderer/HorizontalBarChartRenderer.kt:160-163 | placing value-axis labels depends only on their texts |
| `RendererProperties.PlaceLabelsYReadsOnlyTexts` | williamchart/src/main/java/com/db/williamchart/renderer/HorizontalBarChartRenderer.kt:173-181 | placing category labels depends only on their texts |
| `RendererProperties.PlaceDataPointsIdempotent` | williamchart/src/main/java/com/db/williamchart/renderer/HorizontalBarChartRenderer.kt:193-204 | placing already placed points again changes nothing |
| `RendererProperties.LabelWidthsReadOnlyTexts` | williamchart/src/main/java/com/db/williamchart/renderer/HorizontalBarChartRenderer.kt:67-73 | the measured widths depend only on the label texts |
| `RendererProperties.PreDrawIdempotent` | williamchart/src/main/java/com/db/williamchart/renderer/HorizontalBarChartRenderer.kt:52-104 | a second layout with the same configuration reproduces the frames, labels, points and bars of the first and starts the same animation |
| `RendererProperties.ViewBarsMatchRendererBars` | williamchart/src/main/java/com/db/williamchart/view/HorizontalBarChartView.kt:74-90 | with equal spacing, the horizontal view's drawBars rectangles are exactly the renderer's `Bar.rectF` rectangles |
| `BarChartView.ChartConfiguration` | williamchart/src/main/java/com/db/williamchart/view/BarChartView.kt:44-62 | the record carries the view's size, paddings (as floats), axis, labels size, scale, formatter, displayInteger, spacing and background colour unchanged |
| `BarChartView.DrawBars` | williamchart/src/main/java/com/db/williamchart/view/BarChartView.kt:70-88 | one rectangle per point, in order, centred on the point's x, from its y down to the inner bottom; n bars of equal width and n+1 gaps fill the inner width |
| `BarChartView.DrawBarsBackground` | williamchart/src/main/java/com/db/williamchart/view/BarChartView.kt:90-105 | one full-height column per point, in order, centred on the point's x |
| `BarChartView.BackgroundContainsBar` | williamchart/src/main/java/com/db/williamchart/view/BarChartView.kt:75-102 | a column has its bar's left and right edges, and contains the bar exactly when the point is not above the inner top |
| `BarChartView.DrawLabels` | williamchart/src/main/java/com/db/williamchart/view/BarChartView.kt:107-122 | each label's formatted text at exactly the label's position, in order |
| `BarChartView.DrawToolTip` | williamchart/src/main/java/com/db/williamchart/view/BarChartView.kt:131-148 | fills the bar's rectangle, then writes its value at the label's x, 10 above the label's y |
| `LabelFormatting.GetFormattedLabel` | williamchart/src/main/java/com/db/williamchart/view/BarChartView.kt:162-172 | a label that does not parse comes back unchanged; with displayInteger, a numeric label becomes text that reads back as the truncated integer; otherwise the one-decimal text. HorizontalBarChartView.kt:158-168 is the same code |
| `LabelFormatting.FloatToInt` | williamchart/src/main/java/com/db/williamchart/view/BarChartView.kt:166 | `Float.toInt()` rounds toward zero within Int's range and saturates at its bounds |
| `LabelFormatting.NatToStringRoundTrip` | williamchart/src/main/java/com/db/williamchart/view/BarChartView.kt:166 | reading back the printed digits of a natural number gives the number |
| `LabelFormatting.IntToStringRoundTrip` | williamchart/src/main/java/com/db/williamchart/view/HorizontalBarChartView.kt:162 | reading back a printed integer gives the integer |
| `HorizontalBarChartView.ChartConfiguration` | williamchart/src/main/java/com/db/williamchart/view/HorizontalBarChartView.kt:43-60 | the positional arguments put spacing, barsBackgroundColor and displayInteger in those fields, and the size, paddings (as floats), axis, labels size, scale and formatter in theirs |
| `HorizontalBarChartView.ConfigurationMatchesBarChartView` | williamchart/src/main/java/com/db/williamchart/view/HorizontalBarChartView.kt:43-60 | the positional getter builds the same record as the vertical view's named-argument getter |
| `HorizontalBarChartView.DrawBars` | williamchart/src/main/java/com/db/williamchart/view/HorizontalBarChartView.kt:69-91 | one rectangle per point, in order, from the inner left edge to the point's x, centred on its y; n bars of equal height and n+1 gaps fill the inner height |
| `HorizontalBarChartView.DrawBarsBackground` | williamchart/src/main/java/com/db/williamchart/view/HorizontalBarChartView.kt:93-112 | one full-width band per point, in order, centred on the point's y |
| `HorizontalBarChartView.BackgroundContainsBar` | williamchart/src/main/java/com/db/williamchart/view/HorizontalBarChartView.kt:74-106 | a band has its bar's top and bottom edges, and contains the bar exactly when the bar does not reach past the inner right edge |
| `HorizontalBarChartView.DrawLabels` | williamchart/src/main/java/com/db/williamchart/view/HorizontalBarChartView.kt:114-130 | each label's text, unformatted, at exactly its position, in order |
| `HorizontalBarChartView.DrawLabelsAgreeOnNonNumericText` | williamchart/src/main/java/com/db/williamchart/view/HorizontalBarChartView.kt:122-129 | for labels that do not parse as numbers, both views draw the same texts at the same places |
| `HorizontalBarChartView.DrawToolTip` | williamchart/src/main/java/com/db/williamchart/view/HorizontalBarChartView.kt:140-145 | only fills the bar's rectangle |
| `HorizontalBarChartView.ToolTipOmitsValueText` | williamchart/src/main/java/com/db/williamchart/view/HorizontalBarChartView.kt:140-145 | the horizontal tooltip is the vertical one without its value text, and draws no text at all |

## Left out

- Animation: `ChartAnimation.animateFrom` and the animation classes are not part of this model.
  `preDraw` records the call it makes (`AnimateFrom`) but does not interpolate.
- The debug frame: the label frames `DebugWithLabelsFrame` computes are not modelled.
  Its source is not part of this model. `draw` records a `DrawDebugFrame` call and reads both lazy lists, as the real call does.
- The values of `RendererConstants` are not part of this model: the step count, the label
  padding and the debug flag. They are parameters, and the step count is only known to be positive.
- Painter measurements, `MeasureHorizontalBarChartPaddings`, `withPaddings`, `toOuterFrame`,
  `toLabels`, `toDataPoints`, `Scale.notInitialized` and `Float.toString` are uninterpreted
  parameters. Their sources are not part of this model.
- The `configuration as BarChartConfiguration` cast: `PreDraw` takes a `BarChartConfiguration`
  directly, so the cast's ClassCastException is not modelled.
- `removeToolTip`, declared in `ChartContract.kt`, has no implementation in the renderer, so it is not modelled.
  Hit-testing is not modelled either, because `showToolTip` is empty.
- Android plumbing is not modelled: view lifecycle, measurement, touch delivery, `doOnPreDraw`,
  styled-attribute parsing (`handleAttributes`), and paint colours, radius and fonts. The canvas is reduced to
  the rectangles and texts it is asked to draw.
- `PieChartView.kt` and the demo app are outside this core.
- Float semantics are not modelled: NaN and Infinity from the three divisions are excluded by preconditions,
  and rounding is ignored. `toFloatOrNull` and the locale-dependent `String.format("%.1f")` stay
  abstract. `Float.toInt()` and `Int.toString()` are modelled exactly.
- `HorizontalBarChartRenderer.PreDraw`: it requires the divisions it performs to be defined. The requirement is a
  scale whose minimum and maximum differ and at least two category labels when the layout gets that far.
  With one label, or a scale whose size is zero, the source divides by zero and produces NaN or Infinity
  positions, which this model does not represent. Inverted scales are admitted and modelled.
