/**
 * The horizontal bar renderer as a state machine. Its state is the current
 * data, the configuration resolved by the last layout, the outer and inner
 * frames, the bars, the animation, the (never assigned) touched bar and the
 * two lazily built label lists. `PreDraw` lays everything out, `Draw`
 * returns the ordered drawing calls it would make on the view, `Render` and
 * `Anim` install new data. Collaborators whose code is not part of this model
 * are passed in as functions.
 */
module HorizontalBarChartRenderer {
  import opened Wrappers
  import opened ChartData
  import opened Extensions
  import opened HorizontalBarLayout

  /** Everything the renderer calls but does not define. */
  datatype Collaborators = Collaborators(
    painter: Painter,
    getFormattedLabel: string -> string,                          // view.getFormattedLabel
    floatToString: real -> string,                                // Float.toString
    notInitialized: Scale -> bool,                                // Scale.notInitialized
    toLabels: seq<DataPoint> -> seq<Label>,                       // List<DataPoint>.toLabels
    toDataPoints: seq<(string, real)> -> seq<DataPoint>,          // LinkedHashMap.toDataPoints
    measurePaddings: (AxisType, real, real, real, real) -> Paddings, // MeasureHorizontalBarChartPaddings
    toOuterFrame: BarChartConfiguration -> Frame,                 // ChartConfiguration.toOuterFrame
    withPaddings: (Frame, Paddings) -> Frame,                     // Frame.withPaddings
    defaultScaleNumberOfSteps: Steps,
    labelsPaddingToInnerChart: real,
    inDebug: bool
  )

  /** The exceptions the renderer can raise. */
  datatype Failure =
    | IllegalArgument(message: string)   // no category labels to measure
    | NoSuchElement                      // `last()` of an empty list
    | UninitializedProperty(name: string) // a `lateinit` field read before `preDraw` set it

  /** Renderer state; `lateinit` fields and `by lazy` values are options. */
  datatype Renderer<A> = Renderer(
    animation: A,
    touchedBar: Option<Bar>,
    bars: seq<Bar>,
    data: seq<DataPoint>,
    outerFrame: Option<Frame>,
    innerFrame: Option<Frame>,
    chartConfiguration: Option<BarChartConfiguration>,
    xLabels: Option<seq<Label>>,
    yLabels: Option<seq<Label>>
  )

  /** A freshly constructed renderer. */
  function New<A>(animation: A): Renderer<A> {
    Renderer(animation, None, [], [], None, None, None, None, None)
  }

  /** The call `animation.animateFrom(startPosition, points)` that `preDraw` ends with. */
  datatype AnimationStart<A> = AnimateFrom(animation: A, startPosition: real, points: seq<DataPoint>)

  /** How `preDraw` ends: returning true, returning false after starting the animation, or throwing. */
  datatype PreDrawOutcome<A> =
    | Skip(state: Renderer<A>)
    | Proceed(state: Renderer<A>, start: AnimationStart<A>)
    | Thrown(state: Renderer<A>, failure: Failure)
  {
    /** The Boolean `preDraw` returns, when it returns. */
    function Returned(): Option<bool> {
      match this
      case Skip(_) => Some(true)
      case Proceed(_, _) => Some(false)
      case Thrown(_, _) => None
    }
  }

  /** A drawing call the renderer makes on its view. */
  datatype DrawEvent =
    | DrawLabels(labels: seq<Label>)
    | DrawBarsBackground(points: seq<DataPoint>, innerFrame: Frame)
    | DrawBars(bars: seq<Bar>, innerFrame: Frame)
    | DrawDebugFrame(outerFrame: Frame, innerFrame: Frame)

  /** The calls `draw` made, in order, the state after it, and the exception that cut it short, if any. */
  datatype DrawOutcome<A> = DrawOutcome(state: Renderer<A>, events: seq<DrawEvent>, failure: Option<Failure>)

  /** What the renderer asks of its host view. */
  datatype HostRequest = PostInvalidate

  datatype Update<A> = Update(state: Renderer<A>, requests: seq<HostRequest>)

  /** A lazy value after it was read: the state holding it and the value. */
  datatype Forced<A> = Forced(state: Renderer<A>, labels: seq<Label>)

  // ---------------------------------------------------------------------------
  // Lazy label lists

  /** Reading `xLabels`: built from the current configuration's scale on first read, then reused. */
  function ForceXLabels<A>(s: Renderer<A>, c: Collaborators): (r: Forced<A>)
    requires s.chartConfiguration.Some?
    ensures r.state.xLabels == Some(r.labels)
    ensures s.xLabels.Some? ==> r == Forced(s, s.xLabels.value)
    ensures s.xLabels.None? ==>
              && r.state == s.(xLabels := Some(r.labels))
              && r.labels == BuildXLabels(s.chartConfiguration.value.scale, c.defaultScaleNumberOfSteps,
                                          s.chartConfiguration.value.labelsFormatter, c.getFormattedLabel)
  {
    match s.xLabels
    case Some(labels) => Forced(s, labels)
    case None =>
      var cfg := s.chartConfiguration.value;
      var labels := BuildXLabels(cfg.scale, c.defaultScaleNumberOfSteps, cfg.labelsFormatter, c.getFormattedLabel);
      Forced(s.(xLabels := Some(labels)), labels)
  }

  /** The category labels `yLabels` holds or would be built as from the current data. */
  function YLabelsFor<A>(s: Renderer<A>, c: Collaborators): seq<Label> {
    if s.yLabels.Some? then s.yLabels.value else c.toLabels(s.data)
  }

  /** Reading `yLabels`: built from the current data on first read, then reused. */
  function ForceYLabels<A>(s: Renderer<A>, c: Collaborators): (r: Forced<A>)
    ensures r.labels == YLabelsFor(s, c)
    ensures r.state == s.(yLabels := Some(r.labels))
  {
    var labels := YLabelsFor(s, c);
    Forced(s.(yLabels := Some(labels)), labels)
  }

  // ---------------------------------------------------------------------------
  // preDraw

  /**
   * The scale the layout uses: an uninitialised one becomes zero to the
   * largest value; a caller-set one is kept. Nothing else changes.
   */
  function ResolveScale(configuration: BarChartConfiguration, data: seq<DataPoint>,
                        notInitialized: Scale -> bool): (r: BarChartConfiguration)
    requires |data| > 0
    ensures r == configuration.(scale := r.scale)
    ensures !notInitialized(configuration.scale) ==> r == configuration
    ensures notInitialized(configuration.scale) ==>
              && r.scale.min == 0.0
              && (forall i :: 0 <= i < |data| ==> data[i].value <= r.scale.max)
              && (exists i :: 0 <= i < |data| && data[i].value == r.scale.max)
  {
    if notInitialized(configuration.scale) then
      configuration.(scale := Scale(0.0, MaxValue(data)))
    else configuration
  }

  /**
   * The division-free condition under which the layout is defined: with data,
   * either there are no category labels (the layout throws first) or there are
   * at least two and the resolved scale is not empty (it may be inverted).
   */
  predicate CanLayOut<A>(s: Renderer<A>, configuration: BarChartConfiguration, c: Collaborators) {
    |s.data| == 0 || |YLabelsFor(s, c)| == 0 ||
    (|YLabelsFor(s, c)| >= 2 &&
     ResolveScale(configuration, s.data, c.notInitialized).scale.min
       != ResolveScale(configuration, s.data, c.notInitialized).scale.max)
  }

  /** The widths of the category labels, the longest of which sets the left padding. */
  function LabelWidths(labels: seq<Label>, painter: Painter, labelsSize: real): (widths: seq<real>)
    ensures |widths| == |labels|
    ensures forall i :: 0 <= i < |labels| ==> widths[i] == painter.measureLabelWidth(labels[i].text, labelsSize)
  {
    seq(|labels|, i requires 0 <= i < |labels| => painter.measureLabelWidth(labels[i].text, labelsSize))
  }

  /** The frames `preDraw` computes from the configuration and the measured labels. */
  function OuterFrameOf(cfg: BarChartConfiguration, c: Collaborators): Frame {
    c.toOuterFrame(cfg)
  }

  function InnerFrameOf(cfg: BarChartConfiguration, xLast: Label, yLongest: real, c: Collaborators): Frame {
    var paddings := c.measurePaddings(
      cfg.axis,
      c.painter.measureLabelHeight(cfg.labelsSize),
      c.painter.measureLabelWidth(xLast.text, cfg.labelsSize),
      yLongest,
      c.labelsPaddingToInnerChart);
    c.withPaddings(OuterFrameOf(cfg, c), paddings)
  }

  /** The part of `preDraw` after both label lists are read: frames, placements, bars, animation. */
  function LayOut<A>(s: Renderer<A>, cfg: BarChartConfiguration, xl: seq<Label>, yl: seq<Label>,
                     yLongest: real, c: Collaborators): (r: PreDrawOutcome<A>)
    requires |xl| > 0 && |yl| >= 2 && cfg.scale.min != cfg.scale.max
    ensures r.Proceed?
    ensures r.state.chartConfiguration == s.chartConfiguration
    ensures r.state.animation == s.animation && r.state.touchedBar == s.touchedBar
    ensures r.state.xLabels.Some? && Texts(r.state.xLabels.value) == Texts(xl)
    ensures r.state.yLabels.Some? && Texts(r.state.yLabels.value) == Texts(yl)
    ensures r.state.outerFrame == Some(OuterFrameOf(cfg, c))
    ensures r.state.innerFrame == Some(InnerFrameOf(cfg, xl[|xl| - 1], yLongest, c))
    // a shown value axis puts tick i at its share of the inner width, all on the
    // baseline one ascent above the inner bottom plus the padding; a hidden one
    // leaves the list as it was
    ensures var inner := r.state.innerFrame.value;
            var placed := r.state.xLabels.value;
            if cfg.axis.ShouldDisplayAxisX() then
              forall i :: 0 <= i < |placed| ==>
                && placed[i].screenPositionX == TickX(inner, c.defaultScaleNumberOfSteps, i)
                && placed[i].screenPositionY
                   == inner.bottom - c.painter.measureLabelAscent(cfg.labelsSize) + c.labelsPaddingToInnerChart
            else placed == xl
    // a shown category axis centres label i on the outer frame's left margin at
    // its category's y plus the descent; a hidden one leaves the list as it was
    ensures var outer := r.state.outerFrame.value;
            var inner := r.state.innerFrame.value;
            var placed := r.state.yLabels.value;
            if cfg.axis.ShouldDisplayAxisY() then
              forall i :: 0 <= i < |placed| ==>
                && placed[i].screenPositionX
                   == outer.left + c.painter.measureLabelWidth(yl[i].text, cfg.labelsSize) / 2.0
                && placed[i].screenPositionY
                   == CategoryY(inner, |yl|, i) + c.painter.measureLabelDescent(cfg.labelsSize)
            else placed == yl
    ensures r.state.data == PlaceDataPoints(s.data, r.state.innerFrame.value, cfg.scale, |yl|)
    ensures r.state.bars == ProcessData(r.state.data, r.state.innerFrame.value, cfg.spacing,
                                        c.getFormattedLabel, c.floatToString)
    ensures r.start == AnimateFrom(s.animation, r.state.innerFrame.value.bottom, r.state.data)
  {
    var outer := OuterFrameOf(cfg, c);
    var inner := InnerFrameOf(cfg, xl[|xl| - 1], yLongest, c);
    var placedX :=
      if cfg.axis.ShouldDisplayAxisX() then
        PlaceLabelsX(xl, inner, c.defaultScaleNumberOfSteps,
                     XLabelsBaseline(inner, c.painter.measureLabelAscent(cfg.labelsSize), c.labelsPaddingToInnerChart))
      else xl;
    var placedY := if cfg.axis.ShouldDisplayAxisY() then PlaceLabelsY(yl, outer, inner, c.painter, cfg.labelsSize) else yl;
    var points := PlaceDataPoints(s.data, inner, cfg.scale, |yl|);
    var bars := ProcessData(points, inner, cfg.spacing, c.getFormattedLabel, c.floatToString);
    Proceed(
      s.(outerFrame := Some(outer), innerFrame := Some(inner), xLabels := Some(placedX),
         yLabels := Some(placedY), data := points, bars := bars),
      AnimateFrom(s.animation, inner.bottom, points))
  }

  /** `preDraw(configuration)`. */
  function PreDraw<A>(s: Renderer<A>, configuration: BarChartConfiguration, c: Collaborators): (r: PreDrawOutcome<A>)
    requires CanLayOut(s, configuration, c)
    ensures r.Returned() == Some(true) <==> |s.data| == 0
    ensures r.Skip? ==> r.state == s
    ensures r.Thrown? && r.failure.IllegalArgument? <==> |s.data| > 0 && |YLabelsFor(s, c)| == 0
    ensures r.Thrown? && r.failure == NoSuchElement <==>
              |s.data| > 0 && |YLabelsFor(s, c)| > 0 && s.xLabels == Some([])
    ensures r.Thrown? ==> r.failure.IllegalArgument? || r.failure == NoSuchElement
    ensures r.Proceed? ==>
              && |r.state.bars| == |r.state.data| == |s.data|
              && Values(r.state.data) == Values(s.data)
              && r.state.innerFrame.Some? && r.state.outerFrame.Some?
              && r.state.xLabels.Some? && r.state.yLabels.Some?
    ensures !r.Skip? ==> r.state.chartConfiguration == Some(ResolveScale(configuration, s.data, c.notInitialized))
    ensures r.state.animation == s.animation && r.state.touchedBar == s.touchedBar
  {
    if |s.data| == 0 then Skip(s)
    else
      var cfg := ResolveScale(configuration, s.data, c.notInitialized);
      var fy := ForceYLabels(s.(chartConfiguration := Some(cfg)), c);
      match MaxValueBy(LabelWidths(fy.labels, c.painter, cfg.labelsSize))
      case None => Thrown(fy.state, IllegalArgument("Looks like there's no labels to find the longest width."))
      case Some(yLongest) =>
        var fx := ForceXLabels(fy.state, c);
        if |fx.labels| == 0 then Thrown(fx.state, NoSuchElement)
        else LayOut(fx.state, cfg, fx.labels, fy.labels, yLongest, c)
  }

  // ---------------------------------------------------------------------------
  // draw

  /** The tail of `draw` once the label calls are made: background, bars, debug frame. */
  function DrawFrames<A>(s: Renderer<A>, cfg: BarChartConfiguration, c: Collaborators): (r: DrawOutcome<A>)
    requires s.chartConfiguration == Some(cfg)
  {
    if cfg.barsBackgroundColor != -1 && s.innerFrame.None? then
      DrawOutcome(s, [], Some(UninitializedProperty("innerFrame")))
    else
      var background := if cfg.barsBackgroundColor != -1 then [DrawBarsBackground(s.data, s.innerFrame.value)] else [];
      if s.innerFrame.None? then DrawOutcome(s, background, Some(UninitializedProperty("innerFrame")))
      else
        var drawn := background + [DrawBars(s.bars, s.innerFrame.value)];
        if !c.inDebug then DrawOutcome(s, drawn, None)
        else if s.outerFrame.None? then DrawOutcome(s, drawn, Some(UninitializedProperty("outerFrame")))
        else
          // the debug label frames read both lazy lists
          var fx := ForceXLabels(s, c);
          var fy := ForceYLabels(fx.state, c);
          DrawOutcome(fy.state, drawn + [DrawDebugFrame(s.outerFrame.value, s.innerFrame.value)], None)
  }

  /** `draw()`: the view calls it makes, in order. */
  function Draw<A>(s: Renderer<A>, c: Collaborators): (r: DrawOutcome<A>)
    ensures |s.data| == 0 ==> r == DrawOutcome(s, [], None)
    ensures |s.data| > 0 && s.chartConfiguration.None? ==>
              r == DrawOutcome(s, [], Some(UninitializedProperty("chartConfiguration")))
    ensures r.state.data == s.data && r.state.bars == s.bars && r.state.animation == s.animation
    ensures r.state.touchedBar == s.touchedBar && r.state.chartConfiguration == s.chartConfiguration
    ensures r.state.innerFrame == s.innerFrame && r.state.outerFrame == s.outerFrame
    ensures s.xLabels.Some? ==> r.state.xLabels == s.xLabels
    ensures s.yLabels.Some? ==> r.state.yLabels == s.yLabels
  {
    if |s.data| == 0 then DrawOutcome(s, [], None)
    else if s.chartConfiguration.None? then DrawOutcome(s, [], Some(UninitializedProperty("chartConfiguration")))
    else
      var cfg := s.chartConfiguration.value;
      var fx := if cfg.axis.ShouldDisplayAxisX() then ForceXLabels(s, c) else Forced(s, []);
      var xEvents := if cfg.axis.ShouldDisplayAxisX() then [DrawLabels(fx.labels)] else [];
      var fy := if cfg.axis.ShouldDisplayAxisY() then ForceYLabels(fx.state, c) else Forced(fx.state, []);
      var yEvents := if cfg.axis.ShouldDisplayAxisY() then [DrawLabels(fy.labels)] else [];
      var rest := DrawFrames(fy.state, cfg, c);
      DrawOutcome(rest.state, xEvents + yEvents + rest.events, rest.failure)
  }

  // ---------------------------------------------------------------------------
  // render, anim, showToolTip

  /** `render(entries)`: new data, nothing else, and one invalidate request. */
  function Render<A>(s: Renderer<A>, entries: seq<(string, real)>, c: Collaborators): (r: Update<A>)
    ensures r.state == s.(data := c.toDataPoints(entries))
    ensures r.requests == [PostInvalidate]
  {
    Update(s.(data := c.toDataPoints(entries)), [PostInvalidate])
  }

  /** `anim(entries, animation)`: new data and animation, nothing else, and one invalidate request. */
  function Anim<A>(s: Renderer<A>, entries: seq<(string, real)>, animation: A, c: Collaborators): (r: Update<A>)
    ensures r.state == s.(data := c.toDataPoints(entries), animation := animation)
    ensures r.requests == [PostInvalidate]
  {
    Update(s.(data := c.toDataPoints(entries), animation := animation), [PostInvalidate])
  }

  /** `showToolTip(x, y)`: its body is empty, so no bar is selected and nothing is drawn. */
  function ShowToolTip<A>(s: Renderer<A>, x: real, y: real): (r: DrawOutcome<A>)
    ensures r.state == s && r.events == [] && r.failure == None
  {
    DrawOutcome(s, [], None)
  }
}
