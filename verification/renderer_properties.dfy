/**
 * Properties that relate several renderer operations: what a successful
 * layout produces, the order of drawing calls, the label lists being built
 * once and never rebuilt, the state invariant every operation keeps,
 * idempotence of the layout, and agreement between the renderer's bars and
 * the horizontal view's own bar rectangles.
 */
module RendererProperties {
  import opened Wrappers
  import opened ChartData
  import opened Extensions
  import opened HorizontalBarLayout
  import opened HorizontalBarChartRenderer
  import HorizontalBarChartView

  // ---------------------------------------------------------------------------
  // Layout results

  /**
   * After a layout every bar starts at the inner frame's left edge, ends at its
   * value's mapped x, is centred on its category's y and carries its point's
   * label and position. With a well-formed inner frame no bar runs leftwards
   * when the scale is ascending, and none runs rightwards when it is inverted.
   */
  lemma PreDrawPlacesBars<A>(s: Renderer<A>, configuration: BarChartConfiguration, c: Collaborators)
    requires CanLayOut(s, configuration, c)
    requires PreDraw(s, configuration, c).Proceed?
    ensures var r := PreDraw(s, configuration, c).state;
            var inner := r.innerFrame.value;
            var scale := r.chartConfiguration.value.scale;
            var count := |r.yLabels.value|;
            && count >= 2 && scale.min != scale.max
            && (forall i :: 0 <= i < |s.data| ==>
                  && r.bars[i].rectF.left == inner.left
                  && r.bars[i].rectF.right == ValueToX(s.data[i].value, inner, scale)
                  && (r.bars[i].rectF.top + r.bars[i].rectF.bottom) / 2.0 == CategoryY(inner, count, i)
                  && r.bars[i].barLabel.text == s.data[i].labelText
                  && r.bars[i].barLabel.screenPositionX == r.data[i].screenPositionX
                  && r.bars[i].barLabel.screenPositionY == r.data[i].screenPositionY)
            && (inner.left <= inner.right && scale.min < scale.max ==>
                  forall i :: 0 <= i < |s.data| ==> r.bars[i].rectF.left <= r.bars[i].rectF.right)
            && (inner.left <= inner.right && scale.min > scale.max ==>
                  forall i :: 0 <= i < |s.data| ==> r.bars[i].rectF.right <= r.bars[i].rectF.left)
  {
    var cfg := ResolveScale(configuration, s.data, c.notInitialized);
    var fy := ForceYLabels(s.(chartConfiguration := Some(cfg)), c);
    var yLongest := MaxValueBy(LabelWidths(fy.labels, c.painter, cfg.labelsSize)).value;
    var fx := ForceXLabels(fy.state, c);
    var r := LayOut(fx.state, cfg, fx.labels, fy.labels, yLongest, c);
    assert PreDraw(s, configuration, c) == r;
    var inner := r.state.innerFrame.value;
    if inner.left <= inner.right && cfg.scale.min < cfg.scale.max {
      ValueToXClamp(inner, cfg.scale);
    }
    if inner.left <= inner.right && cfg.scale.min > cfg.scale.max {
      ValueToXInvertedScale(inner, cfg.scale);
    }
  }

  /** The first layout fills the value-axis list from the resolved scale: `steps + 1` ticks from its minimum to its maximum. */
  lemma FirstPreDrawBuildsXLabels<A>(s: Renderer<A>, configuration: BarChartConfiguration, c: Collaborators)
    requires CanLayOut(s, configuration, c)
    requires s.xLabels.None? && PreDraw(s, configuration, c).Proceed?
    ensures var r := PreDraw(s, configuration, c).state;
            var scale := r.chartConfiguration.value.scale;
            var steps := c.defaultScaleNumberOfSteps;
            && |r.xLabels.value| == steps + 1
            && (forall i :: 0 <= i <= steps ==>
                  r.xLabels.value[i].text
                  == c.getFormattedLabel(r.chartConfiguration.value.labelsFormatter(TickValue(scale, steps, i))))
            && TickValue(scale, steps, 0) == scale.min && TickValue(scale, steps, steps) == scale.max
  {
  }

  /**
   * Where a layout puts the value-axis labels. A shown X axis puts tick i at
   * the inner left edge plus i steps of the inner width, from the left edge to
   * the right edge, all on the baseline just below the inner frame. A hidden
   * one leaves a cached list exactly as it was.
   */
  lemma PreDrawPlacesXLabels<A>(s: Renderer<A>, configuration: BarChartConfiguration, c: Collaborators)
    requires CanLayOut(s, configuration, c)
    requires PreDraw(s, configuration, c).Proceed?
    requires Valid(s, c)
    ensures var r := PreDraw(s, configuration, c).state;
            var cfg := r.chartConfiguration.value;
            var inner := r.innerFrame.value;
            var steps := c.defaultScaleNumberOfSteps;
            var xl := r.xLabels.value;
            && |xl| == steps + 1
            && (cfg.axis.ShouldDisplayAxisX() ==>
                  && (forall i :: 0 <= i < |xl| ==>
                        && xl[i].screenPositionX == TickX(inner, steps, i)
                        && xl[i].screenPositionY
                           == inner.bottom - c.painter.measureLabelAscent(cfg.labelsSize) + c.labelsPaddingToInnerChart)
                  && xl[0].screenPositionX == inner.left
                  && xl[steps].screenPositionX == inner.right)
            && (!cfg.axis.ShouldDisplayAxisX() && s.xLabels.Some? ==> r.xLabels == s.xLabels)
  {
    var cfg := ResolveScale(configuration, s.data, c.notInitialized);
    var fy := ForceYLabels(s.(chartConfiguration := Some(cfg)), c);
    var yLongest := MaxValueBy(LabelWidths(fy.labels, c.painter, cfg.labelsSize)).value;
    var fx := ForceXLabels(fy.state, c);
    assert PreDraw(s, configuration, c) == LayOut(fx.state, cfg, fx.labels, fy.labels, yLongest, c);
    assert |fx.labels| == c.defaultScaleNumberOfSteps + 1;
    if cfg.axis.ShouldDisplayAxisX() {
      TicksSpanInnerWidth(PreDraw(s, configuration, c).state.innerFrame.value, c.defaultScaleNumberOfSteps);
    }
  }

  /**
   * Where a layout puts the category labels. A shown Y axis puts label i half
   * its width right of the outer frame's left edge, at its category's y plus
   * the descent, which is its point's y plus the descent. A hidden one leaves
   * a cached list exactly as it was.
   */
  lemma PreDrawPlacesYLabels<A>(s: Renderer<A>, configuration: BarChartConfiguration, c: Collaborators)
    requires CanLayOut(s, configuration, c)
    requires PreDraw(s, configuration, c).Proceed?
    ensures var r := PreDraw(s, configuration, c).state;
            var cfg := r.chartConfiguration.value;
            var outer := r.outerFrame.value;
            var inner := r.innerFrame.value;
            var yl := r.yLabels.value;
            && |yl| >= 2
            && (cfg.axis.ShouldDisplayAxisY() ==>
                  && (forall i :: 0 <= i < |yl| ==>
                        && yl[i].screenPositionX
                           == outer.left + c.painter.measureLabelWidth(yl[i].text, cfg.labelsSize) / 2.0
                        && yl[i].screenPositionY
                           == CategoryY(inner, |yl|, i) + c.painter.measureLabelDescent(cfg.labelsSize))
                  && (forall i :: 0 <= i < |yl| && i < |r.data| ==>
                        yl[i].screenPositionY
                        == r.data[i].screenPositionY + c.painter.measureLabelDescent(cfg.labelsSize)))
            && (!cfg.axis.ShouldDisplayAxisY() && s.yLabels.Some? ==> r.yLabels == s.yLabels)
  {
    var cfg := ResolveScale(configuration, s.data, c.notInitialized);
    var fy := ForceYLabels(s.(chartConfiguration := Some(cfg)), c);
    var yLongest := MaxValueBy(LabelWidths(fy.labels, c.painter, cfg.labelsSize)).value;
    var fx := ForceXLabels(fy.state, c);
    assert PreDraw(s, configuration, c) == LayOut(fx.state, cfg, fx.labels, fy.labels, yLongest, c);
    var r := PreDraw(s, configuration, c).state;
    var yl := r.yLabels.value;
    assert |yl| == |Texts(yl)| == |Texts(fy.labels)| == |fy.labels|;
    forall i | 0 <= i < |yl| ensures yl[i].text == fy.labels[i].text {
      assert yl[i].text == Texts(yl)[i] == Texts(fy.labels)[i] == fy.labels[i].text;
    }
  }

  /** Data {A: 5, B: -2, C: 10} with an uninitialised scale resolves to the scale from 0 to 10. */
  lemma AutoScaleExample(configuration: BarChartConfiguration, notInitialized: Scale -> bool)
    requires notInitialized(configuration.scale)
    ensures var data := [DataPoint("A", 5.0, 0.0, 0.0), DataPoint("B", -2.0, 0.0, 0.0), DataPoint("C", 10.0, 0.0, 0.0)];
            ResolveScale(configuration, data, notInitialized).scale == Scale(0.0, 10.0)
  {
  }

  /**
   * Data {A: -5, B: -2} with an uninitialised scale resolves to the inverted
   * scale from 0 to -2, and every value of it maps onto the inner frame's left
   * edge: the bars have no length.
   */
  lemma NonPositiveAutoScaleExample(configuration: BarChartConfiguration, notInitialized: Scale -> bool,
                                    innerFrame: Frame)
    requires notInitialized(configuration.scale)
    ensures var data := [DataPoint("A", -5.0, 0.0, 0.0), DataPoint("B", -2.0, 0.0, 0.0)];
            var scale := ResolveScale(configuration, data, notInitialized).scale;
            && scale == Scale(0.0, -2.0)
            && forall i :: 0 <= i < |data| ==> ValueToX(data[i].value, innerFrame, scale) == innerFrame.left
  {
  }

  // ---------------------------------------------------------------------------
  // Drawing order

  /** Every `lateinit` field is set and both lazy lists are filled. */
  predicate LaidOut<A>(s: Renderer<A>) {
    && s.chartConfiguration.Some? && s.outerFrame.Some? && s.innerFrame.Some?
    && s.xLabels.Some? && s.yLabels.Some?
  }

  /**
   * On a laid-out renderer with data, `draw` changes nothing, fails nowhere and
   * calls the view in a fixed order: value-axis labels if the X axis is shown,
   * category labels if the Y axis is shown, the background unless its colour is
   * -1, then always the bars, then the debug frame in debug builds.
   */
  lemma DrawOrder<A>(s: Renderer<A>, c: Collaborators)
    requires LaidOut(s) && |s.data| > 0
    ensures var r := Draw(s, c);
            var cfg := s.chartConfiguration.value;
            var inner := s.innerFrame.value;
            && r.state == s && r.failure == None
            && r.events ==
                 (if cfg.axis.ShouldDisplayAxisX() then [DrawLabels(s.xLabels.value)] else [])
               + (if cfg.axis.ShouldDisplayAxisY() then [DrawLabels(s.yLabels.value)] else [])
               + (if cfg.barsBackgroundColor != -1 then [DrawBarsBackground(s.data, inner)] else [])
               + [DrawBars(s.bars, inner)]
               + (if c.inDebug then [DrawDebugFrame(s.outerFrame.value, inner)] else [])
  {
  }

  /** A successful layout leaves the renderer laid out, so the following `draw` emits the bars it just built. */
  lemma PreDrawThenDraw<A>(s: Renderer<A>, configuration: BarChartConfiguration, c: Collaborators)
    requires CanLayOut(s, configuration, c)
    requires PreDraw(s, configuration, c).Proceed?
    ensures var r := PreDraw(s, configuration, c).state;
            && LaidOut(r)
            && Draw(r, c).failure == None
            && DrawBars(r.bars, r.innerFrame.value) in Draw(r, c).events
            && |r.bars| == |s.data|
  {
  }

  // ---------------------------------------------------------------------------
  // The lazy label lists are built once

  /** Once filled, a lazy label list stays filled and keeps its texts; only positions may move. */
  predicate KeepsLabelLists<A>(s: Renderer<A>, t: Renderer<A>) {
    && (s.xLabels.Some? ==> t.xLabels.Some? && Texts(t.xLabels.value) == Texts(s.xLabels.value))
    && (s.yLabels.Some? ==> t.yLabels.Some? && Texts(t.yLabels.value) == Texts(s.yLabels.value))
  }

  lemma PreDrawKeepsLabelLists<A>(s: Renderer<A>, configuration: BarChartConfiguration, c: Collaborators)
    requires CanLayOut(s, configuration, c)
    ensures KeepsLabelLists(s, PreDraw(s, configuration, c).state)
    ensures !PreDraw(s, configuration, c).Skip? ==>
              PreDraw(s, configuration, c).state.yLabels.Some? &&
              Texts(PreDraw(s, configuration, c).state.yLabels.value) == Texts(YLabelsFor(s, c))
  {
  }

  lemma OtherOperationsKeepLabelLists<A>(s: Renderer<A>, entries: seq<(string, real)>, animation: A,
                                         x: real, y: real, c: Collaborators)
    ensures KeepsLabelLists(s, Draw(s, c).state)
    ensures Render(s, entries, c).state.xLabels == s.xLabels && Render(s, entries, c).state.yLabels == s.yLabels
    ensures Anim(s, entries, animation, c).state.xLabels == s.xLabels
    ensures Anim(s, entries, animation, c).state.yLabels == s.yLabels
    ensures ShowToolTip(s, x, y).state == s
  {
  }

  /**
   * The category labels are not rebuilt for new data: after `render`, the next
   * layout keeps the old category texts and spreads the new points over the
   * old number of category slots, however many points there now are.
   */
  lemma RenderKeepsStaleCategories<A>(s: Renderer<A>, entries: seq<(string, real)>,
                                      configuration: BarChartConfiguration, c: Collaborators)
    requires s.yLabels.Some?
    requires CanLayOut(Render(s, entries, c).state, configuration, c)
    requires PreDraw(Render(s, entries, c).state, configuration, c).Proceed?
    ensures var r := PreDraw(Render(s, entries, c).state, configuration, c).state;
            && Texts(r.yLabels.value) == Texts(s.yLabels.value)
            && |r.data| == |c.toDataPoints(entries)|
            && forall i :: 0 <= i < |r.data| ==>
                 r.data[i].screenPositionY == CategoryY(r.innerFrame.value, |s.yLabels.value|, i)
  {
  }

  // ---------------------------------------------------------------------------
  // State invariant

  /**
   * No bar is ever touched, and a filled value-axis list has one label per
   * tick.
   */
  predicate Valid<A>(s: Renderer<A>, c: Collaborators) {
    && s.touchedBar.None?
    && (s.xLabels.Some? ==> |s.xLabels.value| == c.defaultScaleNumberOfSteps + 1)
  }

  lemma NewIsValid<A>(animation: A, c: Collaborators)
    ensures Valid(New(animation), c)
    ensures New(animation).data == [] && New(animation).bars == []
    ensures New(animation).xLabels.None? && New(animation).yLabels.None?
  {
  }

  /** Every operation keeps the invariant, so a valid renderer never fails on an empty value-axis list. */
  lemma OperationsKeepValid<A>(s: Renderer<A>, configuration: BarChartConfiguration, entries: seq<(string, real)>,
                               animation: A, x: real, y: real, c: Collaborators)
    requires Valid(s, c)
    ensures CanLayOut(s, configuration, c) ==> Valid(PreDraw(s, configuration, c).state, c)
    ensures CanLayOut(s, configuration, c) ==> PreDraw(s, configuration, c) != Thrown(PreDraw(s, configuration, c).state, NoSuchElement)
    ensures Valid(Draw(s, c).state, c)
    ensures Valid(Render(s, entries, c).state, c)
    ensures Valid(Anim(s, entries, animation, c).state, c)
    ensures Valid(ShowToolTip(s, x, y).state, c)
  {
  }

  // ---------------------------------------------------------------------------
  // Idempotence

  lemma ResolveScaleReadsOnlyValues(configuration: BarChartConfiguration, d1: seq<DataPoint>, d2: seq<DataPoint>,
                                    notInitialized: Scale -> bool)
    requires |d1| > 0 && Values(d1) == Values(d2)
    ensures ResolveScale(configuration, d1, notInitialized) == ResolveScale(configuration, d2, notInitialized)
  {
  }

  lemma PlaceLabelsXReadsOnlyTexts(a: seq<Label>, b: seq<Label>, innerFrame: Frame, steps: Steps, baseline: real)
    requires Texts(a) == Texts(b)
    ensures PlaceLabelsX(a, innerFrame, steps, baseline) == PlaceLabelsX(b, innerFrame, steps, baseline)
  {
  }

  lemma PlaceLabelsYReadsOnlyTexts(a: seq<Label>, b: seq<Label>, outerFrame: Frame, innerFrame: Frame,
                                   painter: Painter, labelsSize: real)
    requires Texts(a) == Texts(b) && |a| != 1
    ensures PlaceLabelsY(a, outerFrame, innerFrame, painter, labelsSize)
            == PlaceLabelsY(b, outerFrame, innerFrame, painter, labelsSize)
  {
  }

  lemma PlaceDataPointsIdempotent(points: seq<DataPoint>, innerFrame: Frame, scale: Scale, labelCount: nat)
    requires |points| == 0 || (labelCount >= 2 && scale.min != scale.max)
    ensures var placed := PlaceDataPoints(points, innerFrame, scale, labelCount);
            PlaceDataPoints(placed, innerFrame, scale, labelCount) == placed
  {
  }

  lemma LabelWidthsReadOnlyTexts(a: seq<Label>, b: seq<Label>, painter: Painter, labelsSize: real)
    requires Texts(a) == Texts(b)
    ensures LabelWidths(a, painter, labelsSize) == LabelWidths(b, painter, labelsSize)
  {
  }

  /**
   * Laying out again with the same configuration and data changes nothing:
   * the second layout reproduces the frames, labels, points and bars of the
   * first and starts the same animation.
   */
  lemma PreDrawIdempotent<A>(s: Renderer<A>, configuration: BarChartConfiguration, c: Collaborators)
    requires CanLayOut(s, configuration, c)
    requires PreDraw(s, configuration, c).Proceed?
    ensures var first := PreDraw(s, configuration, c);
            && CanLayOut(first.state, configuration, c)
            && PreDraw(first.state, configuration, c) == first
  {
    var first := PreDraw(s, configuration, c);
    var s1 := first.state;
    // the first run, unfolded
    var cfg := ResolveScale(configuration, s.data, c.notInitialized);
    var fy := ForceYLabels(s.(chartConfiguration := Some(cfg)), c);
    var yLongest := MaxValueBy(LabelWidths(fy.labels, c.painter, cfg.labelsSize)).value;
    var fx := ForceXLabels(fy.state, c);
    assert first == LayOut(fx.state, cfg, fx.labels, fy.labels, yLongest, c);
    var inner := s1.innerFrame.value;
    // the second run reads the same scale and the cached label lists
    ResolveScaleReadsOnlyValues(configuration, s.data, s1.data, c.notInitialized);
    var yl2 := s1.yLabels.value;
    var xl2 := s1.xLabels.value;
    assert |yl2| == |Texts(yl2)| == |Texts(fy.labels)| == |fy.labels|;
    assert |xl2| == |Texts(xl2)| == |Texts(fx.labels)| == |fx.labels|;
    assert CanLayOut(s1, configuration, c);
    var fy2 := ForceYLabels(s1.(chartConfiguration := Some(cfg)), c);
    assert fy2.labels == yl2;
    LabelWidthsReadOnlyTexts(yl2, fy.labels, c.painter, cfg.labelsSize);
    var fx2 := ForceXLabels(fy2.state, c);
    assert fx2.labels == xl2;
    assert xl2[|xl2| - 1].text == Texts(xl2)[|xl2| - 1] == Texts(fx.labels)[|xl2| - 1] == fx.labels[|xl2| - 1].text;
    var second := LayOut(fx2.state, cfg, xl2, yl2, yLongest, c);
    assert PreDraw(s1, configuration, c) == second;
    assert second.state.innerFrame == Some(inner);
    // every placement reproduces what the first run placed
    var baseline := XLabelsBaseline(inner, c.painter.measureLabelAscent(cfg.labelsSize), c.labelsPaddingToInnerChart);
    if cfg.axis.ShouldDisplayAxisX() {
      PlaceLabelsXReadsOnlyTexts(xl2, fx.labels, inner, c.defaultScaleNumberOfSteps, baseline);
    }
    if cfg.axis.ShouldDisplayAxisY() {
      PlaceLabelsYReadsOnlyTexts(yl2, fy.labels, s1.outerFrame.value, inner, c.painter, cfg.labelsSize);
    }
    PlaceDataPointsIdempotent(s.data, inner, cfg.scale, |fy.labels|);
  }

  // ---------------------------------------------------------------------------
  // The view draws the renderer's rectangles

  /** The rectangles of a list of bars. */
  function Rects(bars: seq<Bar>): (rects: seq<RectF>)
    ensures |rects| == |bars|
    ensures forall i :: 0 <= i < |bars| ==> rects[i] == bars[i].rectF
  {
    seq(|bars|, i requires 0 <= i < |bars| => bars[i].rectF)
  }

  /**
   * With the same spacing, the horizontal view's own `drawBars` rectangles are
   * exactly the rectangles of the renderer's bars for the same points.
   */
  lemma ViewBarsMatchRendererBars(points: seq<DataPoint>, innerFrame: Frame, spacing: real,
                                  getFormattedLabel: string -> string, floatToString: real -> string)
    ensures HorizontalBarChartView.DrawBars(points, innerFrame, spacing)
            == Rects(ProcessData(points, innerFrame, spacing, getFormattedLabel, floatToString))
  {
  }
}
