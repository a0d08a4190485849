/**
 * The placement rules of the horizontal bar renderer: value-axis ticks along
 * the inner frame's width, categories evenly down its height with half a slot
 * reserved at each end, the clamped value-to-x mapping, and one bar rectangle
 * per placed point.
 */
module HorizontalBarLayout {
  import opened ChartData

  /** `RendererConstants.defaultScaleNumberOfSteps`; its value is not part of this model, only that it is positive. */
  type Steps = n: nat | n >= 1 witness 1

  // ---------------------------------------------------------------------------
  // Real division facts the solver does not find alone

  lemma MulDivCancel(k: real, m: real)
    requires m != 0.0
    ensures (k * m) / m == k
  {
  }

  lemma DivMonotone(a: real, b: real, d: real)
    requires a <= b && d > 0.0
    ensures a / d <= b / d
  {
  }

  lemma DivStrictMonotone(a: real, b: real, d: real)
    requires a < b && d > 0.0
    ensures a / d < b / d
  {
  }

  // ---------------------------------------------------------------------------
  // Value-axis ticks

  /** The scale value the i-th tick stands for. */
  function TickValue(scale: Scale, steps: Steps, i: nat): real {
    scale.min + scale.Size() / steps as real * i as real
  }

  /** The ticks start at the scale's minimum, end at its maximum and are evenly spaced. */
  lemma TickValuesSpanScale(scale: Scale, steps: Steps)
    ensures TickValue(scale, steps, 0) == scale.min
    ensures TickValue(scale, steps, steps) == scale.max
    ensures forall i: nat :: i < steps ==>
              TickValue(scale, steps, i + 1) - TickValue(scale, steps, i) == scale.Size() / steps as real
  {
  }

  /** The unplaced value-axis labels: one per tick, `steps + 1` in all, texts formatted twice as the renderer does. */
  function BuildXLabels(scale: Scale, steps: Steps, labelsFormatter: real -> string,
                        getFormattedLabel: string -> string): (labels: seq<Label>)
    ensures |labels| == steps + 1
    ensures forall i :: 0 <= i < |labels| ==>
              labels[i] == Label(getFormattedLabel(labelsFormatter(TickValue(scale, steps, i))), 0.0, 0.0)
  {
    seq(steps + 1, i requires 0 <= i < steps + 1 =>
      Label(getFormattedLabel(labelsFormatter(TickValue(scale, steps, i))), 0.0, 0.0))
  }

  /** The x of the i-th tick along the inner frame's width. */
  function TickX(innerFrame: Frame, steps: Steps, i: nat): real {
    innerFrame.left + (innerFrame.right - innerFrame.left) / steps as real * i as real
  }

  /** `placeLabelsX`: every label keeps its text, gets its tick's x and the common baseline y. */
  function PlaceLabelsX(labels: seq<Label>, innerFrame: Frame, steps: Steps, baseline: real): (placed: seq<Label>)
    ensures Texts(placed) == Texts(labels)
    ensures forall i :: 0 <= i < |placed| ==>
              placed[i].screenPositionX == TickX(innerFrame, steps, i) && placed[i].screenPositionY == baseline
  {
    seq(|labels|, i requires 0 <= i < |labels| =>
      Label(labels[i].text, TickX(innerFrame, steps, i), baseline))
  }

  /** The baseline of the value-axis labels: just below the inner frame. */
  function XLabelsBaseline(innerFrame: Frame, ascent: real, labelsPaddingToInnerChart: real): real {
    innerFrame.bottom - ascent + labelsPaddingToInnerChart
  }

  /** The first tick sits on the inner frame's left edge, the last on its right edge, evenly spaced. */
  lemma TicksSpanInnerWidth(innerFrame: Frame, steps: Steps)
    ensures TickX(innerFrame, steps, 0) == innerFrame.left
    ensures TickX(innerFrame, steps, steps) == innerFrame.right
    ensures forall i: nat :: i < steps ==>
              TickX(innerFrame, steps, i + 1) - TickX(innerFrame, steps, i)
              == (innerFrame.right - innerFrame.left) / steps as real
  {
  }

  // ---------------------------------------------------------------------------
  // Category axis

  /** Half of one category's slot: the renderer's `halfBarWidth` for label and point placement. */
  function HalfSlot(innerFrame: Frame, count: nat): real
    requires count > 0
  {
    (innerFrame.bottom - innerFrame.top) / count as real / 2.0
  }

  /** Distance between two neighbouring categories. */
  function HeightBetweenLabels(innerFrame: Frame, count: nat): real
    requires count >= 2
  {
    var hb := HalfSlot(innerFrame, count);
    ((innerFrame.bottom - hb) - (innerFrame.top + hb)) / (count - 1) as real
  }

  /** The y of the i-th category, counted upwards from the bottom one. */
  function CategoryY(innerFrame: Frame, count: nat, i: int): real
    requires count >= 2
  {
    (innerFrame.bottom - HalfSlot(innerFrame, count)) - HeightBetweenLabels(innerFrame, count) * i as real
  }

  /** Neighbouring categories are one slot apart: the inner height divided by the count. */
  lemma CategorySpacingIsSlot(innerFrame: Frame, count: nat)
    requires count >= 2
    ensures HeightBetweenLabels(innerFrame, count) == (innerFrame.bottom - innerFrame.top) / count as real
  {
  }

  /**
   * The bottom category sits half a slot above the inner bottom, the top one
   * half a slot below the inner top, and categories climb strictly upwards
   * when the inner frame has height.
   */
  lemma CategoriesSpanInnerHeight(innerFrame: Frame, count: nat)
    requires count >= 2
    ensures CategoryY(innerFrame, count, 0) == innerFrame.bottom - HalfSlot(innerFrame, count)
    ensures CategoryY(innerFrame, count, count - 1) == innerFrame.top + HalfSlot(innerFrame, count)
    ensures forall i, j :: 0 <= i < j && innerFrame.top < innerFrame.bottom ==>
              CategoryY(innerFrame, count, j) < CategoryY(innerFrame, count, i)
  {
    var d := HeightBetweenLabels(innerFrame, count);
    var hb := HalfSlot(innerFrame, count);
    var c := count as real;
    assert d * (c - 1.0) == (innerFrame.bottom - hb) - (innerFrame.top + hb);
    CategorySpacingIsSlot(innerFrame, count);
    forall i, j | 0 <= i < j && innerFrame.top < innerFrame.bottom
      ensures CategoryY(innerFrame, count, j) < CategoryY(innerFrame, count, i)
    {
      assert d > 0.0;
      assert d * j as real > d * i as real;
    }
  }

  /** `placeLabelsY`: category labels centred on the outer frame's left margin, at their category's y plus the descent. */
  function PlaceLabelsY(labels: seq<Label>, outerFrame: Frame, innerFrame: Frame,
                        painter: Painter, labelsSize: real): (placed: seq<Label>)
    requires |labels| != 1
    ensures Texts(placed) == Texts(labels)
    ensures forall i :: 0 <= i < |placed| ==>
              && placed[i].screenPositionX
                 == outerFrame.left + painter.measureLabelWidth(labels[i].text, labelsSize) / 2.0
              && placed[i].screenPositionY
                 == CategoryY(innerFrame, |labels|, i) + painter.measureLabelDescent(labelsSize)
  {
    seq(|labels|, i requires 0 <= i < |labels| =>
      Label(labels[i].text,
            outerFrame.left + painter.measureLabelWidth(labels[i].text, labelsSize) / 2.0,
            CategoryY(innerFrame, |labels|, i) + painter.measureLabelDescent(labelsSize)))
  }

  // ---------------------------------------------------------------------------
  // Value axis mapping

  function Max0(v: real): real {
    if v >= 0.0 then v else 0.0
  }

  /**
   * The x a value maps to: its share of the scale along the inner width, the
   * share floored at zero. Only the division needs a non-empty scale; an
   * inverted one (minimum above maximum) is laid out too.
   */
  function ValueToX(value: real, innerFrame: Frame, scale: Scale): real
    requires scale.min != scale.max
  {
    innerFrame.left + (innerFrame.right - innerFrame.left) * Max0(value - scale.min) / scale.Size()
  }

  lemma ValueToXFloor(v: real, innerFrame: Frame, scale: Scale)
    requires scale.min < scale.max && innerFrame.left <= innerFrame.right
    ensures ValueToX(v, innerFrame, scale) >= innerFrame.left
    ensures v <= scale.min ==> ValueToX(v, innerFrame, scale) == innerFrame.left
  {
  }

  lemma ValueToXAtMax(innerFrame: Frame, scale: Scale)
    requires scale.min < scale.max
    ensures ValueToX(scale.max, innerFrame, scale) == innerFrame.right
  {
    MulDivCancel(innerFrame.right - innerFrame.left, scale.Size());
  }

  lemma ValueToXPastMax(v: real, innerFrame: Frame, scale: Scale)
    requires scale.min < scale.max && innerFrame.left < innerFrame.right && v > scale.max
    ensures ValueToX(v, innerFrame, scale) > innerFrame.right
  {
    var w := innerFrame.right - innerFrame.left;
    var s := scale.Size();
    MulDivCancel(w, s);
    assert w * (v - scale.min) > w * s;
    DivStrictMonotone(w * s, w * (v - scale.min), s);
  }

  lemma ValueToXMonotone(v1: real, v2: real, innerFrame: Frame, scale: Scale)
    requires scale.min < scale.max && innerFrame.left <= innerFrame.right && v1 <= v2
    ensures ValueToX(v1, innerFrame, scale) <= ValueToX(v2, innerFrame, scale)
  {
    var w := innerFrame.right - innerFrame.left;
    assert Max0(v1 - scale.min) <= Max0(v2 - scale.min);
    assert w * Max0(v1 - scale.min) <= w * Max0(v2 - scale.min);
    DivMonotone(w * Max0(v1 - scale.min), w * Max0(v2 - scale.min), scale.Size());
  }

  /**
   * The floor and the missing ceiling of the value mapping: nothing maps left
   * of the inner frame, values at or below the minimum map onto its left edge,
   * the maximum maps onto its right edge, larger values map past it, and the
   * mapping is monotone.
   */
  lemma ValueToXClamp(innerFrame: Frame, scale: Scale)
    requires scale.min < scale.max
    requires innerFrame.left <= innerFrame.right
    ensures forall v :: ValueToX(v, innerFrame, scale) >= innerFrame.left
    ensures forall v :: v <= scale.min ==> ValueToX(v, innerFrame, scale) == innerFrame.left
    ensures ValueToX(scale.max, innerFrame, scale) == innerFrame.right
    ensures forall v :: v > scale.max && innerFrame.left < innerFrame.right ==>
              ValueToX(v, innerFrame, scale) > innerFrame.right
    ensures forall v1, v2 :: v1 <= v2 ==> ValueToX(v1, innerFrame, scale) <= ValueToX(v2, innerFrame, scale)
  {
    forall v ensures ValueToX(v, innerFrame, scale) >= innerFrame.left
      && (v <= scale.min ==> ValueToX(v, innerFrame, scale) == innerFrame.left)
    {
      ValueToXFloor(v, innerFrame, scale);
    }
    ValueToXAtMax(innerFrame, scale);
    forall v | v > scale.max && innerFrame.left < innerFrame.right
      ensures ValueToX(v, innerFrame, scale) > innerFrame.right
    {
      ValueToXPastMax(v, innerFrame, scale);
    }
    forall v1, v2 | v1 <= v2
      ensures ValueToX(v1, innerFrame, scale) <= ValueToX(v2, innerFrame, scale)
    {
      ValueToXMonotone(v1, v2, innerFrame, scale);
    }
  }

  /**
   * With an inverted scale the floor of the mapping becomes its ceiling:
   * nothing maps right of the inner frame's left edge, values at or below the
   * minimum map onto it, and larger values map left of it.
   */
  lemma ValueToXInvertedScale(innerFrame: Frame, scale: Scale)
    requires scale.min > scale.max
    requires innerFrame.left <= innerFrame.right
    ensures forall v :: ValueToX(v, innerFrame, scale) <= innerFrame.left
    ensures forall v :: v <= scale.min ==> ValueToX(v, innerFrame, scale) == innerFrame.left
    ensures forall v :: v > scale.min && innerFrame.left < innerFrame.right ==>
              ValueToX(v, innerFrame, scale) < innerFrame.left
  {
    forall v ensures ValueToX(v, innerFrame, scale) <= innerFrame.left
      && (v > scale.min && innerFrame.left < innerFrame.right ==> ValueToX(v, innerFrame, scale) < innerFrame.left)
    {
      var w := innerFrame.right - innerFrame.left;
      var m := Max0(v - scale.min);
      assert w * m >= 0.0;
      DivMonotone(-(w * m), 0.0, -scale.Size());
      if v > scale.min && w > 0.0 {
        assert w * m > 0.0;
        DivStrictMonotone(-(w * m), 0.0, -scale.Size());
      }
    }
  }

  /** `placeDataPoints`: each point keeps label and value and gets its mapped x and its category's y. */
  function PlaceDataPoints(points: seq<DataPoint>, innerFrame: Frame, scale: Scale, labelCount: nat): (placed: seq<DataPoint>)
    requires |points| == 0 || (labelCount >= 2 && scale.min != scale.max)
    ensures |placed| == |points|
    ensures forall i :: 0 <= i < |points| ==>
              && placed[i].labelText == points[i].labelText && placed[i].value == points[i].value
              && placed[i].screenPositionX == ValueToX(points[i].value, innerFrame, scale)
              && placed[i].screenPositionY == CategoryY(innerFrame, labelCount, i)
  {
    seq(|points|, i requires 0 <= i < |points| =>
      points[i].(screenPositionX := ValueToX(points[i].value, innerFrame, scale),
                 screenPositionY := CategoryY(innerFrame, labelCount, i)))
  }

  // ---------------------------------------------------------------------------
  // Bars

  /** Half the thickness of one bar when `count` bars and `count + 1` gaps share the inner height. */
  function HalfBarWidth(innerFrame: Frame, count: nat, spacing: real): real
    requires count > 0
  {
    (innerFrame.bottom - innerFrame.top - (count + 1) as real * spacing) / count as real / 2.0
  }

  /** The rectangle of one bar: from the inner frame's left edge to the point, centred on its y. */
  function BarRect(point: DataPoint, innerFrame: Frame, halfBarWidth: real): RectF {
    RectF(innerFrame.left, point.screenPositionY - halfBarWidth,
          point.screenPositionX, point.screenPositionY + halfBarWidth)
  }

  /** `processData`: one bar per point, in point order. */
  function ProcessData(points: seq<DataPoint>, innerFrame: Frame, spacing: real,
                       getFormattedLabel: string -> string, floatToString: real -> string): (bars: seq<Bar>)
    ensures |bars| == |points|
    ensures forall i :: 0 <= i < |points| ==>
              && bars[i].value == getFormattedLabel(floatToString(points[i].value))
              && bars[i].barLabel == Label(points[i].labelText, points[i].screenPositionX, points[i].screenPositionY)
              && bars[i].rectF.left == innerFrame.left
              && bars[i].rectF.right == points[i].screenPositionX
              && (bars[i].rectF.top + bars[i].rectF.bottom) / 2.0 == points[i].screenPositionY
    // every bar has the same thickness; bars and gaps fill the inner height
    ensures forall i :: 0 <= i < |points| ==>
              |points| as real * (bars[i].rectF.bottom - bars[i].rectF.top) + (|points| + 1) as real * spacing
              == innerFrame.bottom - innerFrame.top
  {
    if |points| == 0 then []
    else
      var hb := HalfBarWidth(innerFrame, |points|, spacing);
      seq(|points|, i requires 0 <= i < |points| =>
        Bar(getFormattedLabel(floatToString(points[i].value)),
            Label(points[i].labelText, points[i].screenPositionX, points[i].screenPositionY),
            BarRect(points[i], innerFrame, hb)))
  }

  /** After placement no bar is drawn right-to-left, whatever the values, when the inner frame is well formed. */
  lemma PlacedBarsRunRightwards(points: seq<DataPoint>, innerFrame: Frame, scale: Scale, labelCount: nat,
                                spacing: real, getFormattedLabel: string -> string, floatToString: real -> string)
    requires |points| == 0 || (labelCount >= 2 && scale.min < scale.max)
    requires innerFrame.left <= innerFrame.right
    ensures forall b :: b in ProcessData(PlaceDataPoints(points, innerFrame, scale, labelCount), innerFrame, spacing,
                                         getFormattedLabel, floatToString) ==>
              b.rectF.left <= b.rectF.right
  {
  }
}
