/**
 * The pure parts of the vertical bar view: its configuration getter, the bar
 * and background rectangles it paints, and the texts it draws for labels and
 * for a tooltip. Bars hang from the point's y down to the inner frame's
 * bottom, centred on the point's x.
 */
module BarChartView {
  import opened ChartData
  import LabelFormatting

  /** The `chartConfiguration` getter: a record built with named arguments. */
  function ChartConfiguration(v: BarViewProperties): (c: BarChartConfiguration)
    ensures c.width == v.measuredWidth && c.height == v.measuredHeight
    ensures c.paddings == Paddings(v.paddingLeft as real, v.paddingTop as real,
                                   v.paddingRight as real, v.paddingBottom as real)
    ensures c.axis == v.axis && c.labelsSize == v.labelsSize && c.scale == v.scale
    ensures c.labelsFormatter == v.labelsFormatter && c.displayInteger == v.displayInteger
    ensures c.spacing == v.spacing && c.barsBackgroundColor == v.barsBackgroundColor
  {
    BarChartConfiguration(
      width := v.measuredWidth,
      height := v.measuredHeight,
      paddings := Paddings(v.paddingLeft as real, v.paddingTop as real,
                           v.paddingRight as real, v.paddingBottom as real),
      axis := v.axis,
      labelsSize := v.labelsSize,
      scale := v.scale,
      barsBackgroundColor := v.barsBackgroundColor,
      labelsFormatter := v.labelsFormatter,
      displayInteger := v.displayInteger,
      spacing := v.spacing)
  }

  /** Half the width of one bar when `count` bars and `count + 1` gaps share the inner width. */
  function HalfBarWidth(innerFrame: Frame, count: nat, spacing: real): real
    requires count > 0
  {
    (innerFrame.right - innerFrame.left - (count + 1) as real * spacing) / count as real / 2.0
  }

  /** `drawBars`: one rectangle per point, in point order. */
  function DrawBars(points: seq<DataPoint>, innerFrame: Frame, spacing: real): (rects: seq<RectF>)
    ensures |rects| == |points|
    ensures forall i :: 0 <= i < |points| ==>
              && (rects[i].left + rects[i].right) / 2.0 == points[i].screenPositionX
              && rects[i].top == points[i].screenPositionY
              && rects[i].bottom == innerFrame.bottom
    // the bars and the gaps around them exactly fill the inner width
    ensures forall i :: 0 <= i < |points| ==>
              |points| as real * (rects[i].right - rects[i].left) + (|points| + 1) as real * spacing
              == innerFrame.right - innerFrame.left
  {
    if |points| == 0 then []
    else
      var hb := HalfBarWidth(innerFrame, |points|, spacing);
      seq(|points|, i requires 0 <= i < |points| =>
        RectF(points[i].screenPositionX - hb, points[i].screenPositionY,
              points[i].screenPositionX + hb, innerFrame.bottom))
  }

  /** `drawBarsBackground`: one full-height column per point, in point order. */
  function DrawBarsBackground(points: seq<DataPoint>, innerFrame: Frame, spacing: real): (rects: seq<RectF>)
    ensures |rects| == |points|
    ensures forall i :: 0 <= i < |points| ==>
              && rects[i].top == innerFrame.top && rects[i].bottom == innerFrame.bottom
              && (rects[i].left + rects[i].right) / 2.0 == points[i].screenPositionX
  {
    if |points| == 0 then []
    else
      var hb := HalfBarWidth(innerFrame, |points|, spacing);
      seq(|points|, i requires 0 <= i < |points| =>
        RectF(points[i].screenPositionX - hb, innerFrame.top,
              points[i].screenPositionX + hb, innerFrame.bottom))
  }

  /**
   * A background column has its bar's left and right edges, and contains the bar
   * exactly when the point does not rise above the inner frame's top.
   */
  lemma BackgroundContainsBar(points: seq<DataPoint>, innerFrame: Frame, spacing: real, i: int)
    requires 0 <= i < |points|
    ensures DrawBarsBackground(points, innerFrame, spacing)[i].left == DrawBars(points, innerFrame, spacing)[i].left
    ensures DrawBarsBackground(points, innerFrame, spacing)[i].right == DrawBars(points, innerFrame, spacing)[i].right
    ensures Contains(DrawBarsBackground(points, innerFrame, spacing)[i], DrawBars(points, innerFrame, spacing)[i])
            <==> innerFrame.top <= points[i].screenPositionY
  {
  }

  /** `drawLabels`: each label's formatted text at exactly the label's position. */
  function DrawLabels(labels: seq<Label>, displayInteger: bool, number: LabelFormatting.NumberText): (ops: seq<CanvasOp>)
    ensures |ops| == |labels|
    ensures forall i :: 0 <= i < |labels| ==>
              ops[i] == DrawText(LabelFormatting.GetFormattedLabel(labels[i].text, displayInteger, number),
                                 labels[i].screenPositionX, labels[i].screenPositionY)
  {
    seq(|labels|, i requires 0 <= i < |labels| =>
      DrawText(LabelFormatting.GetFormattedLabel(labels[i].text, displayInteger, number),
               labels[i].screenPositionX, labels[i].screenPositionY))
  }

  /** Offset of the tooltip text above the bar label's position. */
  const ToolTipTextOffset: real := 10.0

  /** `drawToolTip`: fill the bar's rectangle, then write its value above its label. */
  function DrawToolTip(bar: Bar): (ops: seq<CanvasOp>)
    ensures |ops| == 2
    ensures ops[0] == DrawChartBar(bar.rectF)
    ensures ops[1].DrawText? && ops[1].text == bar.value && ops[1].x == bar.barLabel.screenPositionX
    ensures ops[1].y + ToolTipTextOffset == bar.barLabel.screenPositionY
  {
    [DrawChartBar(bar.rectF),
     DrawText(bar.value, bar.barLabel.screenPositionX, bar.barLabel.screenPositionY - ToolTipTextOffset)]
  }
}
