/**
 * The pure parts of the horizontal bar view: its configuration getter, the bar
 * and background rectangles it paints, and what it draws for labels and for a
 * tooltip. Bars grow rightwards from the inner frame's left edge to the
 * point's x, centred vertically on the point's y.
 */
module HorizontalBarChartView {
  import opened ChartData
  import LabelFormatting
  import BarChartView

  /**
   * The `chartConfiguration` getter: a record built with positional arguments,
   * which Dafny binds in declaration order exactly as Kotlin does.
   */
  function ChartConfiguration(v: BarViewProperties): (c: BarChartConfiguration)
    ensures c.spacing == v.spacing
    ensures c.barsBackgroundColor == v.barsBackgroundColor
    ensures c.displayInteger == v.displayInteger
    ensures c.labelsFormatter == v.labelsFormatter
    ensures c.axis == v.axis && c.labelsSize == v.labelsSize && c.scale == v.scale
    ensures c.width == v.measuredWidth && c.height == v.measuredHeight
    ensures c.paddings == Paddings(v.paddingLeft as real, v.paddingTop as real,
                                   v.paddingRight as real, v.paddingBottom as real)
  {
    BarChartConfiguration(
      v.measuredWidth,
      v.measuredHeight,
      Paddings(v.paddingLeft as real, v.paddingTop as real,
               v.paddingRight as real, v.paddingBottom as real),
      v.axis,
      v.labelsSize,
      v.scale,
      v.spacing,
      v.labelsFormatter,
      v.barsBackgroundColor,
      v.displayInteger)
  }

  /** The positional getter builds the same record as the vertical view's named one. */
  lemma ConfigurationMatchesBarChartView(v: BarViewProperties)
    ensures ChartConfiguration(v) == BarChartView.ChartConfiguration(v)
  {
  }

  /** Half the height of one bar when `count` bars and `count + 1` gaps share the inner height. */
  function HalfBarHeight(innerFrame: Frame, count: nat, spacing: real): real
    requires count > 0
  {
    (innerFrame.bottom - innerFrame.top - (count + 1) as real * spacing) / count as real / 2.0
  }

  /** `drawBars`: one rectangle per point, in point order. */
  function DrawBars(points: seq<DataPoint>, innerFrame: Frame, spacing: real): (rects: seq<RectF>)
    ensures |rects| == |points|
    ensures forall i :: 0 <= i < |points| ==>
              && rects[i].left == innerFrame.left
              && rects[i].right == points[i].screenPositionX
              && (rects[i].top + rects[i].bottom) / 2.0 == points[i].screenPositionY
    // the bars and the gaps around them exactly fill the inner height
    ensures forall i :: 0 <= i < |points| ==>
              |points| as real * (rects[i].bottom - rects[i].top) + (|points| + 1) as real * spacing
              == innerFrame.bottom - innerFrame.top
  {
    if |points| == 0 then []
    else
      var hb := HalfBarHeight(innerFrame, |points|, spacing);
      seq(|points|, i requires 0 <= i < |points| =>
        RectF(innerFrame.left, points[i].screenPositionY - hb,
              points[i].screenPositionX, points[i].screenPositionY + hb))
  }

  /** `drawBarsBackground`: one full-width band per point, in point order. */
  function DrawBarsBackground(points: seq<DataPoint>, innerFrame: Frame, spacing: real): (rects: seq<RectF>)
    ensures |rects| == |points|
    ensures forall i :: 0 <= i < |points| ==>
              && rects[i].left == innerFrame.left && rects[i].right == innerFrame.right
              && (rects[i].top + rects[i].bottom) / 2.0 == points[i].screenPositionY
  {
    if |points| == 0 then []
    else
      var hb := HalfBarHeight(innerFrame, |points|, spacing);
      seq(|points|, i requires 0 <= i < |points| =>
        RectF(innerFrame.left, points[i].screenPositionY - hb,
              innerFrame.right, points[i].screenPositionY + hb))
  }

  /**
   * A background band has its bar's top and bottom edges, and contains the bar
   * exactly when the bar does not reach past the inner frame's right edge.
   */
  lemma BackgroundContainsBar(points: seq<DataPoint>, innerFrame: Frame, spacing: real, i: int)
    requires 0 <= i < |points|
    ensures DrawBarsBackground(points, innerFrame, spacing)[i].top == DrawBars(points, innerFrame, spacing)[i].top
    ensures DrawBarsBackground(points, innerFrame, spacing)[i].bottom == DrawBars(points, innerFrame, spacing)[i].bottom
    ensures Contains(DrawBarsBackground(points, innerFrame, spacing)[i], DrawBars(points, innerFrame, spacing)[i])
            <==> points[i].screenPositionX <= innerFrame.right
  {
  }

  /** `drawLabels`: each label's text, unformatted, at exactly the label's position. */
  function DrawLabels(labels: seq<Label>): (ops: seq<CanvasOp>)
    ensures |ops| == |labels|
    ensures forall i :: 0 <= i < |labels| ==>
              ops[i] == DrawText(labels[i].text, labels[i].screenPositionX, labels[i].screenPositionY)
  {
    seq(|labels|, i requires 0 <= i < |labels| =>
      DrawText(labels[i].text, labels[i].screenPositionX, labels[i].screenPositionY))
  }

  /**
   * The two views draw the same label texts at the same places whenever no
   * label parses as a number; they differ only in the vertical view's formatting.
   */
  lemma DrawLabelsAgreeOnNonNumericText(labels: seq<Label>, displayInteger: bool, number: LabelFormatting.NumberText)
    requires forall i :: 0 <= i < |labels| ==> number.toFloatOrNull(labels[i].text).None?
    ensures DrawLabels(labels) == BarChartView.DrawLabels(labels, displayInteger, number)
  {
  }

  /** `drawToolTip`: fill the bar's rectangle; no text is drawn. */
  function DrawToolTip(bar: Bar): (ops: seq<CanvasOp>)
    ensures ops == [DrawChartBar(bar.rectF)]
  {
    [DrawChartBar(bar.rectF)]
  }

  /** The horizontal tooltip is the vertical view's tooltip without its value text. */
  lemma ToolTipOmitsValueText(bar: Bar)
    ensures DrawToolTip(bar) == BarChartView.DrawToolTip(bar)[..1]
    ensures forall k :: 0 <= k < |DrawToolTip(bar)| ==> !DrawToolTip(bar)[k].DrawText?
  {
  }
}
