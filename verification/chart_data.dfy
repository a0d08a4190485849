/**
 * Value types of the chart core: frames, paddings, scale, labels, data points,
 * bars and the bar-chart configuration record. Kotlin `Float` is modelled as
 * `real` and `Int` as `int`; rounding and NaN are not modelled.
 */
module ChartData {

  /** Axis-aligned rectangle in pixel space (data/Frame.kt is not part of this model). */
  datatype Frame = Frame(left: real, top: real, right: real, bottom: real)

  /** Insets between the outer and the inner frame. */
  datatype Paddings = Paddings(left: real, top: real, right: real, bottom: real)

  /** Bounds of the value axis. */
  datatype Scale = Scale(min: real, max: real) {
    /** `Scale.size`: the length of the value range. */
    function Size(): real {
      max - min
    }
  }

  /** A positioned axis tick or category label (Kotlin field `label` is `text` here, `label` being a Dafny keyword). */
  datatype Label = Label(text: string, screenPositionX: real, screenPositionY: real)

  /** One datum bound to its category label, with the screen position layout assigns. */
  datatype DataPoint = DataPoint(labelText: string, value: real, screenPositionX: real, screenPositionY: real)

  /** Android's `RectF`. */
  datatype RectF = RectF(left: real, top: real, right: real, bottom: real)

  /** Resolved geometry of one bar: its formatted value, its label (Kotlin `label`) and its rectangle. */
  datatype Bar = Bar(value: string, barLabel: Label, rectF: RectF)

  /** Which axes carry labels. */
  datatype AxisType = NONE | X | Y | XY {
    predicate ShouldDisplayAxisX() {
      this == X || this == XY
    }

    predicate ShouldDisplayAxisY() {
      this == Y || this == XY
    }
  }

  /**
   * The bar-chart configuration record, fields in declaration order, so that a
   * positional construction `BarChartConfiguration(a, b, ...)` is the Kotlin one.
   */
  datatype BarChartConfiguration = BarChartConfiguration(
    width: int,
    height: int,
    paddings: Paddings,
    axis: AxisType,
    labelsSize: real,
    scale: Scale,
    spacing: real,
    labelsFormatter: real -> string,
    barsBackgroundColor: int,
    displayInteger: bool
  )

  /**
   * The properties of a bar view that its `chartConfiguration` getter reads:
   * the measured size and paddings of the Android view, the axis-chart
   * properties and the bar-specific `spacing` and `barsBackgroundColor`.
   */
  datatype BarViewProperties = BarViewProperties(
    measuredWidth: int,
    measuredHeight: int,
    paddingLeft: int,
    paddingTop: int,
    paddingRight: int,
    paddingBottom: int,
    axis: AxisType,
    labelsSize: real,
    scale: Scale,
    labelsFormatter: real -> string,
    displayInteger: bool,
    spacing: real,
    barsBackgroundColor: int
  )

  /** Text measurements of the label paint (Painter.kt is not part of this model). */
  datatype Painter = Painter(
    measureLabelWidth: (string, real) -> real,
    measureLabelHeight: real -> real,
    measureLabelAscent: real -> real,
    measureLabelDescent: real -> real
  )

  /** What a canvas is asked to paint. */
  datatype CanvasOp =
    | DrawChartBar(rect: RectF)
    | DrawText(text: string, x: real, y: real)

  /** `rect` lies inside `outer`. */
  predicate Contains(outer: RectF, rect: RectF) {
    outer.left <= rect.left && rect.right <= outer.right &&
    outer.top <= rect.top && rect.bottom <= outer.bottom
  }

  /** The texts of a label list, positions ignored. */
  function Texts(labels: seq<Label>): (texts: seq<string>)
    ensures |texts| == |labels|
    ensures forall i :: 0 <= i < |labels| ==> texts[i] == labels[i].text
  {
    seq(|labels|, i requires 0 <= i < |labels| => labels[i].text)
  }

  /** The values of a data-point list, positions ignored. */
  function Values(points: seq<DataPoint>): (values: seq<real>)
    ensures |values| == |points|
    ensures forall i :: 0 <= i < |points| ==> values[i] == points[i].value
  {
    seq(|points|, i requires 0 <= i < |points| => points[i].value)
  }
}
