/** The records the chart is configured with (Models.swift). Every `CGFloat`
    field is a `real`; `count` and `step` are integers. */
module Models {
  /** A colour handed through to the drawing substrate untouched. */
  datatype Color = Rgba(red: real, green: real, blue: real, alpha: real) | Gray(white: real, alpha: real)

  /** One column of the chart: its caption, its magnitude and whether it is emphasised. */
  datatype Bar = Bar(description: string, value: real, isSelected: bool)

  datatype BarConfig = BarConfig(color: Color, cornerRadius: real, space: real, width: real)

  datatype TextConfig = TextConfig(fontSize: real, color: Color, offset: real)

  /** `width` is the stroke width of a grid line, `offset` the top padding of the
      axis, `count` the number of divisions above zero and `step` the value of one. */
  datatype GridConfig = GridConfig(width: real, color: Color, offset: real, count: int, step: int)

  datatype ViewConfig = ViewConfig(
    barConfig: BarConfig,
    textConfig: TextConfig,
    gridConfig: GridConfig,
    viewBackgroundColor: Color)
}
