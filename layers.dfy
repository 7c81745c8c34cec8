/** The layers the chart puts on its root layer, as values: text layers (axis
    labels and bar captions), bar layers and dashed grid-line shape layers. */
module Layers {
  import opened Geometry

  /** What a text layer shows: an axis value or a bar's own caption. */
  datatype Text = Number(value: int) | Caption(chars: string)

  /** Every layer has a frame; a line's shape layer keeps the zero frame and
      draws its path from `start` to `end` outside it. */
  datatype Layer =
    | TextLayer(frame: Rect, text: Text)
    | BarLayer(frame: Rect, opacity: real)
    | LineLayer(frame: Rect, start: Point, end: Point)
  {
    function FrameMaxX(): real { frame.MaxX() }

    /** The same layer with its frame widened (or narrowed) to `w`. */
    function WithWidth(w: real): Layer {
      this.(frame := frame.(width := w))
    }
  }
}
