/** The layout arithmetic of BarChartView.swift as functions: where the axis
    labels, grid anchors, bars, bar captions and grid lines go for one size of
    the view. These functions are the specification the view's methods are
    proved against; the facts about them are in LayoutProperties. */
module Layout {
  import opened Models
  import opened Geometry
  import opened Extrema
  import opened Layers

  /** The configurations for which the layout is defined: the labels are numbered
      `0 ... count`, a range that traps for a negative `count`; the axis height is
      divided by `count` and the value scale by `count * step`, so neither may be zero. */
  predicate WellFormed(cfg: ViewConfig) {
    cfg.gridConfig.count >= 1 && cfg.gridConfig.step != 0
  }

  /** A size a text layer reports as its preferred frame size: never negative. */
  predicate NaturalSize(size: Size) {
    size.width >= 0.0 && size.height >= 0.0
  }

  /** Text measurement is done by the drawing substrate: `labelSizes[k]` is the
      natural size of axis label `k`, whose text is the decimal form of LabelValue(cfg, k). */
  predicate Measured(cfg: ViewConfig, labelSizes: seq<Size>) {
    && WellFormed(cfg)
    && |labelSizes| == cfg.gridConfig.count + 1
    && forall k :: 0 <= k < |labelSizes| ==> NaturalSize(labelSizes[k])
  }

  /** The zero line: the view's height less one caption row and its padding above and below. */
  function MaxY(cfg: ViewConfig, boundsHeight: real): real {
    boundsHeight - cfg.textConfig.offset - cfg.textConfig.fontSize - cfg.textConfig.offset
  }

  /** The top line of the axis. */
  function MinY(cfg: ViewConfig): real {
    cfg.gridConfig.offset
  }

  /** The vertical distance between two neighbouring axis labels. */
  function StepHeight(cfg: ViewConfig, boundsHeight: real): real
    requires WellFormed(cfg)
  {
    (MaxY(cfg, boundsHeight) - MinY(cfg)) / (cfg.gridConfig.count as real)
  }

  /** The value written on axis label `k`. */
  function LabelValue(cfg: ViewConfig, k: int): int {
    k * cfg.gridConfig.step
  }

  /** The vertical centre of axis label `k`. */
  function AxisLabelY(cfg: ViewConfig, boundsHeight: real, k: int): real
    requires WellFormed(cfg)
  {
    MaxY(cfg, boundsHeight) - (k as real) * StepHeight(cfg, boundsHeight)
  }

  /** createYTextLayer: a text layer of its natural size, centred vertically on `point`. */
  function CreateYTextLayer(point: Point, value: int, size: Size): Layer {
    TextLayer(Rect(point.x, point.y - size.height / 2.0, size.width, size.height), Number(value))
  }

  /** Axis label `k` before it is widened to the common width. */
  function NaturalAxisLayer(cfg: ViewConfig, boundsHeight: real, labelSizes: seq<Size>, k: int): Layer
    requires WellFormed(cfg) && 0 <= k < |labelSizes|
  {
    CreateYTextLayer(Point(0.0, AxisLabelY(cfg, boundsHeight, k)), LabelValue(cfg, k), labelSizes[k])
  }

  /** The largest natural width among the first `n` axis labels, starting from
      zero (that it is attained is MaxNaturalWidthAttained). */
  function MaxNaturalWidth(labelSizes: seq<Size>, n: nat): (w: real)
    requires n <= |labelSizes|
    ensures w >= 0.0
    ensures forall k :: 0 <= k < n ==> labelSizes[k].width <= w
  {
    if n == 0 then 0.0
    else Max(MaxNaturalWidth(labelSizes, n - 1), labelSizes[n - 1].width)
  }

  /** The common width of all axis labels. */
  function AxisWidth(labelSizes: seq<Size>): real {
    MaxNaturalWidth(labelSizes, |labelSizes|)
  }

  /** The `count + 1` axis labels, bottom (value 0) first, each widened to AxisWidth. */
  function AxisLayers(cfg: ViewConfig, boundsHeight: real, labelSizes: seq<Size>): seq<Layer>
    requires Measured(cfg, labelSizes)
  {
    seq(|labelSizes|, k requires 0 <= k < |labelSizes| =>
      NaturalAxisLayer(cfg, boundsHeight, labelSizes, k).WithWidth(AxisWidth(labelSizes)))
  }

  /** Natural axis labels widened one by one to AxisWidth are the axis labels. */
  lemma WidenedAreAxisLayers(cfg: ViewConfig, boundsHeight: real, labelSizes: seq<Size>, natural: seq<Layer>, widened: seq<Layer>)
    requires Measured(cfg, labelSizes)
    requires |natural| == |widened| == cfg.gridConfig.count + 1
    requires forall k :: 0 <= k < |natural| ==> natural[k] == NaturalAxisLayer(cfg, boundsHeight, labelSizes, k)
    requires forall k :: 0 <= k < |natural| ==> widened[k] == natural[k].WithWidth(AxisWidth(labelSizes))
    ensures widened == AxisLayers(cfg, boundsHeight, labelSizes)
  {
  }

  function Frames(layers: seq<Layer>): seq<Rect> {
    seq(|layers|, i requires 0 <= i < |layers| => layers[i].frame)
  }

  /** The frames addTextColumn returns. */
  function AxisFrames(cfg: ViewConfig, boundsHeight: real, labelSizes: seq<Size>): seq<Rect>
    requires Measured(cfg, labelSizes)
  {
    Frames(AxisLayers(cfg, boundsHeight, labelSizes))
  }

  /** The grid-line origins: each frame's right edge at its vertical middle. */
  function GridAnchors(frames: seq<Rect>): seq<Point> {
    seq(|frames|, i requires 0 <= i < |frames| => Point(frames[i].MaxX(), frames[i].MidY()))
  }

  /** Where the bars start: the largest right edge among the frames, or zero. */
  function BarStartX(frames: seq<Rect>): real {
    MaxOr(seq(|frames|, i requires 0 <= i < |frames| => frames[i].MaxX()), 0.0)
  }

  /** A bar together with its height on screen. */
  datatype BarViewModel = BarViewModel(bar: Bar, height: real)

  /** The vertical spread of the anchors: highest y less lowest y. */
  function HeightAvailable(anchors: seq<Point>): real {
    var ys := seq(|anchors|, i requires 0 <= i < |anchors| => anchors[i].y);
    MaxOr(ys, 0.0) - MinOr(ys, 0.0)
  }

  /** getReducedHeight: the value scaled so that `count * step` spans the available height. */
  function ReducedHeight(cfg: ViewConfig, currentHeight: real, maxAvailableHeight: real): real
    requires WellFormed(cfg)
  {
    maxAvailableHeight / ((cfg.gridConfig.step * cfg.gridConfig.count) as real) * currentHeight
  }

  /** createBarViewModels */
  function BarViewModels(cfg: ViewConfig, bars: seq<Bar>, anchors: seq<Point>): seq<BarViewModel>
    requires WellFormed(cfg)
  {
    var available := HeightAvailable(anchors);
    seq(|bars|, i requires 0 <= i < |bars| =>
      BarViewModel(bars[i], ReducedHeight(cfg, bars[i].value, available)))
  }

  function Opacity(bar: Bar): real {
    if bar.isSelected then 1.0 else 0.5
  }

  /** createBar: the bar rectangle, one gutter to the right of `point`. */
  function CreateBar(cfg: ViewConfig, model: BarViewModel, point: Point): Layer {
    BarLayer(Rect(point.x + cfg.barConfig.space, point.y, cfg.barConfig.width, model.height), Opacity(model.bar))
  }

  /** createXTextLayer: the caption under a bar whose origin is `point`. */
  function CreateXTextLayer(cfg: ViewConfig, model: BarViewModel, point: Point): Layer {
    TextLayer(
      Rect(point.x, point.y + model.height + cfg.textConfig.offset, cfg.barConfig.width, cfg.textConfig.fontSize),
      Caption(model.bar.description))
  }

  /** How far the horizontal cursor moves per bar: the gutter and the bar's extent. */
  function Advance(cfg: ViewConfig): real {
    cfg.barConfig.space + Max(cfg.barConfig.width, 0.0)
  }

  /** The left edge of bar `i`, in closed form. */
  function BarLeft(cfg: ViewConfig, startX: real, i: nat): real {
    startX + ((i + 1) as real) * cfg.barConfig.space + (i as real) * Max(cfg.barConfig.width, 0.0)
  }

  /** The rectangle of bar `i` of the given height, standing on the zero line. */
  function BarFrame(cfg: ViewConfig, boundsHeight: real, startX: real, i: nat, height: real): Rect {
    Rect(BarLeft(cfg, startX, i), MaxY(cfg, boundsHeight) - height, cfg.barConfig.width, height)
  }

  /** Bar `i`'s caption and bar, in the order they are added. */
  function BarPair(cfg: ViewConfig, boundsHeight: real, startX: real, i: nat, model: BarViewModel): seq<Layer> {
    var f := BarFrame(cfg, boundsHeight, startX, i, model.height);
    [ TextLayer(
        Rect(f.x, MaxY(cfg, boundsHeight) + cfg.textConfig.offset, cfg.barConfig.width, cfg.textConfig.fontSize),
        Caption(model.bar.description)),
      BarLayer(f, Opacity(model.bar)) ]
  }

  /** All captions and bars, left to right. */
  function BarPairs(cfg: ViewConfig, boundsHeight: real, models: seq<BarViewModel>, startX: real): seq<Layer>
    decreases |models|
  {
    if |models| == 0 then []
    else
      var n := |models| - 1;
      BarPairs(cfg, boundsHeight, models[..n], startX) + BarPair(cfg, boundsHeight, startX, n, models[n])
  }

  /** The largest right edge among the layers, or zero. */
  function LayersMaxX(layers: seq<Layer>): real {
    MaxOr(seq(|layers|, i requires 0 <= i < |layers| => layers[i].FrameMaxX()), 0.0)
  }

  /** A horizontal grid line from an anchor to the right end of the content. */
  function GridLine(anchor: Point, contentWidth: real): Layer {
    LineLayer(ZeroRect, anchor, Point(contentWidth, anchor.y))
  }

  /** The grid lines as they end up at the bottom of the layer list: each one is
      inserted in front, so the last anchor's line comes first. */
  function ReversedGridLines(anchors: seq<Point>, contentWidth: real): seq<Layer> {
    seq(|anchors|, i requires 0 <= i < |anchors| => GridLine(anchors[|anchors| - 1 - i], contentWidth))
  }

  /** The outcome of one drawing pass on an empty root layer. */
  datatype Plan = Plan(layers: seq<Layer>, contentWidth: real)

  /** The grid anchors for a view of the given height. */
  function Anchors(cfg: ViewConfig, boundsHeight: real, labelSizes: seq<Size>): seq<Point>
    requires Measured(cfg, labelSizes)
  {
    GridAnchors(AxisFrames(cfg, boundsHeight, labelSizes))
  }

  /** The axis labels, then each bar's caption and bar: everything drawn before the grid. */
  function DrawnLayers(cfg: ViewConfig, bars: seq<Bar>, boundsHeight: real, labelSizes: seq<Size>): seq<Layer>
    requires Measured(cfg, labelSizes)
  {
    var frames := AxisFrames(cfg, boundsHeight, labelSizes);
    AxisLayers(cfg, boundsHeight, labelSizes)
      + BarPairs(cfg, boundsHeight, BarViewModels(cfg, bars, GridAnchors(frames)), BarStartX(frames))
  }

  /** The content width: the drawn layers' right edge, but never less than the view. */
  function ContentWidth(cfg: ViewConfig, bars: seq<Bar>, bounds: Size, labelSizes: seq<Size>): real
    requires Measured(cfg, labelSizes)
  {
    Max(LayersMaxX(DrawnLayers(cfg, bars, bounds.height, labelSizes)), bounds.width)
  }

  /** drawBarChart on an empty root layer, for a view of size `bounds`. */
  function Render(cfg: ViewConfig, bars: seq<Bar>, bounds: Size, labelSizes: seq<Size>): Plan
    requires Measured(cfg, labelSizes)
  {
    var contentWidth := ContentWidth(cfg, bars, bounds, labelSizes);
    Plan(
      ReversedGridLines(Anchors(cfg, bounds.height, labelSizes), contentWidth)
        + DrawnLayers(cfg, bars, bounds.height, labelSizes),
      contentWidth)
  }
}
