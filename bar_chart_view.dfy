/** BarChartView: the scroll view that owns the root layer, rebuilds it when its
    size changes and lays the chart out on it step by step. */
module BarChartViews {
  import opened Models
  import opened Geometry
  import opened Extrema
  import opened Layers
  import opened Layout

  datatype Option<T> = None | Some(value: T)

  class BarChartView {
    const viewConfig: ViewConfig
    const bars: seq<Bar>
    /** The natural sizes of the axis labels, bottom first (text measurement is
        done by the drawing substrate). */
    const labelSizes: seq<Size>

    /** Set by the host's layout before it calls LayoutSubviews. */
    var bounds: Size
    /** The size the chart was last drawn for. */
    var currentSize: Option<Size>
    /** The root layer's sublayers, bottom-most first. */
    var sublayers: seq<Layer>
    var rootFrame: Rect
    /** The scrollable content width. */
    var contentWidth: real

    predicate Valid() {
      Measured(viewConfig, labelSizes)
    }

    constructor (viewConfig: ViewConfig, bars: seq<Bar>, labelSizes: seq<Size>)
      requires Measured(viewConfig, labelSizes)
      ensures Valid()
      ensures this.viewConfig == viewConfig && this.bars == bars && this.labelSizes == labelSizes
      ensures bounds == Size(0.0, 0.0) && currentSize == None
      ensures sublayers == [] && rootFrame == ZeroRect && contentWidth == 0.0
    {
      this.viewConfig := viewConfig;
      this.bars := bars;
      this.labelSizes := labelSizes;
      bounds := Size(0.0, 0.0);
      currentSize := None;
      sublayers := [];
      rootFrame := ZeroRect;
      contentWidth := 0.0;
    }

    /** Redraws from scratch when, and only when, the size differs from the one last drawn. */
    method LayoutSubviews()
      requires Valid()
      modifies this`currentSize, this`sublayers, this`rootFrame, this`contentWidth
      ensures old(currentSize) == Some(bounds) ==> unchanged(this)
      ensures old(currentSize) != Some(bounds) ==>
        && currentSize == Some(bounds)
        && sublayers == Render(viewConfig, bars, bounds, labelSizes).layers
        && contentWidth == Render(viewConfig, bars, bounds, labelSizes).contentWidth
        && rootFrame == Rect(0.0, 0.0, contentWidth, bounds.height)
    {
      if currentSize != Some(bounds) {
        sublayers := [];
        currentSize := Some(bounds);
        DrawBarChart();
      }
    }

    method DrawBarChart()
      requires Valid() && sublayers == []
      modifies this`sublayers, this`rootFrame, this`contentWidth
      ensures sublayers == Render(viewConfig, bars, bounds, labelSizes).layers
      ensures contentWidth == Render(viewConfig, bars, bounds, labelSizes).contentWidth
      ensures rootFrame == Rect(0.0, 0.0, contentWidth, bounds.height)
    {
      ghost var h := bounds.height;
      var textFrames := AddTextColumn();
      var barStartXPoint := BarStartX(textFrames);
      var gridLinesOrigin := GridAnchors(textFrames);
      assert gridLinesOrigin == Anchors(viewConfig, h, labelSizes);
      var barViewModels := BarViewModels(viewConfig, bars, gridLinesOrigin);

      DrawBars(barViewModels, barStartXPoint);
      assert sublayers == DrawnLayers(viewConfig, bars, h, labelSizes);

      var rootLayerMaxX := LayersMaxX(sublayers);
      rootFrame := Rect(0.0, 0.0, Max(rootLayerMaxX, bounds.width), bounds.height);
      contentWidth := Max(rootLayerMaxX, bounds.width);
      assert contentWidth == ContentWidth(viewConfig, bars, bounds, labelSizes);
      AddHorizontalGrid(gridLinesOrigin);
    }

    /** Places bar captions and bars left to right with a running cursor. */
    method DrawBars(models: seq<BarViewModel>, startXPoint: real)
      modifies this`sublayers
      ensures sublayers == old(sublayers) + BarPairs(viewConfig, bounds.height, models, startXPoint)
    {
      var previousX := startXPoint;
      var i := 0;
      while i < |models|
        invariant 0 <= i <= |models|
        invariant previousX == startXPoint + (i as real) * Advance(viewConfig)
        invariant sublayers == old(sublayers) + BarPairs(viewConfig, bounds.height, models[..i], startXPoint)
      {
        var bar := models[i];
        var xPosition := previousX;
        var yPosition := bounds.height
          - viewConfig.textConfig.offset
          - viewConfig.textConfig.fontSize
          - viewConfig.textConfig.offset
          - bar.height;
        var barLayer := CreateBar(viewConfig, bar, Point(xPosition, yPosition));
        var textLayer := CreateXTextLayer(viewConfig, bar, barLayer.frame.Origin());

        assert xPosition + viewConfig.barConfig.space == BarLeft(viewConfig, startXPoint, i);
        assert [textLayer, barLayer] == BarPair(viewConfig, bounds.height, startXPoint, i, bar);

        sublayers := sublayers + [textLayer];
        sublayers := sublayers + [barLayer];

        previousX := barLayer.frame.MaxX();
        assert models[..i + 1][..i] == models[..i];
        i := i + 1;
      }
      assert models[..i] == models;
    }

    /** Adds the `count + 1` axis labels, all widened to the widest, and returns their frames. */
    method AddTextColumn() returns (frames: seq<Rect>)
      requires Valid()
      modifies this`sublayers
      ensures frames == AxisFrames(viewConfig, bounds.height, labelSizes)
      ensures sublayers == old(sublayers) + AxisLayers(viewConfig, bounds.height, labelSizes)
    {
      var count := viewConfig.gridConfig.count;
      ghost var h := bounds.height;
      var minY := viewConfig.gridConfig.offset;
      var maxY := bounds.height
        - viewConfig.textConfig.offset
        - viewConfig.textConfig.fontSize
        - viewConfig.textConfig.offset;
      var height := maxY - minY;
      var stepHeight := height / (count as real);
      assert maxY == MaxY(viewConfig, h) && stepHeight == StepHeight(viewConfig, h);

      var maxWidth := 0.0;
      var textLayers: seq<Layer> := [];
      var scaleNumber := 0;
      while scaleNumber <= count
        invariant 0 <= scaleNumber <= count + 1
        invariant maxY == MaxY(viewConfig, h) && stepHeight == StepHeight(viewConfig, h)
        invariant maxWidth == MaxNaturalWidth(labelSizes, scaleNumber)
        invariant |textLayers| == scaleNumber
        invariant forall k :: 0 <= k < scaleNumber ==> textLayers[k] == NaturalAxisLayer(viewConfig, h, labelSizes, k)
      {
        var y := maxY - (scaleNumber as real) * stepHeight;
        var textLayer := CreateYTextLayer(Point(0.0, y), scaleNumber * viewConfig.gridConfig.step, labelSizes[scaleNumber]);
        assert textLayer == NaturalAxisLayer(viewConfig, h, labelSizes, scaleNumber);
        maxWidth := Max(maxWidth, textLayer.frame.width);
        textLayers := textLayers + [textLayer];
        scaleNumber := scaleNumber + 1;
      }

      assert maxWidth == AxisWidth(labelSizes);
      var widened := WidenAndAdd(textLayers, maxWidth);
      WidenedAreAxisLayers(viewConfig, h, labelSizes, textLayers, widened);
      frames := Frames(widened);
    }

    /** The `forEach` of addTextColumn: sets every label's width to `maxWidth` and
        adds it to the root layer, in order. */
    method WidenAndAdd(textLayers: seq<Layer>, maxWidth: real) returns (widened: seq<Layer>)
      modifies this`sublayers
      ensures |widened| == |textLayers|
      ensures forall k :: 0 <= k < |textLayers| ==> widened[k] == textLayers[k].WithWidth(maxWidth)
      ensures sublayers == old(sublayers) + widened
    {
      widened := textLayers;
      var i := 0;
      while i < |widened|
        invariant 0 <= i <= |widened| == |textLayers|
        invariant forall k :: 0 <= k < i ==> widened[k] == textLayers[k].WithWidth(maxWidth)
        invariant forall k :: i <= k < |widened| ==> widened[k] == textLayers[k]
        invariant sublayers == old(sublayers) + widened[..i]
      {
        widened := widened[i := widened[i].WithWidth(maxWidth)];
        sublayers := sublayers + [widened[i]];
        i := i + 1;
      }
    }

    /** Draws one grid line per anchor, out to the content width. */
    method AddHorizontalGrid(startPoints: seq<Point>)
      modifies this`sublayers
      ensures sublayers == ReversedGridLines(startPoints, contentWidth) + old(sublayers)
    {
      var i := 0;
      while i < |startPoints|
        invariant 0 <= i <= |startPoints|
        invariant sublayers == ReversedGridLines(startPoints[..i], contentWidth) + old(sublayers)
      {
        var endPoint := Point(contentWidth, startPoints[i].y);
        DrawLine(startPoints[i], endPoint);
        assert ReversedGridLines(startPoints[..i + 1], contentWidth)
          == [GridLine(startPoints[i], contentWidth)] + ReversedGridLines(startPoints[..i], contentWidth);
        i := i + 1;
      }
      assert startPoints[..i] == startPoints;
    }

    /** Puts a line shape layer underneath everything drawn so far. */
    method DrawLine(p0: Point, p1: Point)
      modifies this`sublayers
      ensures sublayers == [LineLayer(ZeroRect, p0, p1)] + old(sublayers)
    {
      sublayers := [LineLayer(ZeroRect, p0, p1)] + sublayers;
    }
  }
}
