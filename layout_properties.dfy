/** What the layout of BarChartView.swift guarantees, proved about the functions of Layout. */
module LayoutProperties {
  import opened Models
  import opened Geometry
  import opened Extrema
  import opened Layers
  import opened Layout

  /** A product of a non-negative factor keeps the order of the other factor. */
  lemma MulMono(a: real, b: real, c: real)
    requires a <= b && c >= 0.0
    ensures a * c <= b * c
  {
    assert b * c - a * c == (b - a) * c;
  }

  /** The widest natural width is one of the labels' widths, unless there are none
      wider than zero. */
  lemma {:induction false} MaxNaturalWidthAttained(labelSizes: seq<Size>, n: nat)
    requires n <= |labelSizes|
    ensures MaxNaturalWidth(labelSizes, n) == 0.0
      || exists k :: 0 <= k < n && MaxNaturalWidth(labelSizes, n) == labelSizes[k].width
  {
    if n > 0 {
      MaxNaturalWidthAttained(labelSizes, n - 1);
    }
  }

  /** addTextColumn makes `count + 1` labels showing 0, step, ..., count * step:
      ascending for a positive step, descending for a negative one. */
  lemma AxisLabelValues(cfg: ViewConfig, boundsHeight: real, labelSizes: seq<Size>)
    requires Measured(cfg, labelSizes)
    ensures |AxisLayers(cfg, boundsHeight, labelSizes)| == cfg.gridConfig.count + 1
    ensures forall k :: 0 <= k <= cfg.gridConfig.count ==>
      AxisLayers(cfg, boundsHeight, labelSizes)[k].text == Number(k * cfg.gridConfig.step)
    ensures forall k, j :: 0 <= k < j <= cfg.gridConfig.count ==>
      (cfg.gridConfig.step > 0 <==> LabelValue(cfg, k) < LabelValue(cfg, j))
  {
    forall k, j | 0 <= k < j <= cfg.gridConfig.count
      ensures cfg.gridConfig.step > 0 <==> LabelValue(cfg, k) < LabelValue(cfg, j)
    {
      assert LabelValue(cfg, j) - LabelValue(cfg, k) == (j - k) * cfg.gridConfig.step;
    }
  }

  /** Axis label `k` sits at x = 0 with the common width and its natural height,
      centred on AxisLabelY; its grid anchor is its right edge at that height. */
  lemma AxisLabelGeometry(cfg: ViewConfig, boundsHeight: real, labelSizes: seq<Size>, k: int)
    requires Measured(cfg, labelSizes) && 0 <= k <= cfg.gridConfig.count
    ensures var f := AxisFrames(cfg, boundsHeight, labelSizes)[k];
      && f.x == 0.0
      && f.width == AxisWidth(labelSizes) >= labelSizes[k].width
      && f.height == labelSizes[k].height
      && f.MidY() == AxisLabelY(cfg, boundsHeight, k)
    ensures Anchors(cfg, boundsHeight, labelSizes)[k] == Point(AxisWidth(labelSizes), AxisLabelY(cfg, boundsHeight, k))
  {
    var f := AxisFrames(cfg, boundsHeight, labelSizes)[k];
    var size := labelSizes[k];
    assert f == Rect(0.0, AxisLabelY(cfg, boundsHeight, k) - size.height / 2.0, AxisWidth(labelSizes), size.height);
  }

  /** Label 0 is centred on the zero line and label `count` on the top offset. */
  lemma AxisEnds(cfg: ViewConfig, boundsHeight: real)
    requires WellFormed(cfg)
    ensures AxisLabelY(cfg, boundsHeight, 0) == MaxY(cfg, boundsHeight)
    ensures AxisLabelY(cfg, boundsHeight, cfg.gridConfig.count) == MinY(cfg)
  {
    var c := cfg.gridConfig.count as real;
    var d := MaxY(cfg, boundsHeight) - MinY(cfg);
    assert c * (d / c) == d;
  }

  /** The labels go strictly upwards as their value grows exactly when the axis
      height is positive. */
  lemma AxisLabelsAscend(cfg: ViewConfig, boundsHeight: real, k: int, j: int)
    requires WellFormed(cfg)
    requires k < j
    ensures MaxY(cfg, boundsHeight) > MinY(cfg) <==> AxisLabelY(cfg, boundsHeight, j) < AxisLabelY(cfg, boundsHeight, k)
  {
    var s := StepHeight(cfg, boundsHeight);
    var c := cfg.gridConfig.count as real;
    assert s * c == MaxY(cfg, boundsHeight) - MinY(cfg);
    assert s > 0.0 <==> MaxY(cfg, boundsHeight) > MinY(cfg);
    assert AxisLabelY(cfg, boundsHeight, k) - AxisLabelY(cfg, boundsHeight, j) == ((j - k) as real) * s;
    assert ((j - k) as real) * s > 0.0 <==> s > 0.0;
  }

  /** Every anchor's height, read off the axis frames. */
  lemma AnchorYs(cfg: ViewConfig, boundsHeight: real, labelSizes: seq<Size>)
    requires Measured(cfg, labelSizes)
    ensures |Anchors(cfg, boundsHeight, labelSizes)| == |labelSizes|
    ensures forall k :: 0 <= k < |labelSizes| ==>
      Anchors(cfg, boundsHeight, labelSizes)[k] == Point(AxisWidth(labelSizes), AxisLabelY(cfg, boundsHeight, k))
  {
    forall k | 0 <= k < |labelSizes|
      ensures Anchors(cfg, boundsHeight, labelSizes)[k] == Point(AxisWidth(labelSizes), AxisLabelY(cfg, boundsHeight, k))
    {
      AxisLabelGeometry(cfg, boundsHeight, labelSizes, k);
    }
  }

  /** The bars start at the common label width, which is the widest natural label width. */
  lemma BarStartIsAxisWidth(cfg: ViewConfig, boundsHeight: real, labelSizes: seq<Size>)
    requires Measured(cfg, labelSizes)
    ensures BarStartX(AxisFrames(cfg, boundsHeight, labelSizes)) == AxisWidth(labelSizes)
    ensures forall k :: 0 <= k < |labelSizes| ==> labelSizes[k].width <= AxisWidth(labelSizes)
  {
    var frames := AxisFrames(cfg, boundsHeight, labelSizes);
    var xs := seq(|frames|, i requires 0 <= i < |frames| => frames[i].MaxX());
    forall i | 0 <= i < |xs| ensures xs[i] == AxisWidth(labelSizes) {
      AxisLabelGeometry(cfg, boundsHeight, labelSizes, i);
    }
    MaxOrIs(xs, 0.0, 0);
  }

  /** The value `k` steps of `s` down from `top` lies between the values 0 and `n`
      steps down: below the first and above the last for a non-negative step, the
      other way round for a negative one. */
  lemma StepsBetween(y0: real, yk: real, yn: real, top: real, s: real, k: nat, n: nat)
    requires k <= n
    requires y0 == top - (0 as real) * s && yk == top - (k as real) * s && yn == top - (n as real) * s
    ensures s >= 0.0 ==> yn <= yk <= y0
    ensures s < 0.0 ==> y0 <= yk <= yn
  {
    var t := if s >= 0.0 then s else -s;
    MulMono(0.0, k as real, t);
    MulMono(k as real, n as real, t);
  }

  /** When entry `lo` bounds a list from below and entry `hi` from above, its spread
      is the difference of the two. */
  lemma SpreadBetween(ys: seq<real>, lo: int, hi: int)
    requires 0 <= lo < |ys| && 0 <= hi < |ys|
    requires forall k :: 0 <= k < |ys| ==> ys[lo] <= ys[k] <= ys[hi]
    ensures MaxOr(ys, 0.0) - MinOr(ys, 0.0) == ys[hi] - ys[lo]
  {
    MaxOrIs(ys, 0.0, hi);
    MinOrIs(ys, 0.0, lo);
  }

  /** An evenly spaced list is bounded by its two ends. */
  lemma EvenlySpacedEnds(ys: seq<real>, top: real, s: real)
    requires |ys| >= 1
    requires forall k :: 0 <= k < |ys| ==> ys[k] == top - (k as real) * s
    ensures s >= 0.0 ==> forall k :: 0 <= k < |ys| ==> ys[|ys| - 1] <= ys[k] <= ys[0]
    ensures s < 0.0 ==> forall k :: 0 <= k < |ys| ==> ys[0] <= ys[k] <= ys[|ys| - 1]
  {
    var n := |ys| - 1;
    forall k | 0 <= k <= n
      ensures s >= 0.0 ==> ys[n] <= ys[k] <= ys[0]
      ensures s < 0.0 ==> ys[0] <= ys[k] <= ys[n]
    {
      StepsBetween(ys[0], ys[k], ys[n], top, s, k, n);
    }
  }

  /** The spread of an evenly spaced list is the distance between its ends. */
  lemma EvenlySpacedSpread(ys: seq<real>, top: real, s: real)
    requires |ys| >= 1
    requires forall k :: 0 <= k < |ys| ==> ys[k] == top - (k as real) * s
    ensures var d := ys[0] - ys[|ys| - 1];
      MaxOr(ys, 0.0) - MinOr(ys, 0.0) == if d >= 0.0 then d else -d
  {
    var n := |ys| - 1;
    EvenlySpacedEnds(ys, top, s);
    if s >= 0.0 {
      SpreadBetween(ys, n, 0);
    } else {
      SpreadBetween(ys, 0, n);
    }
  }

  /** The height available to the bars is the distance between the zero line and
      the top offset (the spread of the anchors, whichever way round they lie). */
  lemma HeightAvailableIsAxisHeight(cfg: ViewConfig, boundsHeight: real, labelSizes: seq<Size>)
    requires Measured(cfg, labelSizes)
    ensures var d := MaxY(cfg, boundsHeight) - MinY(cfg);
      HeightAvailable(Anchors(cfg, boundsHeight, labelSizes)) == if d >= 0.0 then d else -d
  {
    var anchors := Anchors(cfg, boundsHeight, labelSizes);
    var ys := seq(|anchors|, i requires 0 <= i < |anchors| => anchors[i].y);
    AnchorYs(cfg, boundsHeight, labelSizes);
    AxisEnds(cfg, boundsHeight);
    EvenlySpacedSpread(ys, MaxY(cfg, boundsHeight), StepHeight(cfg, boundsHeight));
  }

  /** getReducedHeight scales by available height per grid unit: the grid maximum
      `count * step` maps to the whole available height, zero to zero, and larger
      values beyond it, with no clamping. */
  lemma ReducedHeightScale(cfg: ViewConfig, value: real, available: real)
    requires WellFormed(cfg)
    ensures var gridMax := (cfg.gridConfig.count * cfg.gridConfig.step) as real;
      && ReducedHeight(cfg, value, available) * gridMax == available * value
      && ReducedHeight(cfg, 0.0, available) == 0.0
      && ReducedHeight(cfg, gridMax, available) == available
      && (gridMax > 0.0 && available > 0.0 && value > gridMax ==> ReducedHeight(cfg, value, available) > available)
  {
    var gridMax := (cfg.gridConfig.count * cfg.gridConfig.step) as real;
    assert gridMax == (cfg.gridConfig.step * cfg.gridConfig.count) as real;
    assert gridMax != 0.0;
    var unit := available / gridMax;
    assert unit * gridMax == available;
    if gridMax > 0.0 && available > 0.0 && value > gridMax {
      assert unit > 0.0;
      assert unit * value - unit * gridMax == unit * (value - gridMax);
    }
  }

  /** The bar height is linear in the value. */
  lemma ReducedHeightLinear(cfg: ViewConfig, u: real, v: real, c: real, available: real)
    requires WellFormed(cfg)
    ensures ReducedHeight(cfg, u + v, available) == ReducedHeight(cfg, u, available) + ReducedHeight(cfg, v, available)
    ensures ReducedHeight(cfg, c * v, available) == c * ReducedHeight(cfg, v, available)
  {
    var unit := available / ((cfg.gridConfig.step * cfg.gridConfig.count) as real);
    assert unit * (u + v) == unit * u + unit * v;
    assert unit * (c * v) == c * (unit * v);
  }

  lemma {:induction false} BarPairsLength(cfg: ViewConfig, boundsHeight: real, models: seq<BarViewModel>, startX: real)
    ensures |BarPairs(cfg, boundsHeight, models, startX)| == 2 * |models|
    decreases |models|
  {
    if |models| > 0 {
      BarPairsLength(cfg, boundsHeight, models[..|models| - 1], startX);
    }
  }

  /** Entries 2i and 2i+1 of the bar pairs are bar i's caption and bar: input order is kept. */
  lemma {:induction false} BarPairsAt(cfg: ViewConfig, boundsHeight: real, models: seq<BarViewModel>, startX: real, i: int)
    requires 0 <= i < |models|
    ensures |BarPairs(cfg, boundsHeight, models, startX)| == 2 * |models|
    ensures BarPairs(cfg, boundsHeight, models, startX)[2 * i] == BarPair(cfg, boundsHeight, startX, i, models[i])[0]
    ensures BarPairs(cfg, boundsHeight, models, startX)[2 * i + 1] == BarPair(cfg, boundsHeight, startX, i, models[i])[1]
    decreases |models|
  {
    var n := |models| - 1;
    BarPairsLength(cfg, boundsHeight, models, startX);
    BarPairsLength(cfg, boundsHeight, models[..n], startX);
    if i < n {
      BarPairsAt(cfg, boundsHeight, models[..n], startX, i);
    }
  }

  /** Layer `j` of the drawn layers: an axis label, then the bar pairs, which
      start at the labels' common width. */
  lemma DrawnLayerAt(cfg: ViewConfig, bars: seq<Bar>, h: real, labelSizes: seq<Size>, j: int)
    requires Measured(cfg, labelSizes) && 0 <= j < |labelSizes| + 2 * |bars|
    ensures |DrawnLayers(cfg, bars, h, labelSizes)| == |labelSizes| + 2 * |bars|
    ensures |BarPairs(cfg, h, BarViewModels(cfg, bars, Anchors(cfg, h, labelSizes)), AxisWidth(labelSizes))| == 2 * |bars|
    ensures j < |labelSizes| ==> DrawnLayers(cfg, bars, h, labelSizes)[j] == AxisLayers(cfg, h, labelSizes)[j]
    ensures j >= |labelSizes| ==>
      DrawnLayers(cfg, bars, h, labelSizes)[j]
      == BarPairs(cfg, h, BarViewModels(cfg, bars, Anchors(cfg, h, labelSizes)), AxisWidth(labelSizes))[j - |labelSizes|]
  {
    var frames := AxisFrames(cfg, h, labelSizes);
    BarStartIsAxisWidth(cfg, h, labelSizes);
    BarPairsLength(cfg, h, BarViewModels(cfg, bars, GridAnchors(frames)), BarStartX(frames));
    assert GridAnchors(frames) == Anchors(cfg, h, labelSizes);
    assert |AxisLayers(cfg, h, labelSizes)| == |labelSizes|;
  }

  /** Layer `j` of a drawing pass: the grid lines in reverse anchor order, then the drawn layers. */
  lemma RenderLayerAt(cfg: ViewConfig, bars: seq<Bar>, bounds: Size, labelSizes: seq<Size>, j: int)
    requires Measured(cfg, labelSizes) && 0 <= j < 2 * |labelSizes| + 2 * |bars|
    ensures Render(cfg, bars, bounds, labelSizes).contentWidth == ContentWidth(cfg, bars, bounds, labelSizes)
    ensures |Render(cfg, bars, bounds, labelSizes).layers| == 2 * |labelSizes| + 2 * |bars|
    ensures j < |labelSizes| ==>
      Render(cfg, bars, bounds, labelSizes).layers[j]
      == GridLine(Anchors(cfg, bounds.height, labelSizes)[|labelSizes| - 1 - j], ContentWidth(cfg, bars, bounds, labelSizes))
    ensures j >= |labelSizes| ==>
      Render(cfg, bars, bounds, labelSizes).layers[j]
      == DrawnLayers(cfg, bars, bounds.height, labelSizes)[j - |labelSizes|]
  {
    DrawnLayerAt(cfg, bars, bounds.height, labelSizes, 0);
  }

  /** Bar `i` among the drawn layers, its height being the scaled value. */
  lemma DrawnBar(cfg: ViewConfig, bars: seq<Bar>, h: real, labelSizes: seq<Size>, i: int)
    requires Measured(cfg, labelSizes) && 0 <= i < |bars|
    ensures var n := |labelSizes|;
      var drawn := DrawnLayers(cfg, bars, h, labelSizes);
      var d := MaxY(cfg, h) - MinY(cfg);
      var model := BarViewModel(bars[i], ReducedHeight(cfg, bars[i].value, if d >= 0.0 then d else -d));
      && |drawn| == n + 2 * |bars|
      && drawn[n + 2 * i] == BarPair(cfg, h, AxisWidth(labelSizes), i, model)[0]
      && drawn[n + 2 * i + 1] == BarPair(cfg, h, AxisWidth(labelSizes), i, model)[1]
  {
    var n := |labelSizes|;
    var models := BarViewModels(cfg, bars, Anchors(cfg, h, labelSizes));
    DrawnLayerAt(cfg, bars, h, labelSizes, n + 2 * i);
    DrawnLayerAt(cfg, bars, h, labelSizes, n + 2 * i + 1);
    BarPairsAt(cfg, h, models, AxisWidth(labelSizes), i);
    HeightAvailableIsAxisHeight(cfg, h, labelSizes);
  }

  /** Bar `i` of a drawing pass: its caption and bar follow the axis labels in
      input order; the bar starts `i + 1` gutters and `i` bar widths right of the
      labels, stands on the zero line with the scaled height, and its caption of
      the bar's width and one text line high sits one text offset below it. */
  lemma RenderedBar(cfg: ViewConfig, bars: seq<Bar>, bounds: Size, labelSizes: seq<Size>, i: int)
    requires Measured(cfg, labelSizes) && 0 <= i < |bars|
    ensures var n := |labelSizes|;
      var layers := Render(cfg, bars, bounds, labelSizes).layers;
      var d := MaxY(cfg, bounds.height) - MinY(cfg);
      var height := ReducedHeight(cfg, bars[i].value, if d >= 0.0 then d else -d);
      var left := AxisWidth(labelSizes) + ((i + 1) as real) * cfg.barConfig.space
        + (i as real) * Max(cfg.barConfig.width, 0.0);
      var frame := Rect(left, MaxY(cfg, bounds.height) - height, cfg.barConfig.width, height);
      && |layers| == 2 * n + 2 * |bars|
      && layers[2 * n + 2 * i + 1] == BarLayer(frame, if bars[i].isSelected then 1.0 else 0.5)
      && frame.y + frame.height == MaxY(cfg, bounds.height)
      && layers[2 * n + 2 * i] == TextLayer(
           Rect(frame.x, frame.y + frame.height + cfg.textConfig.offset, cfg.barConfig.width, cfg.textConfig.fontSize),
           Caption(bars[i].description))
  {
    var n := |labelSizes|;
    RenderLayerAt(cfg, bars, bounds, labelSizes, 2 * n + 2 * i);
    RenderLayerAt(cfg, bars, bounds, labelSizes, 2 * n + 2 * i + 1);
    DrawnBar(cfg, bars, bounds.height, labelSizes, i);
  }

  /** Bar `i + 1` starts one gutter to the right of bar `i`'s right edge. */
  lemma NeighbouringBars(cfg: ViewConfig, bars: seq<Bar>, bounds: Size, labelSizes: seq<Size>, i: int)
    requires Measured(cfg, labelSizes) && 0 <= i && i + 1 < |bars|
    ensures var n := |labelSizes|;
      var layers := Render(cfg, bars, bounds, labelSizes).layers;
      && |layers| == 2 * n + 2 * |bars|
      && layers[2 * n + 2 * (i + 1) + 1].frame.x == layers[2 * n + 2 * i + 1].frame.MaxX() + cfg.barConfig.space
  {
    RenderedBar(cfg, bars, bounds, labelSizes, i);
    RenderedBar(cfg, bars, bounds, labelSizes, i + 1);
    NextBarLeft(cfg, AxisWidth(labelSizes), i);
  }

  /** The cursor arithmetic of the drawing loop: bar `i + 1` starts one gutter
      after bar `i`'s right edge, whatever the sign of the width. */
  lemma NextBarLeft(cfg: ViewConfig, startX: real, i: nat)
    ensures BarLeft(cfg, startX, i + 1)
      == Rect(BarLeft(cfg, startX, i), 0.0, cfg.barConfig.width, 0.0).MaxX() + cfg.barConfig.space
  {
    var w := Max(cfg.barConfig.width, 0.0);
    assert ((i + 2) as real) * cfg.barConfig.space == ((i + 1) as real) * cfg.barConfig.space + cfg.barConfig.space;
    assert ((i + 1) as real) * w == (i as real) * w + w;
  }

  /** Caption and bar `j / 2` among the bar pairs both end at that bar's right
      edge: its left edge plus its extent, which is zero for a negative width. */
  lemma PairRightEdge(cfg: ViewConfig, boundsHeight: real, models: seq<BarViewModel>, startX: real, j: int)
    requires 0 <= j < 2 * |models|
    ensures |BarPairs(cfg, boundsHeight, models, startX)| == 2 * |models|
    ensures BarPairs(cfg, boundsHeight, models, startX)[j].FrameMaxX()
      == BarLeft(cfg, startX, j / 2) + Max(cfg.barConfig.width, 0.0)
  {
    var i := j / 2;
    var pair := BarPair(cfg, boundsHeight, startX, i, models[i]);
    BarPairsAt(cfg, boundsHeight, models, startX, i);
    if j == 2 * i {
      assert BarPairs(cfg, boundsHeight, models, startX)[j] == pair[0];
    } else {
      assert BarPairs(cfg, boundsHeight, models, startX)[j] == pair[1];
    }
  }

  /** Bar `i` of `m` ends `i + 1` advances right of the start. No bar ends further
      right than `m` advances, nor than the start when the advance is negative; when
      it is not, the last bar ends exactly `m` advances right. */
  lemma BarRightEdgeBound(cfg: ViewConfig, startX: real, i: nat, m: nat)
    requires i < m
    ensures BarLeft(cfg, startX, i) + Max(cfg.barConfig.width, 0.0)
      == startX + ((i + 1) as real) * Advance(cfg)
    ensures BarLeft(cfg, startX, i) + Max(cfg.barConfig.width, 0.0)
      <= startX + Max((m as real) * Advance(cfg), 0.0)
    ensures Advance(cfg) >= 0.0 && i == m - 1 ==>
      BarLeft(cfg, startX, i) + Max(cfg.barConfig.width, 0.0)
      == startX + Max((m as real) * Advance(cfg), 0.0)
  {
    var w := Max(cfg.barConfig.width, 0.0);
    var step := Advance(cfg);
    assert BarLeft(cfg, startX, i) + w == startX + ((i + 1) as real) * step by {
      assert ((i + 1) as real) * w == (i as real) * w + w;
    }
    if step >= 0.0 {
      MulMono((i + 1) as real, m as real, step);
      StepsSign(m, step);
    } else {
      StepsSign(i + 1, step);
    }
  }

  /** Every axis label ends at the common label width. */
  lemma AxisRightEdge(cfg: ViewConfig, h: real, labelSizes: seq<Size>, k: int)
    requires Measured(cfg, labelSizes) && 0 <= k < |labelSizes|
    ensures |AxisLayers(cfg, h, labelSizes)| == |labelSizes|
    ensures AxisLayers(cfg, h, labelSizes)[k].FrameMaxX() == AxisWidth(labelSizes)
  {
    AxisLabelGeometry(cfg, h, labelSizes, k);
  }

  /** A number of steps has the sign of the step, and zero steps are zero. */
  lemma StepsSign(m: nat, step: real)
    ensures step >= 0.0 ==> (m as real) * step >= 0.0
    ensures step <= 0.0 ==> (m as real) * step <= 0.0
    ensures m == 0 ==> (m as real) * step == 0.0
  {
    if step >= 0.0 {
      MulMono(0.0, m as real, step);
    } else {
      MulMono(0.0, m as real, -step);
    }
  }

  /** A drawn layer ends at the common label width when it is an axis label, and
      at its bar's right edge when it is a caption or a bar. */
  lemma DrawnRightEdgeCases(cfg: ViewConfig, bars: seq<Bar>, h: real, labelSizes: seq<Size>, j: int)
    requires Measured(cfg, labelSizes) && 0 <= j < |labelSizes| + 2 * |bars|
    ensures |DrawnLayers(cfg, bars, h, labelSizes)| == |labelSizes| + 2 * |bars|
    ensures j < |labelSizes| ==> DrawnLayers(cfg, bars, h, labelSizes)[j].FrameMaxX() == AxisWidth(labelSizes)
    ensures j >= |labelSizes| ==>
      DrawnLayers(cfg, bars, h, labelSizes)[j].FrameMaxX()
      == BarLeft(cfg, AxisWidth(labelSizes), (j - |labelSizes|) / 2) + Max(cfg.barConfig.width, 0.0)
  {
    var n := |labelSizes|;
    DrawnLayerAt(cfg, bars, h, labelSizes, j);
    if j < n {
      AxisRightEdge(cfg, h, labelSizes, j);
    } else {
      var models := BarViewModels(cfg, bars, Anchors(cfg, h, labelSizes));
      assert |models| == |bars|;
      PairRightEdge(cfg, h, models, AxisWidth(labelSizes), j - n);
    }
  }

  /** The right edges of a drawing: `n` labels ending at `startX`, then caption
      and bar pairs ending at their bar's right edge. */
  predicate DrawingEdges(cfg: ViewConfig, xs: seq<real>, startX: real, n: nat) {
    forall j :: 0 <= j < |xs| ==>
      && (j < n ==> xs[j] == startX)
      && (j >= n ==> xs[j] == BarLeft(cfg, startX, (j - n) / 2) + Max(cfg.barConfig.width, 0.0))
  }

  /** No edge of a drawing lies right of edge `k`: the last bar's when there are
      bars and the advance is not negative, the labels' otherwise. That edge is
      `m` advances right of the start, or the start itself when that is further. */
  lemma DrawingEdgesBounded(cfg: ViewConfig, xs: seq<real>, startX: real, n: nat, m: nat, k: int)
    requires n >= 1 && |xs| == n + 2 * m && DrawingEdges(cfg, xs, startX, n)
    requires k == if m == 0 || Advance(cfg) < 0.0 then 0 else n + 2 * m - 1
    ensures 0 <= k < |xs|
    ensures forall j :: 0 <= j < |xs| ==> xs[j] <= xs[k]
    ensures xs[k] == startX + Max((m as real) * Advance(cfg), 0.0)
  {
    var top := startX + Max((m as real) * Advance(cfg), 0.0);
    StepsSign(m, Advance(cfg));
    if k != 0 {
      assert (k - n) / 2 == m - 1;
      BarRightEdgeBound(cfg, startX, m - 1, m);
    }
    forall j | 0 <= j < |xs| ensures xs[j] <= top {
      if j >= n {
        BarRightEdgeBound(cfg, startX, (j - n) / 2, m);
      }
    }
  }

  /** The right edges of the drawn layers form a drawing starting at the common label width. */
  lemma DrawnEdges(cfg: ViewConfig, bars: seq<Bar>, h: real, labelSizes: seq<Size>)
    requires Measured(cfg, labelSizes)
    ensures var drawn := DrawnLayers(cfg, bars, h, labelSizes);
      var xs := seq(|drawn|, i requires 0 <= i < |drawn| => drawn[i].FrameMaxX());
      && |xs| == |labelSizes| + 2 * |bars|
      && DrawingEdges(cfg, xs, AxisWidth(labelSizes), |labelSizes|)
  {
    var n := |labelSizes|;
    var drawn := DrawnLayers(cfg, bars, h, labelSizes);
    var xs := seq(|drawn|, i requires 0 <= i < |drawn| => drawn[i].FrameMaxX());
    DrawnLayerAt(cfg, bars, h, labelSizes, 0);
    forall j | 0 <= j < |xs|
      ensures j < n ==> xs[j] == AxisWidth(labelSizes)
      ensures j >= n ==> xs[j] == BarLeft(cfg, AxisWidth(labelSizes), (j - n) / 2) + Max(cfg.barConfig.width, 0.0)
    {
      DrawnRightEdgeCases(cfg, bars, h, labelSizes, j);
    }
  }

  /** The rightmost edge of a drawing with `m` bars is `m` advances right of the
      start, or the start when the advance is negative. */
  lemma DrawingMaxX(cfg: ViewConfig, xs: seq<real>, startX: real, n: nat, m: nat)
    requires n >= 1 && |xs| == n + 2 * m && DrawingEdges(cfg, xs, startX, n)
    ensures MaxOr(xs, 0.0) == startX + Max((m as real) * Advance(cfg), 0.0)
  {
    var k := if m == 0 || Advance(cfg) < 0.0 then 0 else n + 2 * m - 1;
    DrawingEdgesBounded(cfg, xs, startX, n, m, k);
    MaxOrIs(xs, 0.0, k);
  }

  /** The drawn layers reach exactly to the last bar's right edge, one advance per
      bar right of the labels, or to the labels' width when that is further. */
  lemma DrawnMaxX(cfg: ViewConfig, bars: seq<Bar>, h: real, labelSizes: seq<Size>)
    requires Measured(cfg, labelSizes)
    ensures LayersMaxX(DrawnLayers(cfg, bars, h, labelSizes))
      == AxisWidth(labelSizes) + Max((|bars| as real) * Advance(cfg), 0.0)
  {
    var drawn := DrawnLayers(cfg, bars, h, labelSizes);
    var xs := seq(|drawn|, i requires 0 <= i < |drawn| => drawn[i].FrameMaxX());
    DrawnEdges(cfg, bars, h, labelSizes);
    DrawingMaxX(cfg, xs, AxisWidth(labelSizes), |labelSizes|, |bars|);
  }

  /** The content width is never less than the viewport width; when the bars reach
      further, it is the right edge of the last bar: the labels' width plus one
      gutter and one bar extent per bar. */
  lemma ContentWidthClosedForm(cfg: ViewConfig, bars: seq<Bar>, bounds: Size, labelSizes: seq<Size>)
    requires Measured(cfg, labelSizes)
    ensures Render(cfg, bars, bounds, labelSizes).contentWidth
      == Max(AxisWidth(labelSizes) + Max((|bars| as real) * Advance(cfg), 0.0), bounds.width)
    ensures Render(cfg, bars, bounds, labelSizes).contentWidth >= bounds.width
    ensures cfg.barConfig.space >= 0.0 && cfg.barConfig.width >= 0.0 ==>
      Render(cfg, bars, bounds, labelSizes).contentWidth
      == Max(AxisWidth(labelSizes) + (|bars| as real) * (cfg.barConfig.space + cfg.barConfig.width), bounds.width)
  {
    assert Render(cfg, bars, bounds, labelSizes).contentWidth == ContentWidth(cfg, bars, bounds, labelSizes);
    DrawnMaxX(cfg, bars, bounds.height, labelSizes);
    if cfg.barConfig.space >= 0.0 && cfg.barConfig.width >= 0.0 {
      ExtentWithoutClamps(cfg, AxisWidth(labelSizes), |bars|, bounds.width);
    }
  }

  /** With a non-negative gutter and width, the advance is the gutter plus the
      width, and neither it nor the bar extent needs clamping at zero. */
  lemma ExtentWithoutClamps(cfg: ViewConfig, startX: real, m: nat, viewWidth: real)
    requires cfg.barConfig.space >= 0.0 && cfg.barConfig.width >= 0.0
    ensures Max(startX + Max((m as real) * Advance(cfg), 0.0), viewWidth)
      == Max(startX + (m as real) * (cfg.barConfig.space + cfg.barConfig.width), viewWidth)
  {
    assert Advance(cfg) == cfg.barConfig.space + cfg.barConfig.width;
    StepsSign(m, Advance(cfg));
  }

  /** After a drawing pass the layers are, bottom-most first: one horizontal grid
      line per anchor, the last anchor's first, each from the anchor to the content
      width; then the axis labels in ascending value. */
  lemma RenderOrder(cfg: ViewConfig, bars: seq<Bar>, bounds: Size, labelSizes: seq<Size>, k: int)
    requires Measured(cfg, labelSizes) && 0 <= k < |labelSizes|
    ensures var n := |labelSizes|;
      var plan := Render(cfg, bars, bounds, labelSizes);
      var y := AxisLabelY(cfg, bounds.height, k);
      && |plan.layers| == 2 * n + 2 * |bars|
      && plan.layers[n - 1 - k] == LineLayer(ZeroRect, Point(AxisWidth(labelSizes), y), Point(plan.contentWidth, y))
      && plan.layers[n + k].TextLayer?
      && plan.layers[n + k].text == Number(LabelValue(cfg, k))
      && plan.layers[n + k].frame == AxisFrames(cfg, bounds.height, labelSizes)[k]
  {
    var n := |labelSizes|;
    RenderLayerAt(cfg, bars, bounds, labelSizes, n - 1 - k);
    RenderLayerAt(cfg, bars, bounds, labelSizes, n + k);
    DrawnLayerAt(cfg, bars, bounds.height, labelSizes, k);
    AxisLabelGeometry(cfg, bounds.height, labelSizes, k);
    AxisLabelValues(cfg, bounds.height, labelSizes);
  }
}
