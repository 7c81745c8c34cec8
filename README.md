# Bar chart layout

A Dafny model of the layout core of `BarChartView`, the scrollable bar chart of
the BarsPlayground app. For a view of a given size the chart adds, to one root layer:

- a left column of `count + 1` axis labels showing `0, step, ..., count * step`;
- for every bar, in input order, a caption and a bar, placed with a running cursor
  and scaled so that `count * step` spans the axis;
- dashed horizontal grid lines from each label's right edge to the content width,
  inserted underneath everything.

It then sets the scrollable content width. The drawing is redone only when the
view's size has changed.

The model is in eight modules:

- `Models` (models.dfy): the configuration records and `Bar`.
- `Geometry` (geometry.dfy): points, sizes and rectangles. `MaxX` is standardised as in Core Graphics, so a rectangle of negative width ends at its origin.
- `Extrema` (extrema.dfy): `max`/`min` of a list with a fallback for the empty list, as Swift's `max() ?? 0` is used.
- `Layers` (layers.dfy): the layer kinds the chart creates.
  - A text layer has a frame and a text, which is an axis number or a bar caption.
  - A bar layer has a frame and an opacity.
  - A line layer has two end points.
- `Layout` (layout.dfy): the layout as functions of the configuration, the bars, the view's size and the natural sizes of the axis labels. These functions are the specification; `Render` is one complete drawing pass.
- `BarChartViews` (bar_chart_view.dfy): the class `BarChartView`. It has the view's state and the methods of the Swift class. Each method updates the sublayer list step by step, with the Swift code's loops and cursor, and is proved to produce what `Layout` specifies.
- `LayoutProperties` (layout_properties.dfy): what the layout guarantees, as lemmas about `Layout`.
- `Sample` (sample.dfy): the configuration and bars of the app's view controller, with the concrete numbers they give.

The specification functions and predicates without a contract of their own are:

- `Layout.WellFormed` and `Layout.Measured`: the configurations the layout is defined for, and one non-negative natural size (`Layout.NaturalSize`) per axis label. Source: BarsPlayground/BarView/Views/BarChartView.swift:138, 157, 161 and 233.

- `Layout.MaxY` and `Layout.MinY`: the zero line and the axis top. Source: BarsPlayground/BarView/Views/BarChartView.swift:150-154.
- `Layout.StepHeight`: the step height (line 157).
- `Layout.AxisLabelY` and `Layout.LabelValue`: a label's centre and value (lines 163-166).
- `Layout.CreateYTextLayer` (lines 136-145), `Layout.CreateBar` (lines 107-121) and `Layout.CreateXTextLayer` (lines 123-133).
- `Layout.Opacity`: a selected bar is opaque, any other half transparent (line 110).
- `Layout.NaturalAxisLayer`: label `k` at its natural size, before widening (lines 161-171).
- `Layout.AxisWidth`: the widest natural width, which every label is widened to (lines 159-177).
- `Layout.AxisLayers`, `Layout.Frames` and `Layout.AxisFrames`: the widened labels and their frames (lines 173-179).
- `Layout.Anchors`: the grid origins of a view of a given height (line 69).
- `Layout.GridAnchors` and `Layout.BarStartX` (lines 68-69).
- `Layout.HeightAvailable` and `Layout.BarViewModels` (lines 215-224), and `Layout.ReducedHeight` (lines 231-235).
- `Layout.LayersMaxX` (line 74) and `Layout.ContentWidth` (lines 74-81).
- `Layout.ReversedGridLines` (lines 192-209).
- `Layout.Advance` (line 103), `Layout.BarLeft` (lines 86 and 103-114), `Layout.BarFrame` (lines 89-97 and 113-118) and `Layout.BarPair` (lines 98-101): how far the cursor moves per bar, bar `i`'s left edge and frame in closed form, and bar `i`'s caption and bar. A bar of negative width moves the cursor by none, since a `CGRect`'s right edge is then its origin.
- `Layout.BarPairs`: the closed form of lines 85-105.
- `Layout.DrawnLayers`: the labels followed by the bar pairs, the root layer before the grid (lines 66-72).
- `Layout.GridLine`: one grid line from an anchor to the content width (lines 193-195).
- `Layout.Render`: one complete drawing pass on an empty root layer (lines 66-83).

Their properties are the lemmas below.

## Model

| member | source | states |
|---|---|---|
| Extrema.MaxOr | BarsPlayground/BarView/Views/BarChartView.swift:217 | `max() ?? empty`: the fallback for an empty list, and an upper bound of every element |
| Extrema.MinOr | BarsPlayground/BarView/Views/BarChartView.swift:217 | `min() ?? empty`: the fallback for an empty list, and a lower bound of every element |
| Extrema.MaxOrAttained | BarsPlayground/BarView/Views/BarChartView.swift:217 | the maximum of a non-empty list is one of its elements |
| Extrema.MinOrAttained | BarsPlayground/BarView/Views/BarChartView.swift:217 | the minimum of a non-empty list is one of its elements |
| Extrema.MaxOrIs | BarsPlayground/BarView/Views/BarChartView.swift:68 | an element bounding the list from above is its maximum |
| Extrema.MinOrIs | BarsPlayground/BarView/Views/BarChartView.swift:217 | an element bounding the list from below is its minimum |
| Layout.MaxNaturalWidth | BarsPlayground/BarView/Views/BarChartView.swift:159-171 | the running `maxWidth` is non-negative and at least every natural width seen so far |
| LayoutProperties.MaxNaturalWidthAttained | BarsPlayground/BarView/Views/BarChartView.swift:159-171 | the running `maxWidth` is its start value 0 or one of the natural widths |
| BarChartViews.BarChartView.constructor | BarsPlayground/BarView/Views/BarChartView.swift:30-38 | stores configuration and bars; no size drawn yet, no sublayers |
| BarChartViews.BarChartView.LayoutSubviews | BarsPlayground/BarView/Views/BarChartView.swift:44-51 | an unchanged size changes nothing. A changed size records the size, replaces the sublayers with one drawing pass (`Render`), and sets the content width and the root frame `(0, 0, contentWidth, height)` |
| BarChartViews.BarChartView.DrawBarChart | BarsPlayground/BarView/Views/BarChartView.swift:66-83 | on an empty root layer, leaves exactly the layers of `Render`, its content width and the root frame |
| BarChartViews.BarChartView.DrawBars | BarsPlayground/BarView/Views/BarChartView.swift:85-105 | the cursor loop appends, for each bar in order, its caption and then its bar, at the closed-form positions of `BarPairs` |
| BarChartViews.BarChartView.AddTextColumn | BarsPlayground/BarView/Views/BarChartView.swift:149-180 | appends the `count + 1` axis labels, widened to the widest natural width, and returns their frames (`AxisLayers`, `AxisFrames`) |
| BarChartViews.BarChartView.WidenAndAdd | BarsPlayground/BarView/Views/BarChartView.swift:173-177 | every label gets width `maxWidth` and nothing else changes; the labels are appended in order |
| BarChartViews.BarChartView.AddHorizontalGrid | BarsPlayground/BarView/Views/BarChartView.swift:192-197 | puts one line per anchor from the anchor to `(contentWidth, anchor.y)` underneath the existing layers, the last anchor's line lowest |
| BarChartViews.BarChartView.DrawLine | BarsPlayground/BarView/Views/BarChartView.swift:199-209 | inserts the line from `p0` to `p1` at index 0 and leaves the rest in place |
| LayoutProperties.AxisLabelValues | BarsPlayground/BarView/Views/BarChartView.swift:161-167 | there are `count + 1` labels and label `k` shows `k * step`; they ascend exactly when `step > 0` |
| LayoutProperties.AxisLabelGeometry | BarsPlayground/BarView/Views/BarChartView.swift:136-145 | label `k` has x = 0, the common width (≥ its natural width), its natural height, and its centre at `maxY - k * stepHeight`. Its anchor is `(common width, maxY - k * stepHeight)` |
| LayoutProperties.AxisEnds | BarsPlayground/BarView/Views/BarChartView.swift:150-163 | label 0 is centred on `maxY` and label `count` on the grid offset |
| LayoutProperties.AxisLabelsAscend | BarsPlayground/BarView/Views/BarChartView.swift:157-163 | label `j` lies strictly above label `k < j` if and only if `maxY > minY` |
| LayoutProperties.AnchorYs | BarsPlayground/BarView/Views/BarChartView.swift:69 | one anchor per label, at the common width and the label's centre |
| LayoutProperties.BarStartIsAxisWidth | BarsPlayground/BarView/Views/BarChartView.swift:68 | the bars start at the common label width, which bounds every natural width |
| LayoutProperties.EvenlySpacedSpread | BarsPlayground/BarView/Views/BarChartView.swift:216-217 | max − min of evenly spaced values is the distance between the first and the last |
| LayoutProperties.HeightAvailableIsAxisHeight | BarsPlayground/BarView/Views/BarChartView.swift:215-217 | `heightAvailable` equals `abs(maxY - minY)`, the axis height |
| LayoutProperties.ReducedHeightScale | BarsPlayground/BarView/Views/BarChartView.swift:231-235 | `height * (count * step) == available * value`. Value 0 gives height 0, and value `count * step` gives the full available height. With a positive grid maximum and available height, a larger value gives more: there is no clamping |
| LayoutProperties.ReducedHeightLinear | BarsPlayground/BarView/Views/BarChartView.swift:231-235 | the height is additive and homogeneous in the value |
| LayoutProperties.BarPairsLength | BarsPlayground/BarView/Views/BarChartView.swift:88-104 | two layers per bar |
| LayoutProperties.BarPairsAt | BarsPlayground/BarView/Views/BarChartView.swift:100-101 | entries `2i` and `2i + 1` are bar `i`'s caption and bar, so input order is kept |
| LayoutProperties.DrawnLayerAt | BarsPlayground/BarView/Views/BarChartView.swift:66-72 | the layers drawn before the grid are the axis labels, then the bar pairs starting at the common label width |
| LayoutProperties.RenderLayerAt | BarsPlayground/BarView/Views/BarChartView.swift:66-83 | a drawing pass is the grid lines in reverse anchor order, followed by the drawn layers |
| LayoutProperties.DrawnBar | BarsPlayground/BarView/Views/BarChartView.swift:85-133 | bar `i`'s caption and bar are at their closed-form place, with the height scaled against the axis height |
| LayoutProperties.RenderedBar | BarsPlayground/BarView/Views/BarChartView.swift:85-133 | bar `i` is layer `2(count+1) + 2i + 1`. Its left edge is `barStartX + (i+1)*space + i*max(width, 0)`, its width the bar width, its height the scaled value, its bottom `y + height == maxY`, and its opacity 1 if selected and 0.5 otherwise. Its caption, the layer before it, has the bar's x, `y = bottom + offset`, the bar width, height `fontSize` and the bar's description |
| LayoutProperties.NextBarLeft | BarsPlayground/BarView/Views/BarChartView.swift:103-114 | after bar `i` the cursor is at its right edge, so bar `i + 1` starts one gutter further |
| LayoutProperties.NeighbouringBars | BarsPlayground/BarView/Views/BarChartView.swift:103-114 | bar `i + 1`'s left edge is bar `i`'s right edge plus `space` |
| LayoutProperties.PairRightEdge | BarsPlayground/BarView/Views/BarChartView.swift:113-130 | a caption ends where its bar ends: at the bar's left edge plus its width, or at its left edge for a negative width |
| LayoutProperties.BarRightEdgeBound | BarsPlayground/BarView/Views/BarChartView.swift:103-118 | bar `i` ends `i + 1` advances (gutter plus `max(width, 0)`) right of the start; no bar of `m` ends beyond `m` advances or, for a negative advance, beyond the start; with a non-negative advance the last bar ends exactly `m` advances right |
| LayoutProperties.AxisRightEdge | BarsPlayground/BarView/Views/BarChartView.swift:173-177 | every axis label ends at the common label width |
| LayoutProperties.DrawnRightEdgeCases | BarsPlayground/BarView/Views/BarChartView.swift:74 | each drawn layer's right edge is the label width (for a label) or its bar's right edge (for a caption or a bar), for every bar width |
| LayoutProperties.DrawingEdgesBounded | BarsPlayground/BarView/Views/BarChartView.swift:74 | no right edge of a drawing lies beyond edge `k`: the last bar's when there are bars and the advance is non-negative, the labels' otherwise; that edge is `startX + max(m * advance, 0)` |
| LayoutProperties.DrawingMaxX | BarsPlayground/BarView/Views/BarChartView.swift:74 | the largest right edge of such a drawing is `startX + max(m * advance, 0)` |
| LayoutProperties.DrawnEdges | BarsPlayground/BarView/Views/BarChartView.swift:74 | the drawn layers' right edges are such a drawing, for every bar width |
| LayoutProperties.DrawnMaxX | BarsPlayground/BarView/Views/BarChartView.swift:74 | `rootLayerMaxX` is `barStartX + max(n * (space + max(width, 0)), 0)` for n bars |
| LayoutProperties.ContentWidthClosedForm | BarsPlayground/BarView/Views/BarChartView.swift:74-81 | for every configuration, the content width is `max(barStartX + max(n * (space + max(width, 0)), 0), bounds.width)` and never less than the view's width; with a non-negative space and width it is `max(barStartX + n * (space + width), bounds.width)` |
| LayoutProperties.RenderOrder | BarsPlayground/BarView/Views/BarChartView.swift:192-209 | layer `count - k` is the horizontal grid line from anchor `k` to `(contentWidth, anchor k's y)`, and layer `count + 1 + k` is axis label `k` with value `k * step` and its axis frame |
| Sample.SampleLayout | BarsPlayground/ViewController.swift:54-98 | for the sample 350-high view: `maxY = 320`, `minY = 20` and step height 60; labels 0, 50, ..., 250 at heights 320, 260, ..., 20. The 150-value bar is selected, 180 high, at y = 140 and x = label width + 8, with its caption at y = 328. The content width is `max(label width + 320, bounds.width)` |
| Sample.ResizeSession | BarsPlayground/ViewController.swift:17-28 | laying out at 350 × 350, again at the same size, then at 300 × 350 gives content widths `max(w + 320, 350)` twice, then `max(w + 320, 300)` |

## Left out

- Colours, corner radius and masked corners, the dash pattern `[7, 3]`, the line width, text alignment, font and text colour, `bounces`, and the root layer's background colour. These are visual attributes handed to Core Animation. The configuration records carry them, but no layer does (BarChartView.swift lines 55-64, 109-112, 182-190 and 200-207).
- Text measurement. `preferredFrameSize()` is a UIKit call. The natural sizes of the `count + 1` axis labels are a parameter, `labelSizes`, given to the view at construction. They are taken to be non-negative, as a preferred frame size is; the standardisation of a negative text frame width (line 169) is therefore not modelled.
- The axis label's text. The decimal form produced by Swift's string interpolation is not modelled. A label carries its integer value (`Number(k * step)`).
- `CGFloat` arithmetic is modelled with exact reals. Rounding, infinity and NaN are not modelled. The layout is defined for `count >= 1` and `step != 0`, the configurations where no division by zero occurs and the label range `0...count` does not trap. The sample configuration has `count = 5`, `step = 50`.
- `Int` overflow of `count * step` and `k * step`, on which Swift traps, is not modelled; integers are unbounded.
- Layers are values, not shared objects. `addTextColumn` widens its label objects in place and then returns their frames; the model returns the widened labels' frames, which is what that aliasing yields.
- `WidenAndAdd` is the `forEach` closure of `addTextColumn`, written as a separate method.
- The scrolling itself. `UIScrollView` behaviour, `super.layoutSubviews()` and `setupView` are not modelled; the content size is the field `contentWidth`.
- `init(coder:)` is not modelled: it only calls `fatalError`.
- The view controller's Auto Layout constraints and its ten-second timer. The resize they cause appears as the steps of `Sample.ResizeSession`.
