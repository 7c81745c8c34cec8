/** The configuration and bars the playground's view controller shows, and what
    the layout makes of them for its two sizes (350 by 350, then 300 by 350). */
module Sample {
  import opened Models
  import opened Geometry
  import opened Extrema
  import opened Layers
  import opened Layout
  import opened LayoutProperties
  import opened BarChartViews

  /** Purple bars 32 wide with 8 between them, 14-point captions 8 below the zero
      line, and five grid divisions of 50 starting 20 below the top. */
  const SampleConfig := ViewConfig(
    BarConfig(Rgba(0.5, 0.0, 0.5, 1.0), 15.0, 8.0, 32.0),
    TextConfig(14.0, Rgba(0.0, 0.0, 0.0, 1.0), 8.0),
    GridConfig(1.0, Gray(0.5, 1.0), 20.0, 5, 50),
    Gray(0.9, 0.7))

  const SampleBars := [
    Bar("150", 150.0, true),
    Bar("25", 25.0, false),
    Bar("50", 50.0, false),
    Bar("100", 100.0, false),
    Bar("10", 10.0, false),
    Bar("36", 36.0, false),
    Bar("200", 200.0, true),
    Bar("33", 33.0, false)]

  /** For a view 350 high the axis runs from 320 up to 20 in steps of 60, labelled
      0 to 250; the first bar (150, selected) is 180 high and fully opaque, and the
      eight bars end 320 right of the labels. */
  lemma SampleLayout(bounds: Size, labelSizes: seq<Size>)
    requires bounds.height == 350.0 && |labelSizes| == 6
    requires forall k :: 0 <= k < 6 ==> NaturalSize(labelSizes[k])
    ensures Measured(SampleConfig, labelSizes)
    ensures MaxY(SampleConfig, 350.0) == 320.0 && MinY(SampleConfig) == 20.0
    ensures StepHeight(SampleConfig, 350.0) == 60.0
    ensures forall k :: 0 <= k <= 5 ==> AxisLabelY(SampleConfig, 350.0, k) == 320.0 - 60.0 * (k as real)
    ensures forall k :: 0 <= k <= 5 ==> AxisLayers(SampleConfig, 350.0, labelSizes)[k].text == Number(50 * k)
    ensures var layers := Render(SampleConfig, SampleBars, bounds, labelSizes).layers;
      && |layers| == 28
      && layers[13] == BarLayer(Rect(AxisWidth(labelSizes) + 8.0, 140.0, 32.0, 180.0), 1.0)
      && layers[12] == TextLayer(Rect(AxisWidth(labelSizes) + 8.0, 328.0, 32.0, 14.0), Caption("150"))
    ensures Render(SampleConfig, SampleBars, bounds, labelSizes).contentWidth
      == Max(AxisWidth(labelSizes) + 320.0, bounds.width)
  {
    AxisLabelValues(SampleConfig, 350.0, labelSizes);
    RenderedBar(SampleConfig, SampleBars, bounds, labelSizes, 0);
    assert ReducedHeight(SampleConfig, 150.0, 300.0) == 180.0;
    ContentWidthClosedForm(SampleConfig, SampleBars, bounds, labelSizes);
  }

  /** The playground's session: the view is laid out at 350 by 350, laid out again
      at the same size (nothing is redrawn), then narrowed to 300. The content
      width stays 320 past the labels while the viewport is narrower than that. */
  method ResizeSession(labelSizes: seq<Size>) returns (wide: real, same: real, narrow: real)
    requires |labelSizes| == 6
    requires forall k :: 0 <= k < 6 ==> NaturalSize(labelSizes[k])
    ensures wide == same == Max(AxisWidth(labelSizes) + 320.0, 350.0)
    ensures narrow == Max(AxisWidth(labelSizes) + 320.0, 300.0)
  {
    var view := new BarChartView(SampleConfig, SampleBars, labelSizes);
    view.bounds := Size(350.0, 350.0);
    view.LayoutSubviews();
    SampleLayout(view.bounds, labelSizes);
    wide := view.contentWidth;
    view.LayoutSubviews();
    same := view.contentWidth;
    view.bounds := Size(300.0, 350.0);
    view.LayoutSubviews();
    SampleLayout(view.bounds, labelSizes);
    narrow := view.contentWidth;
  }
}
