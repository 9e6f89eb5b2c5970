/** demo_interface.py: the fixed demo data, the chart that plots every forecast
    column, and the quality badge chosen by a single comparison with 'Bom'. */
module DemoInterface {
  import opened Basics
  import opened Styles
  import opened Progress
  import opened Chart
  import opened ForecastChart
  import Frontend
  import DemoSimple

  // -------------------------------------------------------------------- data

  /** The forecast frame of create_demo_data: three numeric columns, one row per
      hour for 24 hours (demo_interface.py:31-37). The values are random and are
      not modelled. */
  const DemoForecast: Frame := Frame(
    [Column(Frontend.ConcentrationKey, true), Column(Frontend.Pm25Key, true), Column(Frontend.Pm10Key, true)], 24)

  /** The current readings of create_demo_data (demo_interface.py:21-28). */
  const DemoCurrent: Frontend.Summary := Frontend.Summary(
    map[Frontend.ConcentrationKey := Some(245.7), Frontend.Pm25Key := Some(18.3), Frontend.Pm10Key := Some(32.1),
        Frontend.TemperatureKey := Some(24.5), Frontend.HumidityKey := Some(65.2)],
    Present("Bom"), Missing)

  /** create_demo_data: the current readings and the forecast frame. */
  function CreateDemoData(): (data: (Frontend.Summary, Frame))
    ensures data.1.rows == 24 && |data.1.columns| == 3
    ensures forall i :: 0 <= i < 3 ==> data.1.columns[i].numeric && data.1.columns[i].name == Frontend.MetricKeys[i]
    ensures data.0.metrics.Keys == set k | k in Frontend.MetricKeys
    ensures data.0.quality == Present("Bom") && Frontend.Truthy(data.0)
  {
    (DemoCurrent, DemoForecast)
  }

  /** The demo's label agrees with the band rules of demo_simple.py: its readings
      classify as 'Bom' there too. */
  lemma DemoLabelAgreesWithClassifier()
    ensures var m := DemoCurrent.metrics;
      DemoSimple.Label(DemoSimple.Classify(m[Frontend.ConcentrationKey].value, m[Frontend.Pm25Key].value,
        m[Frontend.Pm10Key].value).verdict) == DemoCurrent.quality.value
  {
  }

  // ------------------------------------------------------------------- chart

  /** gerar_grafico_demo: one line per column, numeric or not, column i in colour
      slot i % 3 (demo_interface.py:74-78). */
  function AllSeries(cols: seq<Column>): (r: seq<Series>)
    ensures |r| == |cols|
    ensures forall i :: 0 <= i < |cols| ==> r[i] == SeriesFor(i, cols[i])
  {
    seq(|cols|, i requires 0 <= i < |cols| => SeriesFor(i, cols[i]))
  }

  /** On a frame whose columns are all numeric, the demo chart and the dashboard
      chart draw the same lines. */
  lemma {:induction false} AllNumericPlotsEverything(cols: seq<Column>)
    requires forall i :: 0 <= i < |cols| ==> cols[i].numeric
    ensures PlottedSeries(cols) == AllSeries(cols)
    decreases |cols|
  {
    if |cols| > 0 {
      var n := |cols| - 1;
      AllNumericPlotsEverything(cols[..n]);
      assert PlottedSeries(cols) == PlottedSeries(cols[..n]) + [SeriesFor(n, cols[n])];
      assert AllSeries(cols) == AllSeries(cols[..n]) + [SeriesFor(n, cols[n])];
    }
  }

  /** A non-empty frame of numeric columns is drawn the same way by the dashboard's
      chart plan. */
  lemma NumericFramePlotsAllColumns(f: Frame)
    requires !IsEmpty(f) && forall i :: 0 <= i < |f.columns| ==> f.columns[i].numeric
    ensures ForecastPlan(Some(f)) == Plot(AllSeries(f.columns))
  {
    AllNumericPlotsEverything(f.columns);
    assert AllSeries(f.columns)[0] == SeriesFor(0, f.columns[0]);
  }

  /** The demo forecast is such a frame. */
  lemma DemoForecastPlotsAllColumns()
    ensures ForecastPlan(Some(DemoForecast)) == Plot(AllSeries(DemoForecast.columns))
  {
    var cols := DemoForecast.columns;
    assert cols[0].numeric && cols[1].numeric && cols[2].numeric;
    NumericFramePlotsAllColumns(DemoForecast);
  }

  /** The legend labels and colours of the demo chart. */
  lemma DemoChartLines()
    ensures var s := AllSeries(DemoForecast.columns);
      s[0].legend == "Concentracao_Geral PPM" && s[1].legend == "PM2.5 µg/m³" && s[2].legend == "PM10 µg/m³" &&
      s[0].color == Color("primary") && s[1].color == Color("secondary") && s[2].color == Color("accent")
  {
    ConcentrationColumnLabel(Frontend.ConcentrationKey);
    ParticulateColumnLabels(Frontend.Pm25Key, Frontend.Pm10Key);
  }

  // ------------------------------------------------------------- quality card

  /** `ft.Icons.SENTIMENT_SATISFIED if qualidade == 'Bom' else ft.Icons.HELP_OUTLINE`. */
  function DemoQualityIcon(quality: string): (i: Icon)
    ensures i == SentimentSatisfied <==> quality == "Bom"
    ensures i == HelpOutline <==> quality != "Bom"
  {
    if quality == "Bom" then SentimentSatisfied else HelpOutline
  }

  /** `COLORS['good'] if qualidade == 'Bom' else COLORS['text_muted']`. */
  function DemoQualityColor(quality: string): (c: string)
    ensures c == Color("good") <==> quality == "Bom"
    ensures c == Color("text_muted") <==> quality != "Bom"
  {
    if quality == "Bom" then Colors["good"] else Colors["text_muted"]
  }

  /** The demo's two-way choice agrees with the dashboard's tables on 'Bom' and on
      unknown labels, and on no other known label. */
  lemma DemoBadgeAgreesWithDashboard(quality: string)
    ensures DemoQualityIcon(quality) == Frontend.QualityIcon(quality) <==>
      quality == "Bom" || quality !in Frontend.QualityIcons
    ensures quality == "Bom" || quality !in Frontend.QualityColors ==>
      DemoQualityColor(quality) == Frontend.QualityColor(quality)
  {
  }

  /** The fixed description of the demo card is the dashboard's sentence for 'Bom'. */
  lemma DemoDescriptionIsBom()
    ensures Frontend.QualityDescription(DemoCurrent.quality.value) ==
      "Qualidade do ar aceitável para a maioria das pessoas"
  {
  }

  /** The three bars of the demo card (demo_interface.py:176-193): concentration out
      of 1000, PM2.5 out of 50 and PM10 out of 100. */
  lemma DemoProgressBars()
    ensures CappedPercentage(245.7, 1000.0) == 24.57
    ensures CappedPercentage(18.3, 50.0) == 36.6
    ensures CappedPercentage(32.1, 100.0) == 32.1
  {
  }
}
