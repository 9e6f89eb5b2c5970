/** The part of frontend.py's `gerar_imagem_grafico_base64` that decides what is
    drawn: which forecast columns become lines, with which legend label and colour,
    and when the "insufficient data" text is drawn instead. */
module ForecastChart {
  import opened Basics
  import opened Chart

  /** What the axes receive: the plotted lines, or the single placeholder text. */
  datatype ChartPlan = Plot(series: seq<Series>) | Placeholder(text: string)

  const InsufficientData: string := "Dados insuficientes para previsão"

  predicate NoNumericColumn(cols: seq<Column>) {
    forall i :: 0 <= i < |cols| ==> !cols[i].numeric
  }

  /** The lines drawn for the columns `cols`, in column order: one per numeric column. */
  function PlottedSeries(cols: seq<Column>): (r: seq<Series>)
    ensures |r| <= |cols|
    ensures forall k :: 0 <= k < |r| ==>
      r[k].column < |cols| && cols[r[k].column].numeric && r[k] == SeriesFor(r[k].column, cols[r[k].column])
    ensures forall k, l :: 0 <= k < l < |r| ==> r[k].column < r[l].column
    decreases |cols|
  {
    if |cols| == 0 then []
    else
      var n := |cols| - 1;
      var front := PlottedSeries(cols[..n]);
      if cols[n].numeric then front + [SeriesFor(n, cols[n])] else front
  }

  /** Every numeric column is drawn. */
  lemma {:induction false} PlottedSeriesCoversNumeric(cols: seq<Column>, i: nat)
    requires i < |cols| && cols[i].numeric
    ensures SeriesFor(i, cols[i]) in PlottedSeries(cols)
    decreases |cols|
  {
    var n := |cols| - 1;
    if i < n {
      assert cols[..n][i] == cols[i];
      PlottedSeriesCoversNumeric(cols[..n], i);
      PlottedSeriesKeepsFront(cols, SeriesFor(i, cols[i]));
    } else {
      PlottedSeriesDrawsLast(cols);
    }
  }

  /** A line drawn for a prefix of the columns is still drawn for all of them. */
  lemma PlottedSeriesKeepsFront(cols: seq<Column>, s: Series)
    requires |cols| > 0 && s in PlottedSeries(cols[..|cols| - 1])
    ensures s in PlottedSeries(cols)
  {
    var n := |cols| - 1;
    var front := PlottedSeries(cols[..n]);
    if cols[n].numeric {
      assert PlottedSeries(cols) == front + [SeriesFor(n, cols[n])];
    }
  }

  /** A numeric last column is drawn. */
  lemma PlottedSeriesDrawsLast(cols: seq<Column>)
    requires |cols| > 0 && cols[|cols| - 1].numeric
    ensures SeriesFor(|cols| - 1, cols[|cols| - 1]) in PlottedSeries(cols)
  {
    var n := |cols| - 1;
    assert PlottedSeries(cols) == PlottedSeries(cols[..n]) + [SeriesFor(n, cols[n])];
  }

  /** Nothing is drawn exactly when no column is numeric. */
  lemma {:induction false} PlottedSeriesEmpty(cols: seq<Column>)
    ensures PlottedSeries(cols) == [] <==> NoNumericColumn(cols)
    decreases |cols|
  {
    if |cols| > 0 {
      var n := |cols| - 1;
      if cols[n].numeric {
        PlottedSeriesDrawsLast(cols);
      } else {
        PlottedSeriesEmpty(cols[..n]);
        assert PlottedSeries(cols) == PlottedSeries(cols[..n]);
        assert forall i :: 0 <= i < n ==> cols[..n][i] == cols[i];
      }
    }
  }

  /** The plan for the value of the 'previsoes' entry (None when it is absent). */
  function ForecastPlan(forecast: Option<Frame>): (plan: ChartPlan)
    ensures plan.Placeholder? <==>
      forecast.None? || IsEmpty(forecast.value) || NoNumericColumn(forecast.value.columns)
    ensures plan.Placeholder? ==> plan.text == InsufficientData
    ensures plan.Plot? ==> plan.series == PlottedSeries(forecast.value.columns)
  {
    match forecast
    case None => Placeholder(InsufficientData)
    case Some(f) =>
      PlottedSeriesEmpty(f.columns);
      if IsEmpty(f) then Placeholder(InsufficientData)
      else
        var s := PlottedSeries(f.columns);
        if |s| > 0 then Plot(s) else Placeholder(InsufficientData)
  }

  /** The column loop of frontend.py:136-157: `tem_dados` becomes true at the first
      numeric column, each numeric column adds a line, and without any the
      placeholder text is drawn. */
  method PlanForecastChart(forecast: Option<Frame>) returns (plan: ChartPlan)
    ensures plan == ForecastPlan(forecast)
  {
    var hasData := false;
    var series: seq<Series> := [];
    if forecast.Some? && !IsEmpty(forecast.value) {
      var cols := forecast.value.columns;
      var i := 0;
      while i < |cols|
        invariant 0 <= i <= |cols|
        invariant series == PlottedSeries(cols[..i])
        invariant hasData <==> series != []
      {
        assert cols[..i + 1][..i] == cols[..i];
        if cols[i].numeric {
          hasData := true;
          series := series + [Series(i, ChartLabel(cols[i].name), Cores[i % |Cores|])];
        }
        i := i + 1;
      }
      assert cols[..|cols|] == cols;
    }
    if hasData {
      plan := Plot(series);
    } else {
      plan := Placeholder(InsufficientData);
    }
  }

  /** Every drawn line takes colour slot `column % 3`, its index in the full column
      list, whatever columns before it were skipped. */
  lemma PlottedSeriesColourSlot(cols: seq<Column>, k: nat)
    requires k < |PlottedSeries(cols)|
    ensures PlottedSeries(cols)[k].color == Cores[PlottedSeries(cols)[k].column % 3]
  {
    var s := PlottedSeries(cols)[k];
    assert s == SeriesFor(s.column, cols[s.column]);
  }

  /** Colour slots are taken by column position, so a skipped text column still
      uses one: here the third column is drawn in the third colour, not the second. */
  lemma SkippedColumnKeepsColourSlot(a: Column, b: Column, c: Column)
    requires a.numeric && !b.numeric && c.numeric
    ensures PlottedSeries([a, b, c]) == [SeriesFor(0, a), SeriesFor(2, c)]
    ensures PlottedSeries([a, b, c])[1].color == Cores[2]
  {
    var one, two, three := [a], [a, b], [a, b, c];
    assert one[..0] == [] && two[..1] == one && three[..2] == two;
    PlottedSeriesStep(one);
    PlottedSeriesStep(two);
    PlottedSeriesStep(three);
  }

  /** One column more: the last column adds its line exactly when it is numeric. */
  lemma PlottedSeriesStep(cols: seq<Column>)
    requires |cols| > 0
    ensures var n := |cols| - 1;
      PlottedSeries(cols) ==
        if cols[n].numeric then PlottedSeries(cols[..n]) + [SeriesFor(n, cols[n])] else PlottedSeries(cols[..n])
  {
  }
}
