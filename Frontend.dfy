/** frontend.py: the quality lookup tables and the refresh of the dashboard's
    module-level controls from the backend's latest summary. */
module Frontend {
  import opened Basics
  import opened Strings
  import opened Styles
  import opened Chart
  import opened ForecastChart

  // ------------------------------------------------------------ lookup tables

  /** The label shown before any reading, and the default of 'qualidade_ar'. */
  const Waiting: string := "Aguardando..."

  const UnknownStatus: string := "Status desconhecido"

  /** `color_map` of get_quality_color (frontend.py:62-70). */
  const QualityColors: map<string, string> := map[
    "Excelente" := Colors["excellent"],
    "Bom" := Colors["good"],
    "Moderado" := Colors["moderate"],
    "Ruim" := Colors["poor"],
    "IA não treinada" := Colors["info"],
    "Analisando..." := Colors["warning"],
    "Aguardando..." := Colors["text_muted"]
  ]

  /** `icon_map` of get_quality_icon (frontend.py:75-83). */
  const QualityIcons: map<string, Icon> := map[
    "Excelente" := SentimentVerySatisfied,
    "Bom" := SentimentSatisfied,
    "Moderado" := SentimentNeutral,
    "Ruim" := SentimentDissatisfied,
    "IA não treinada" := Computer,
    "Analisando..." := HourglassEmpty,
    "Aguardando..." := HourglassEmpty
  ]

  /** `desc_map` of get_quality_description (frontend.py:88-96). */
  const QualityDescriptions: map<string, string> := map[
    "Excelente" := "Qualidade do ar ideal para atividades ao ar livre",
    "Bom" := "Qualidade do ar aceitável para a maioria das pessoas",
    "Moderado" := "Algumas pessoas podem ser sensíveis",
    "Ruim" := "Evite atividades ao ar livre prolongadas",
    "IA não treinada" := "Modelo de IA ainda em treinamento",
    "Analisando..." := "Processando dados dos sensores",
    "Aguardando..." := "Aguardando primeira leitura"
  ]

  /** get_quality_color: unknown labels are muted, like the waiting label. */
  function QualityColor(quality: string): (c: string)
    ensures quality in QualityColors ==> c == QualityColors[quality]
    ensures c == Color("text_muted") <==> quality !in QualityColors || quality == Waiting
  {
    if quality in QualityColors then QualityColors[quality] else Colors["text_muted"]
  }

  /** get_quality_icon: the help icon marks exactly the unknown labels. */
  function QualityIcon(quality: string): (i: Icon)
    ensures quality in QualityIcons ==> i == QualityIcons[quality]
    ensures i == HelpOutline <==> quality !in QualityIcons
  {
    if quality in QualityIcons then QualityIcons[quality] else HelpOutline
  }

  /** get_quality_description: the fallback sentence marks exactly the unknown labels. */
  function QualityDescription(quality: string): (d: string)
    ensures quality in QualityDescriptions ==> d == QualityDescriptions[quality]
    ensures d == UnknownStatus <==> quality !in QualityDescriptions
  {
    if quality in QualityDescriptions then QualityDescriptions[quality] else UnknownStatus
  }

  /** The seven labels the tables know. */
  const QualityLabels: set<string> :=
    {"Excelente", "Bom", "Moderado", "Ruim", "IA não treinada", "Analisando...", "Aguardando..."}

  /** The three tables know the same seven labels, so a label is either known to
      all three or falls back in all three. */
  lemma QualityTablesAgree()
    ensures QualityColors.Keys == QualityLabels
    ensures QualityIcons.Keys == QualityLabels
    ensures QualityDescriptions.Keys == QualityLabels
  {
  }

  lemma UnknownQualityFallsBack(quality: string)
    requires quality !in QualityLabels
    ensures QualityColor(quality) == Color("text_muted") && QualityIcon(quality) == HelpOutline &&
      QualityDescription(quality) == UnknownStatus
  {
    QualityTablesAgree();
  }

  // ----------------------------------------------------------------- summary

  /** The keys of the five metric texts, in the order the refresh sets them. */
  const ConcentrationKey: string := "Concentracao_Geral_PPM"
  const Pm25Key: string := "PM2.5_ug_m3"
  const Pm10Key: string := "PM10_ug_m3"
  const TemperatureKey: string := "Temperatura_C"
  const HumidityKey: string := "Umidade_Relativa_percent"

  /** The dict get_latest_data_summary returns: its numeric entries (a value may be
      None), the 'qualidade_ar' entry and the 'previsoes' entry. */
  datatype Summary = Summary(metrics: map<string, Option<real>>, quality: Entry<string>, forecast: Entry<Frame>)

  /** `if summary:` for a dict: true when it has at least one key. */
  predicate Truthy(s: Summary) {
    |s.metrics| > 0 || !s.quality.Missing? || !s.forecast.Missing?
  }

  /** `summary.get(key)`, formatted with `f"{x:.1f}"`, or "--" for None. */
  function MetricText(metrics: map<string, Option<real>>, key: string): (t: string)
    ensures t == "--" <==> key !in metrics || metrics[key].None?
  {
    if key in metrics && metrics[key].Some? then
      FormatIsNotPlaceholder(metrics[key].value);
      FormatOneDecimal(metrics[key].value)
    else "--"
  }

  /** A metric text that is not the placeholder reads back as the reading rounded
      to one decimal. */
  lemma MetricTextReadsBack(metrics: map<string, Option<real>>, key: string)
    requires MetricText(metrics, key) != "--"
    ensures key in metrics && metrics[key].Some?
    ensures ParseOneDecimal(MetricText(metrics, key)) == Some(ShownValue(metrics[key].value))
  {
    FormatReadsBack(metrics[key].value);
  }

  /** The five metric keys in the order of the texts on the page. */
  const MetricKeys: seq<string> := [ConcentrationKey, Pm25Key, Pm10Key, TemperatureKey, HumidityKey]

  /** The five metric texts of a summary, in page order. */
  function MetricTexts(metrics: map<string, Option<real>>): (t: seq<string>)
    ensures |t| == 5
    ensures forall i :: 0 <= i < 5 ==> t[i] == MetricText(metrics, MetricKeys[i])
  {
    [MetricText(metrics, ConcentrationKey), MetricText(metrics, Pm25Key), MetricText(metrics, Pm10Key),
     MetricText(metrics, TemperatureKey), MetricText(metrics, HumidityKey)]
  }

  /** Each text depends on its own key only: changing the entry of any other key
      leaves it as it was. */
  lemma MetricTextsIndependent(metrics: map<string, Option<real>>, key: string, value: Option<real>, i: nat)
    requires i < 5 && MetricKeys[i] != key
    ensures MetricTexts(metrics[key := value])[i] == MetricTexts(metrics)[i]
  {
  }

  /** `summary_data.get('previsoes')`: None when the key is absent or holds None. */
  function ForecastOf(s: Option<Summary>): (f: Option<Frame>)
    ensures f.Some? <==> s.Some? && s.value.forecast.Present?
  {
    if s.Some? && s.value.forecast.Present? then Some(s.value.forecast.value) else None
  }

  // -------------------------------------------------------------------- view

  /** The quality card's controls: the label text, the description, and the icon
      with its colour. */
  datatype QualityCard = QualityCard(text: string, description: string, icon: Icon, iconColor: string)

  /** The status badge's controls: the dot colour, the text and its colour, and the
      container's background. */
  datatype StatusBadge = StatusBadge(dotColor: string, text: string, textColor: string, background: string)

  /** Everything the refresh touches: the five metric text controls in page order
      (concentration, PM2.5, PM10, temperature, humidity), the quality card, the
      status badge, the timestamp, the chart (None before the first image), the
      loading ring, the number of page renders, and the value texts the metric
      cards were built with. */
  datatype DashboardView = DashboardView(
    readings: seq<string>, card: QualityCard, badge: StatusBadge,
    timestamp: string, chart: Option<ChartPlan>, busy: bool, renders: nat,
    cardValues: seq<string>)

  /** Why a refresh stopped early: `None.upper()` at frontend.py:200, or
      `None.get` at frontend.py:136 when the backend returned None. */
  datatype Failure = QualityIsNone | SummaryIsNone

  datatype Outcome = Completed | Raised(failure: Failure)

  datatype Cycle = Cycle(view: DashboardView, outcome: Outcome)

  /** The controls as frontend.py builds them at import and in main (lines 29-53,
      235-273): every text a placeholder, the badge "connecting" in warning colour. */
  function InitialView(): DashboardView {
    DashboardView(["--", "--", "--", "--", "--"],
      QualityCard(Waiting, "Análise em andamento", HelpOutline, Colors["text_muted"]),
      StatusBadge(Colors["warning"], "Conectando...", Colors["warning"], Colors["warning"] + "20"),
      "Última atualização: --", None, false, 0,
      ["--", "--", "--", "--", "--"])
  }

  /** frontend.py:183-196: each text from its own key. */
  function WithMetrics(v: DashboardView, metrics: map<string, Option<real>>): DashboardView {
    v.(readings := MetricTexts(metrics))
  }

  /** frontend.py:200-205: text, description, icon and colour from one label. */
  function WithQuality(v: DashboardView, quality: string): DashboardView {
    v.(card := QualityCard(Upper(quality), QualityDescription(quality), QualityIcon(quality), QualityColor(quality)))
  }

  /** frontend.py:208-213: the badge turns "Conectado" in success colour (its
      background is left as it was) and the timestamp takes the clock reading. */
  function WithConnected(v: DashboardView, clock: string): DashboardView {
    v.(badge := v.badge.(dotColor := Colors["success"], text := "Conectado", textColor := Colors["success"]),
       timestamp := "Última atualização: " + clock)
  }

  /** frontend.py:216-219: the chart step, then the ring is hidden and the page
      rendered; with no summary at all the chart step raises. */
  function Finish(v: DashboardView, summary: Option<Summary>): Cycle {
    if summary.None? then Cycle(v, Raised(SummaryIsNone))
    else Cycle(v.(chart := Some(ForecastPlan(ForecastOf(summary))), busy := false, renders := v.renders + 1),
      Completed)
  }

  /** `summary.get('qualidade_ar', "Aguardando...")` for an entry that is not None. */
  function QualityName(quality: Entry<string>): string {
    if quality.Present? then quality.value else Waiting
  }

  /** frontend.py:182-213 for a truthy summary: the metric texts, then (unless the
      quality entry is None, which raises) the quality card, badge and timestamp. */
  function ShowSummaryView(v: DashboardView, s: Summary, clock: string): DashboardView {
    var withMetrics := WithMetrics(v, s.metrics);
    if s.quality.Null? then withMetrics
    else WithConnected(WithQuality(withMetrics, QualityName(s.quality)), clock)
  }

  /** One run of atualizar_elementos_ui (frontend.py:174-219) with the summary the
      backend returned and the clock reading `clock`. */
  function RefreshCycle(v: DashboardView, summary: Option<Summary>, clock: string): Cycle {
    var shown := v.(busy := true, renders := v.renders + 1);
    if summary.Some? && Truthy(summary.value) then
      var after := ShowSummaryView(shown, summary.value, clock);
      if summary.value.quality.Null? then Cycle(after, Raised(QualityIsNone))
      else Finish(after, summary)
    else Finish(shown, summary)
  }

  // ----------------------------------------------------------------- lemmas

  /** The loading ring is visible after a cycle exactly when it stopped early, and
      the page was rendered twice after a completed cycle, once after a failed one. */
  lemma RefreshBusyFlag(v: DashboardView, summary: Option<Summary>, clock: string)
    ensures var c := RefreshCycle(v, summary, clock);
      (c.outcome == Completed <==> !c.view.busy) &&
      c.view.renders == v.renders + (if c.outcome == Completed then 2 else 1)
    ensures RefreshCycle(v, summary, clock).outcome == Raised(SummaryIsNone) <==> summary.None?
    ensures RefreshCycle(v, summary, clock).outcome == Raised(QualityIsNone) <==>
      summary.Some? && summary.value.quality.Null?
  {
  }

  /** After a truthy summary the five metric controls show the summary's metric
      texts, whatever else happens in the cycle. */
  lemma RefreshShowsMetrics(v: DashboardView, s: Summary, clock: string)
    requires Truthy(s)
    ensures RefreshCycle(v, Some(s), clock).view.readings == MetricTexts(s.metrics)
  {
  }

  /** The label defaults to "Aguardando..." only when the key is absent; text,
      description, icon and colour all come from that one label. */
  lemma RefreshQualityLabel(v: DashboardView, s: Summary, clock: string)
    requires Truthy(s) && !s.quality.Null?
    ensures var q := if s.quality.Present? then s.quality.value else Waiting;
      var c := RefreshCycle(v, Some(s), clock);
      c.outcome == Completed &&
      c.view.card == QualityCard(Upper(q), QualityDescription(q), QualityIcon(q), QualityColor(q)) &&
      (c.view.card.description == UnknownStatus <==> c.view.card.icon == HelpOutline)
    ensures var c := RefreshCycle(v, Some(s), clock);
      c.view.badge == StatusBadge(Color("success"), "Conectado", Color("success"), v.badge.background)
  {
    var q := if s.quality.Present? then s.quality.value else Waiting;
    QualityTablesAgree();
  }

  /** A None quality entry stops the cycle after the metric texts are set: the
      quality card, badge, timestamp and chart keep their old values and the ring
      stays visible. */
  lemma RefreshQualityNone(v: DashboardView, s: Summary, clock: string)
    requires s.quality.Null?
    ensures var c := RefreshCycle(v, Some(s), clock);
      c.outcome == Raised(QualityIsNone) && c.view.busy &&
      c.view == WithMetrics(v, s.metrics).(busy := true, renders := v.renders + 1)
  {
  }

  /** An empty summary leaves every text, the quality card, the badge and the
      timestamp as they were, and the chart falls back to the placeholder. */
  lemma RefreshFalsyKeepsFields(v: DashboardView, s: Summary, clock: string)
    requires !Truthy(s)
    ensures var c := RefreshCycle(v, Some(s), clock);
      c.outcome == Completed &&
      c.view == v.(chart := Some(Placeholder(InsufficientData)), busy := false, renders := v.renders + 2)
  {
  }

  /** A None summary is rendered busy and then raises: nothing else changes. */
  lemma RefreshNoneRaises(v: DashboardView, clock: string)
    ensures RefreshCycle(v, None, clock) == Cycle(v.(busy := true, renders := v.renders + 1), Raised(SummaryIsNone))
  {
  }

  /** No refresh changes the badge background. */
  lemma RefreshKeepsBadgeBackground(v: DashboardView, summary: Option<Summary>, clock: string)
    ensures RefreshCycle(v, summary, clock).view.badge.background == v.badge.background
  {
  }

  /** The badge background is set once, from the "connecting" warning colour, so a
      connected badge keeps an orange tint. */
  lemma BadgeBackgroundStaysWarning(summary: Option<Summary>, clock: string)
    ensures RefreshCycle(InitialView(), summary, clock).view.badge.background == Color("warning") + "20"
  {
    RefreshKeepsBadgeBackground(InitialView(), summary, clock);
  }

  // ------------------------------------------------------------------ finding

  /** As written, the metric cards show fresh text controls built from the
      placeholder strings in main, not the controls the refresh updates: after a
      completed refresh with a concentration reading, the card still shows "--". */
  lemma CardsStayPlaceholder(s: Summary, clock: string)
    requires Truthy(s) && !s.quality.Null?
    requires ConcentrationKey in s.metrics && s.metrics[ConcentrationKey].Some?
    ensures var r := RefreshCycle(InitialView(), Some(s), clock).view;
      r.cardValues[0] == "--" && r.readings[0] != r.cardValues[0]
  {
  }

  /** With the cards showing the controls, every card shows its own metric after a
      refresh: "--" exactly when that metric is absent or None, otherwise a text that
      reads back as the reading rounded to one decimal. */
  lemma IntendedCardsShowReadings(v: DashboardView, s: Summary, clock: string, i: nat)
    requires Truthy(s) && i < 5
    ensures var card := RefreshCycle(v, Some(s), clock).view.readings[i];
      (card == "--" <==> MetricKeys[i] !in s.metrics || s.metrics[MetricKeys[i]].None?) &&
      (card != "--" ==> ParseOneDecimal(card) == Some(ShownValue(s.metrics[MetricKeys[i]].value)))
  {
    RefreshShowsMetrics(v, s, clock);
    if MetricText(s.metrics, MetricKeys[i]) != "--" {
      MetricTextReadsBack(s.metrics, MetricKeys[i]);
    }
  }

  // -------------------------------------------------------------------- class

  /** The module-level controls of frontend.py and the page that renders them. */
  class Dashboard {
    /** `texto_concentracao_geral` … `texto_umidade`, in page order. */
    var readings: seq<string>
    /** `texto_qualidade_ar`, `descricao_qualidade` and `icone_qualidade_ar`. */
    var card: QualityCard
    /** `status_indicator` and its dot, text and container. */
    var badge: StatusBadge
    var timestamp: string
    var chart: Option<ChartPlan>
    /** `indicador_carregamento.visible`. */
    var busy: bool
    /** Number of `page.update()` calls so far. */
    var renders: nat
    /** The value strings main passed to create_metric_card. */
    var cardValues: seq<string>

    function View(): DashboardView
      reads this
    {
      DashboardView(readings, card, badge, timestamp, chart, busy, renders, cardValues)
    }

    /** Import of frontend.py followed by main: the controls with their initial texts. */
    constructor ()
      ensures View() == InitialView()
    {
      readings := ["--", "--", "--", "--", "--"];
      card := QualityCard(Waiting, "Análise em andamento", HelpOutline, Colors["text_muted"]);
      badge := StatusBadge(Colors["warning"], "Conectando...", Colors["warning"], Colors["warning"] + "20");
      timestamp := "Última atualização: --";
      chart, busy, renders := None, false, 0;
      cardValues := readings;
    }

    /** atualizar_elementos_ui with the summary the backend returned and the time
        `clock`: the fields are set in the source's order, and an exception ends the
        cycle where the source raises. */
    method Refresh(summary: Option<Summary>, clock: string) returns (outcome: Outcome)
      modifies this
      ensures Cycle(View(), outcome) == RefreshCycle(old(View()), summary, clock)
    {
      StartCycle();
      if summary.Some? && Truthy(summary.value) {
        var completed := ShowSummary(summary.value, clock);
        if !completed {
          return Raised(QualityIsNone);
        }
      }
      outcome := FinishCycle(summary);
    }

    /** frontend.py:216-219: the chart step, which raises on a None summary, then
        the ring is hidden and the page rendered. */
    method FinishCycle(summary: Option<Summary>) returns (outcome: Outcome)
      modifies this
      ensures Cycle(View(), outcome) == Finish(old(View()), summary)
    {
      if summary.None? {
        return Raised(SummaryIsNone);
      }
      DrawChart(ForecastOf(summary));
      EndCycle();
      outcome := Completed;
    }

    /** frontend.py:182-213; false when `None.upper()` raises. */
    method ShowSummary(s: Summary, clock: string) returns (completed: bool)
      modifies this
      ensures completed <==> !s.quality.Null?
      ensures View() == ShowSummaryView(old(View()), s, clock)
    {
      ShowMetrics(s.metrics);
      if s.quality.Null? {
        return false;
      }
      var name := if s.quality.Present? then s.quality.value else Waiting;
      ShowQuality(name);
      ShowConnected(clock);
      completed := true;
    }

    /** frontend.py:176-177: the loading ring is shown and the page rendered. */
    method StartCycle()
      modifies this
      ensures View() == old(View()).(busy := true, renders := old(renders) + 1)
    {
      busy := true;
      renders := renders + 1;
    }

    /** frontend.py:216: the chart image is redrawn from the forecast entry. */
    method DrawChart(forecast: Option<Frame>)
      modifies this
      ensures View() == old(View()).(chart := Some(ForecastPlan(forecast)))
    {
      var plan := PlanForecastChart(forecast);
      chart := Some(plan);
    }

    /** frontend.py:218-219: the loading ring is hidden and the page rendered. */
    method EndCycle()
      modifies this
      ensures View() == old(View()).(busy := false, renders := old(renders) + 1)
    {
      busy := false;
      renders := renders + 1;
    }

    /** frontend.py:183-196: each of the five texts from its own key. */
    method ShowMetrics(metrics: map<string, Option<real>>)
      modifies this
      ensures View() == WithMetrics(old(View()), metrics)
    {
      readings := [MetricText(metrics, ConcentrationKey), MetricText(metrics, Pm25Key),
        MetricText(metrics, Pm10Key), MetricText(metrics, TemperatureKey), MetricText(metrics, HumidityKey)];
    }

    /** frontend.py:200-205. */
    method ShowQuality(name: string)
      modifies this
      ensures View() == WithQuality(old(View()), name)
    {
      card := QualityCard(Upper(name), QualityDescription(name), QualityIcon(name), QualityColor(name));
    }

    /** frontend.py:208-213: the badge background is not touched. */
    method ShowConnected(clock: string)
      modifies this
      ensures View() == WithConnected(old(View()), clock)
    {
      badge := badge.(dotColor := Colors["success"], text := "Conectado", textColor := Colors["success"]);
      timestamp := "Última atualização: " + clock;
    }
  }
}
