/** demo_simple.py: the band classifier of the air-quality verdict, its description
    table, and the refresh of the page's module-level controls. */
module DemoSimple {
  import opened Basics
  import opened Strings
  import opened Progress

  /** The script's own palette (demo_simple.py:17-29), not the one in styles.py. */
  const DemoColors: map<string, string> := map[
    "primary" := "#2E7D32",
    "secondary" := "#4CAF50",
    "accent" := "#81C784",
    "background" := "#F5F5F5",
    "surface" := "#FFFFFF",
    "text_primary" := "#212121",
    "text_secondary" := "#757575",
    "success" := "#4CAF50",
    "warning" := "#FF9800",
    "danger" := "#F44336",
    "info" := "#2196F3"
  ]

  // ---------------------------------------------------------------- verdict

  /** The four verdicts, best first. */
  datatype Verdict = Excelente | Bom | Moderado | Ruim

  /** The label string the classifier returns. */
  function Label(v: Verdict): string {
    match v
    case Excelente => "Excelente"
    case Bom => "Bom"
    case Moderado => "Moderado"
    case Ruim => "Ruim"
  }

  /** 0 for the best verdict, 3 for the worst. */
  function Rank(v: Verdict): nat {
    match v
    case Excelente => 0
    case Bom => 1
    case Moderado => 2
    case Ruim => 3
  }

  /** The triple `(label, icon, colour)` of determinar_qualidade_ar. */
  datatype Assessment = Assessment(verdict: Verdict, icon: Icon, color: string)

  /** The first-match cascade of demo_simple.py:56-66; every bound is strict. */
  function Classify(concentration: real, pm25: real, pm10: real): (a: Assessment)
    ensures a.verdict == Excelente <==> concentration < 200.0 && pm25 < 12.0 && pm10 < 25.0
    ensures a.verdict == Bom <==>
      !(concentration < 200.0 && pm25 < 12.0 && pm10 < 25.0) &&
      concentration < 400.0 && pm25 < 25.0 && pm10 < 50.0
    ensures a.verdict == Moderado <==>
      !(concentration < 400.0 && pm25 < 25.0 && pm10 < 50.0) &&
      concentration < 600.0 && pm25 < 35.0 && pm10 < 75.0
    ensures a.verdict == Ruim <==> !(concentration < 600.0 && pm25 < 35.0 && pm10 < 75.0)
    ensures a.color == DemoColors["success"] <==> a.verdict in {Excelente, Bom}
    ensures a.color == DemoColors["warning"] <==> a.verdict == Moderado
    ensures a.color == DemoColors["danger"] <==> a.verdict == Ruim
  {
    if concentration < 200.0 && pm25 < 12.0 && pm10 < 25.0 then
      Assessment(Excelente, SentimentVerySatisfied, DemoColors["success"])
    else if concentration < 400.0 && pm25 < 25.0 && pm10 < 50.0 then
      Assessment(Bom, SentimentSatisfied, DemoColors["success"])
    else if concentration < 600.0 && pm25 < 35.0 && pm10 < 75.0 then
      Assessment(Moderado, SentimentNeutral, DemoColors["warning"])
    else
      Assessment(Ruim, SentimentDissatisfied, DemoColors["danger"])
  }

  /** The band a single reading falls in, given its three upper bounds. */
  function Band(x: real, b1: real, b2: real, b3: real): nat {
    if x < b1 then 0 else if x < b2 then 1 else if x < b3 then 2 else 3
  }

  function Max(a: nat, b: nat): nat { if a < b then b else a }

  /** Reference definition of the verdict: the worst of the three per-pollutant bands. */
  function WorstBand(concentration: real, pm25: real, pm10: real): nat {
    Max(Band(concentration, 200.0, 400.0, 600.0), Max(Band(pm25, 12.0, 25.0, 35.0), Band(pm10, 25.0, 50.0, 75.0)))
  }

  /** The cascade of conjunctions is the same as taking the worst band: this works
      because the bands are nested, each bound at least the one before it. */
  lemma ClassifyIsWorstBand(concentration: real, pm25: real, pm10: real)
    ensures Rank(Classify(concentration, pm25, pm10).verdict) == WorstBand(concentration, pm25, pm10)
  {
  }

  lemma BandMonotone(x: real, y: real, b1: real, b2: real, b3: real)
    requires x <= y && b1 <= b2 <= b3
    ensures Band(x, b1, b2, b3) <= Band(y, b1, b2, b3)
  {
  }

  /** A worse reading of any pollutant, the others fixed or also worse, never gives
      a better verdict. */
  lemma ClassifyMonotone(c1: real, p1: real, q1: real, c2: real, p2: real, q2: real)
    requires c1 <= c2 && p1 <= p2 && q1 <= q2
    ensures Rank(Classify(c1, p1, q1).verdict) <= Rank(Classify(c2, p2, q2).verdict)
  {
    ClassifyIsWorstBand(c1, p1, q1);
    ClassifyIsWorstBand(c2, p2, q2);
    BandMonotone(c1, c2, 200.0, 400.0, 600.0);
    BandMonotone(p1, p2, 12.0, 25.0, 35.0);
    BandMonotone(q1, q2, 25.0, 50.0, 75.0);
  }

  /** Each verdict has its own icon, so the icon alone tells the verdict. */
  lemma ClassifyIconIdentifiesVerdict(c1: real, p1: real, q1: real, c2: real, p2: real, q2: real)
    ensures Classify(c1, p1, q1).icon == Classify(c2, p2, q2).icon <==>
      Classify(c1, p1, q1).verdict == Classify(c2, p2, q2).verdict
  {
  }

  // ------------------------------------------------------------ description

  const Unknown: string := "Status desconhecido"

  /** `desc_map` of get_qualidade_description (demo_simple.py:70-75). */
  const Descriptions: map<string, string> := map[
    "Excelente" := "Qualidade do ar ideal para atividades ao ar livre",
    "Bom" := "Qualidade do ar aceitável para a maioria das pessoas",
    "Moderado" := "Algumas pessoas podem ser sensíveis",
    "Ruim" := "Evite atividades ao ar livre prolongadas"
  ]

  /** `desc_map.get(qualidade, 'Status desconhecido')`. */
  function Describe(name: string): (d: string)
    ensures name in Descriptions ==> d == Descriptions[name]
    ensures d == Unknown <==> name !in Descriptions
  {
    if name in Descriptions then Descriptions[name] else Unknown
  }

  /** Every label the classifier produces has its own sentence. */
  lemma DescribeVerdicts(v: Verdict, w: Verdict)
    ensures Describe(Label(v)) != Unknown
    ensures Describe(Label(v)) == Describe(Label(w)) <==> v == w
  {
  }

  /** Composed with the classifier, the lookup never falls back. */
  lemma DescribeClassification(concentration: real, pm25: real, pm10: real)
    ensures Describe(Label(Classify(concentration, pm25, pm10).verdict)) != Unknown
  {
    DescribeVerdicts(Classify(concentration, pm25, pm10).verdict, Excelente);
  }

  /** The upper-cased labels shown in the quality text. */
  lemma ShownLabels()
    ensures Upper(Label(Excelente)) == "EXCELENTE"
    ensures Upper(Label(Bom)) == "BOM"
    ensures Upper(Label(Moderado)) == "MODERADO"
    ensures Upper(Label(Ruim)) == "RUIM"
  {
  }

  // ---------------------------------------------------------------- readings

  /** The dict `dados`: the five readings the page shows. */
  datatype Reading = Reading(concentration: real, pm25: real, pm10: real, temperature: real, humidity: real)

  /** The reading the page starts with (demo_simple.py:231-237). */
  const InitialReading: Reading := Reading(245.7, 18.3, 32.1, 24.5, 65.2)

  /** The ranges gerar_valores_aleatorios draws each reading from (demo_simple.py:48-54). */
  predicate InGeneratorRange(d: Reading) {
    50.0 <= d.concentration <= 800.0 && 5.0 <= d.pm25 <= 60.0 && 10.0 <= d.pm10 <= 120.0 &&
    15.0 <= d.temperature <= 35.0 && 30.0 <= d.humidity <= 90.0
  }

  /** The initial reading is 'Bom': it misses 'Excelente' on concentration and on
      both particulate bounds, and is inside every 'Bom' bound. */
  lemma InitialReadingIsBom()
    ensures Classify(InitialReading.concentration, InitialReading.pm25, InitialReading.pm10).verdict == Bom
    ensures InGeneratorRange(InitialReading)
  {
  }

  /** Every verdict can come out of the random generator. */
  lemma GeneratorReachesEveryVerdict(v: Verdict)
    ensures exists d :: InGeneratorRange(d) && Classify(d.concentration, d.pm25, d.pm10).verdict == v
  {
    var d := match v
      case Excelente => Reading(100.0, 6.0, 20.0, 20.0, 50.0)
      case Bom => Reading(300.0, 20.0, 40.0, 20.0, 50.0)
      case Moderado => Reading(500.0, 30.0, 60.0, 20.0, 50.0)
      case Ruim => Reading(700.0, 50.0, 100.0, 20.0, 50.0);
    assert InGeneratorRange(d) && Classify(d.concentration, d.pm25, d.pm10).verdict == v;
  }

  // ------------------------------------------------------------------- chart

  /** One line of gerar_grafico_demo: legend, colour, the reading it is centred on
      and the standard deviation of the normal noise added to it. */
  datatype DemoLine = DemoLine(legend: string, color: string, center: real, spread: real)

  /** The three lines of the demo chart (demo_simple.py:144-156). The noise itself
      is random and is not modelled. */
  function DemoChart(d: Reading): (lines: seq<DemoLine>)
    requires d.concentration >= 0.0 && d.pm25 >= 0.0 && d.pm10 >= 0.0
    ensures |lines| == 3
    ensures lines[0].center == d.concentration && lines[1].center == d.pm25 && lines[2].center == d.pm10
    ensures forall i :: 0 <= i < 3 ==> 0.0 <= lines[i].spread <= lines[i].center * 0.15
    ensures forall i, j :: 0 <= i < j < 3 ==> lines[i].color != lines[j].color && lines[i].legend != lines[j].legend
  {
    [ DemoLine("Concentração PPM", DemoColors["primary"], d.concentration, d.concentration * 0.1),
      DemoLine("PM2.5 µg/m³", DemoColors["secondary"], d.pm25, d.pm25 * 0.15),
      DemoLine("PM10 µg/m³", DemoColors["accent"], d.pm10, d.pm10 * 0.12) ]
  }

  // ------------------------------------------------------------------ display

  /** The name and colour of the quality icon control. */
  datatype IconState = IconState(name: Icon, color: string)

  /** A progress bar as built by create_progress_bar: the value and maximum it
      prints and the colour of its fill. */
  datatype ProgressBar = ProgressBar(value: real, maxValue: real, color: string)

  /** Width of the filled part of a bar. */
  function Fill(b: ProgressBar): real {
    CappedPercentage(b.value, b.maxValue)
  }

  /** Everything the module-level controls show; None is a control not built yet. */
  datatype DemoView = DemoView(
    concentration: Option<string>, pm25: Option<string>, pm10: Option<string>,
    temperature: Option<string>, humidity: Option<string>,
    quality: Option<string>, description: Option<string>, icon: Option<IconState>,
    timestamp: Option<string>, chart: Option<seq<DemoLine>>,
    progress: seq<Option<ProgressBar>>)

  /** `"Última atualização: " + HH:MM:SS`; the clock reading is a parameter. */
  function TimestampText(clock: string): string {
    "Última atualização: " + clock
  }

  /** Replace the value of a control only when it exists. */
  function SetIfPresent<T>(control: Option<T>, value: T): Option<T> {
    if control.Some? then Some(value) else None
  }

  /** The view after atualizar_interface(page, d) (demo_simple.py:172-211). */
  function Updated(v: DemoView, d: Reading, clock: string): DemoView
    requires d.concentration >= 0.0 && d.pm25 >= 0.0 && d.pm10 >= 0.0
  {
    var a := Classify(d.concentration, d.pm25, d.pm10);
    DemoView(
      SetIfPresent(v.concentration, FormatOneDecimal(d.concentration)),
      SetIfPresent(v.pm25, FormatOneDecimal(d.pm25)),
      SetIfPresent(v.pm10, FormatOneDecimal(d.pm10)),
      SetIfPresent(v.temperature, FormatOneDecimal(d.temperature)),
      SetIfPresent(v.humidity, FormatOneDecimal(d.humidity)),
      SetIfPresent(v.quality, Upper(Label(a.verdict))),
      SetIfPresent(v.description, Describe(Label(a.verdict))),
      SetIfPresent(v.icon, IconState(a.icon, a.color)),
      SetIfPresent(v.timestamp, TimestampText(clock)),
      SetIfPresent(v.chart, DemoChart(d)),
      v.progress)
  }

  /** The view main builds from its first reading (demo_simple.py:230-319). */
  function InitialView(d: Reading, clock: string): DemoView
    requires d.concentration >= 0.0 && d.pm25 >= 0.0 && d.pm10 >= 0.0
  {
    var a := Classify(d.concentration, d.pm25, d.pm10);
    DemoView(
      Some(FormatOneDecimal(d.concentration)), Some(FormatOneDecimal(d.pm25)), Some(FormatOneDecimal(d.pm10)),
      Some(FormatOneDecimal(d.temperature)), Some(FormatOneDecimal(d.humidity)),
      Some(Upper(Label(a.verdict))), Some(Describe(Label(a.verdict))), Some(IconState(a.icon, a.color)),
      Some(TimestampText(clock)), Some(DemoChart(d)), InitialBars(d))
  }

  /** The three bars main builds (demo_simple.py:265-267): concentration out of
      1000, PM2.5 out of 50 and PM10 out of 100. */
  function InitialBars(d: Reading): seq<Option<ProgressBar>> {
    [ Some(ProgressBar(d.concentration, 1000.0, DemoColors["primary"])),
      Some(ProgressBar(d.pm25, 50.0, DemoColors["secondary"])),
      Some(ProgressBar(d.pm10, 100.0, DemoColors["accent"])) ]
  }

  /** A built control shows the reading to one decimal; a missing one stays missing. */
  lemma UpdatedShowsReadings(v: DemoView, d: Reading, clock: string)
    requires d.concentration >= 0.0 && d.pm25 >= 0.0 && d.pm10 >= 0.0
    ensures var r := Updated(v, d, clock);
      (r.concentration.Some? <==> v.concentration.Some?) &&
      (r.concentration.Some? ==> ParseOneDecimal(r.concentration.value) == Some(ShownValue(d.concentration))) &&
      (r.pm25.Some? <==> v.pm25.Some?) &&
      (r.pm25.Some? ==> ParseOneDecimal(r.pm25.value) == Some(ShownValue(d.pm25))) &&
      (r.pm10.Some? <==> v.pm10.Some?) &&
      (r.pm10.Some? ==> ParseOneDecimal(r.pm10.value) == Some(ShownValue(d.pm10))) &&
      (r.temperature.Some? <==> v.temperature.Some?) &&
      (r.temperature.Some? ==> ParseOneDecimal(r.temperature.value) == Some(ShownValue(d.temperature))) &&
      (r.humidity.Some? <==> v.humidity.Some?) &&
      (r.humidity.Some? ==> ParseOneDecimal(r.humidity.value) == Some(ShownValue(d.humidity)))
  {
    FormatReadsBack(d.concentration);
    FormatReadsBack(d.pm25);
    FormatReadsBack(d.pm10);
    FormatReadsBack(d.temperature);
    FormatReadsBack(d.humidity);
  }

  /** Quality text, description and icon all come from one classification, and the
      description is never the fallback. */
  lemma UpdatedQualityAgrees(v: DemoView, d: Reading, clock: string)
    requires d.concentration >= 0.0 && d.pm25 >= 0.0 && d.pm10 >= 0.0
    requires v.quality.Some? && v.description.Some? && v.icon.Some?
    ensures var r := Updated(v, d, clock);
      var a := Classify(d.concentration, d.pm25, d.pm10);
      var verdict := a.verdict;
      r.quality == Some(Upper(Label(verdict))) &&
      r.icon == Some(IconState(a.icon, a.color)) &&
      r.description == Some(Describe(Label(verdict))) && r.description != Some(Unknown) &&
      Rank(verdict) == WorstBand(d.concentration, d.pm25, d.pm10) &&
      (r.icon.value.color == DemoColors["success"] <==> Rank(verdict) <= 1)
  {
    DescribeClassification(d.concentration, d.pm25, d.pm10);
    ClassifyIsWorstBand(d.concentration, d.pm25, d.pm10);
  }

  /** The progress bars are never refreshed: after new data they still show the
      values of the first reading. */
  lemma UpdatedKeepsProgressBars(d0: Reading, d: Reading, c0: string, c: string)
    requires d0.concentration >= 0.0 && d0.pm25 >= 0.0 && d0.pm10 >= 0.0
    requires d.concentration >= 0.0 && d.pm25 >= 0.0 && d.pm10 >= 0.0
    ensures Updated(InitialView(d0, c0), d, c).progress == InitialView(d0, c0).progress
    ensures Updated(InitialView(d0, c0), d, c).progress[0].value.value == d0.concentration
  {
  }

  /** For the generator's non-negative readings each bar's fill lies in [0, 100]
      and is full exactly from its maximum on. */
  lemma InitialBarsFill(d: Reading)
    requires d.concentration >= 0.0 && d.pm25 >= 0.0 && d.pm10 >= 0.0
    ensures var p := InitialBars(d);
      |p| == 3 && (forall i :: 0 <= i < 3 ==> p[i].Some? && 0.0 <= Fill(p[i].value) <= 100.0) &&
      (Fill(p[0].value) == 100.0 <==> d.concentration >= 1000.0) &&
      (Fill(p[1].value) == 100.0 <==> d.pm25 >= 50.0) &&
      (Fill(p[2].value) == 100.0 <==> d.pm10 >= 100.0)
  {
    CappedPercentageRange(d.concentration, 1000.0);
    CappedPercentageRange(d.pm25, 50.0);
    CappedPercentageRange(d.pm10, 100.0);
  }

  /** Refreshing with the reading and clock the page was built with leaves the view
      as it was, the chart taken as its plan (the redrawn noise is not modelled). */
  lemma InitialViewIsUpdateFixpoint(d: Reading, clock: string)
    requires d.concentration >= 0.0 && d.pm25 >= 0.0 && d.pm10 >= 0.0
    ensures Updated(InitialView(d, clock), d, clock) == InitialView(d, clock)
  {
  }

  /** The page's module-level controls and its render count. */
  class DemoDisplay {
    var concentration: Option<string>
    var pm25: Option<string>
    var pm10: Option<string>
    var temperature: Option<string>
    var humidity: Option<string>
    var quality: Option<string>
    var description: Option<string>
    var icon: Option<IconState>
    var timestamp: Option<string>
    var chart: Option<seq<DemoLine>>
    var progress: seq<Option<ProgressBar>>
    /** Number of `page.update()` calls so far. */
    var renders: nat

    function View(): DemoView
      reads this
    {
      DemoView(concentration, pm25, pm10, temperature, humidity, quality, description, icon,
        timestamp, chart, progress)
    }

    /** The state at import time: every global is None (demo_simple.py:32-44). */
    constructor Unbuilt()
      ensures View() == DemoView(None, None, None, None, None, None, None, None, None, None,
        [None, None, None])
      ensures renders == 0
    {
      concentration, pm25, pm10, temperature, humidity := None, None, None, None, None;
      quality, description, icon, timestamp, chart := None, None, None, None, None;
      progress := [None, None, None];
      renders := 0;
    }

    /** main(page): every control is built from the first reading. */
    constructor Launch(d: Reading, clock: string)
      requires d.concentration >= 0.0 && d.pm25 >= 0.0 && d.pm10 >= 0.0
      ensures View() == InitialView(d, clock)
      ensures renders == 0
    {
      var a := Classify(d.concentration, d.pm25, d.pm10);
      timestamp := Some(TimestampText(clock));
      concentration := Some(FormatOneDecimal(d.concentration));
      pm25 := Some(FormatOneDecimal(d.pm25));
      pm10 := Some(FormatOneDecimal(d.pm10));
      temperature := Some(FormatOneDecimal(d.temperature));
      humidity := Some(FormatOneDecimal(d.humidity));
      quality := Some(Upper(Label(a.verdict)));
      description := Some(Describe(Label(a.verdict)));
      icon := Some(IconState(a.icon, a.color));
      progress := [ Some(ProgressBar(d.concentration, 1000.0, DemoColors["primary"])),
        Some(ProgressBar(d.pm25, 50.0, DemoColors["secondary"])),
        Some(ProgressBar(d.pm10, 100.0, DemoColors["accent"])) ];
      chart := Some(DemoChart(d));
      renders := 0;
    }

    /** atualizar_interface(page, d): each existing control is set in turn, the
        missing ones are skipped, and the page is rendered once. */
    method Update(d: Reading, clock: string)
      requires d.concentration >= 0.0 && d.pm25 >= 0.0 && d.pm10 >= 0.0
      modifies this
      ensures View() == Updated(old(View()), d, clock)
      ensures renders == old(renders) + 1
    {
      ShowParticulates(d);
      ShowClimate(d);
      ShowQuality(Classify(d.concentration, d.pm25, d.pm10));
      ShowTimestampAndChart(d, clock);
      renders := renders + 1;
    }

    /** demo_simple.py:179-184: the concentration and particulate texts. */
    method ShowParticulates(d: Reading)
      modifies this
      ensures View() == old(View()).(
        concentration := SetIfPresent(old(concentration), FormatOneDecimal(d.concentration)),
        pm25 := SetIfPresent(old(pm25), FormatOneDecimal(d.pm25)),
        pm10 := SetIfPresent(old(pm10), FormatOneDecimal(d.pm10)))
      ensures renders == old(renders)
    {
      if concentration.Some? { concentration := Some(FormatOneDecimal(d.concentration)); }
      if pm25.Some? { pm25 := Some(FormatOneDecimal(d.pm25)); }
      if pm10.Some? { pm10 := Some(FormatOneDecimal(d.pm10)); }
    }

    /** demo_simple.py:185-188: the temperature and humidity texts. */
    method ShowClimate(d: Reading)
      modifies this
      ensures View() == old(View()).(
        temperature := SetIfPresent(old(temperature), FormatOneDecimal(d.temperature)),
        humidity := SetIfPresent(old(humidity), FormatOneDecimal(d.humidity)))
      ensures renders == old(renders)
    {
      if temperature.Some? { temperature := Some(FormatOneDecimal(d.temperature)); }
      if humidity.Some? { humidity := Some(FormatOneDecimal(d.humidity)); }
    }

    /** demo_simple.py:191-198: one classification feeds the quality text, the
        description and the icon. */
    method ShowQuality(a: Assessment)
      modifies this
      ensures View() == old(View()).(
        quality := SetIfPresent(old(quality), Upper(Label(a.verdict))),
        description := SetIfPresent(old(description), Describe(Label(a.verdict))),
        icon := SetIfPresent(old(icon), IconState(a.icon, a.color)))
      ensures renders == old(renders)
    {
      if quality.Some? { quality := Some(Upper(Label(a.verdict))); }
      if description.Some? { description := Some(Describe(Label(a.verdict))); }
      if icon.Some? { icon := Some(IconState(a.icon, a.color)); }
    }

    /** demo_simple.py:201-206: the timestamp, then a new chart. */
    method ShowTimestampAndChart(d: Reading, clock: string)
      requires d.concentration >= 0.0 && d.pm25 >= 0.0 && d.pm10 >= 0.0
      modifies this
      ensures View() == old(View()).(
        timestamp := SetIfPresent(old(timestamp), TimestampText(clock)),
        chart := SetIfPresent(old(chart), DemoChart(d)))
      ensures renders == old(renders)
    {
      if timestamp.Some? { timestamp := Some(TimestampText(clock)); }
      if chart.Some? { chart := Some(DemoChart(d)); }
    }
  }
}
