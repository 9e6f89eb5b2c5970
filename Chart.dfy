/** What the forecast charts plot, as opposed to how they are drawn: the shape of a
    forecast DataFrame, the legend label of a column and the colour slots. */
module Chart {
  import opened Strings
  import Styles

  /** A DataFrame column: its name and whether pandas reports a numeric dtype. */
  datatype Column = Column(name: string, numeric: bool)

  /** A forecast DataFrame: its columns in order and its number of rows. */
  datatype Frame = Frame(columns: seq<Column>, rows: nat)

  /** pandas' `DataFrame.empty`: one of the two axes has length zero. */
  predicate IsEmpty(f: Frame) {
    |f.columns| == 0 || f.rows == 0
  }

  /** One plotted line: the index of its column in the frame, the legend label
      and the line colour. */
  datatype Series = Series(column: nat, legend: string, color: string)

  /** The colour list `cores` (frontend.py:140, demo_interface.py:74). */
  const Cores: seq<string> := [Styles.Colors["primary"], Styles.Colors["secondary"], Styles.Colors["accent"]]

  /** `col.replace('_PPM', ' PPM').replace('_ug_m3', ' µg/m³')`. */
  function ChartLabel(name: string): string {
    ReplaceAll(ReplaceAll(name, "_PPM", " PPM"), "_ug_m3", " µg/m³")
  }

  /** The line drawn for column `i`: colour slot `i % 3` counts every column of
      the frame, plotted or not. */
  function SeriesFor(i: nat, c: Column): (s: Series)
    ensures s.column == i && s.color in Cores
  {
    Series(i, ChartLabel(c.name), Cores[i % |Cores|])
  }

  /** The rewrite keeps the length of the name and leaves no unit suffix behind. */
  lemma ChartLabelRemovesSuffixes(name: string)
    ensures |ChartLabel(name)| == |name|
    ensures !Occurs(ChartLabel(name), "_PPM")
    ensures !Occurs(ChartLabel(name), "_ug_m3")
  {
    var a := ReplaceAll(name, "_PPM", " PPM");
    ReplaceAllRemovesPattern(name, "_PPM", " PPM");
    ReplaceAllCreatesNoOccurrence(a, "_ug_m3", " µg/m³", "_PPM");
    ReplaceAllRemovesPattern(a, "_ug_m3", " µg/m³");
  }

  /** A name is shown as it is exactly when it contains neither suffix. */
  lemma ChartLabelIdentity(name: string)
    ensures ChartLabel(name) == name <==> !Occurs(name, "_PPM") && !Occurs(name, "_ug_m3")
  {
    if Occurs(name, "_PPM") || Occurs(name, "_ug_m3") {
      ChartLabelRewritesSuffixedName(name);
    } else {
      ReplaceAllIdentity(name, "_PPM", " PPM");
      ReplaceAllIdentity(name, "_ug_m3", " µg/m³");
    }
  }

  /** A name with either suffix is changed: the first pass removes an underscore
      that the second pass cannot put back. */
  lemma ChartLabelRewritesSuffixedName(name: string)
    requires Occurs(name, "_PPM") || Occurs(name, "_ug_m3")
    ensures ChartLabel(name) != name
  {
    var a := ReplaceAll(name, "_PPM", " PPM");
    ReplaceAllCountsFirstChar(name, "_PPM", " PPM");
    ReplaceAllCountsFirstChar(a, "_ug_m3", " µg/m³");
    if a == name {
      ReplaceAllIdentity(name, "_PPM", " PPM");
      ReplaceAllIdentity(name, "_ug_m3", " µg/m³");
    }
  }

  /** The legend labels of the three forecast columns. */
  lemma ConcentrationColumnLabel(name: string)
    requires name == "Concentracao_Geral_PPM"
    ensures ChartLabel(name) == "Concentracao_Geral PPM"
  {
    ConcentrationLabel("Concentracao");
    assert name == "Concentracao" + "_Geral_PPM";
    assert "Concentracao" + "_Geral PPM" == "Concentracao_Geral PPM";
  }

  lemma ParticulateColumnLabels(pm25: string, pm10: string)
    requires pm25 == "PM2.5_ug_m3" && pm10 == "PM10_ug_m3"
    ensures ChartLabel(pm25) == "PM2.5 µg/m³"
    ensures ChartLabel(pm10) == "PM10 µg/m³"
  {
    PmLabel("PM2.5");
    assert pm25 == "PM2.5" + "_ug_m3";
    assert "PM2.5" + " µg/m³" == "PM2.5 µg/m³";
    PmLabel("PM10");
    assert pm10 == "PM10" + "_ug_m3";
    assert "PM10" + " µg/m³" == "PM10 µg/m³";
  }

  /** Only the trailing "_PPM" of the concentration column is rewritten. */
  lemma ConcentrationLabel(p: string)
    requires '_' !in p
    ensures ChartLabel(p + "_Geral_PPM") == p + "_Geral PPM"
  {
    GeralFirstPass();
    ReplaceAllSkipsPrefix(p, "_Geral_PPM", "_PPM", " PPM");
    GeralSecondPass();
    ReplaceAllSkipsPrefix(p, "_Geral PPM", "_ug_m3", " µg/m³");
  }

  lemma GeralFirstPass()
    ensures ReplaceAll("_Geral_PPM", "_PPM", " PPM") == "_Geral PPM"
  {
    var tail := "Geral" + "_PPM";
    ReplaceAllWhole("_PPM", " PPM");
    ReplaceAllSkipsPrefix("Geral", "_PPM", "_PPM", " PPM");
    ReplaceAllMismatch('_', tail, "_PPM", " PPM");
    assert "_Geral_PPM" == ['_'] + tail;
    assert "_Geral PPM" == ['_'] + ("Geral" + " PPM");
  }

  lemma GeralSecondPass()
    ensures ReplaceAll("_Geral PPM", "_ug_m3", " µg/m³") == "_Geral PPM"
  {
    ReplaceAllSkipsPrefix("Geral PPM", "", "_ug_m3", " µg/m³");
    assert "Geral PPM" + "" == "Geral PPM";
    assert "_Geral PPM"[..6][1] != "_ug_m3"[1];
    assert "_Geral PPM"[1..] == "Geral PPM";
  }

  /** The label of a particulate column named `p + "_ug_m3"`. */
  lemma PmLabel(p: string)
    requires '_' !in p
    ensures ChartLabel(p + "_ug_m3") == p + " µg/m³"
  {
    assert ReplaceAll("_m3", "_PPM", " PPM") == "_m3";
    ReplaceAllSkipsPrefix("ug", "_m3", "_PPM", " PPM");
    assert "_ug_m3"[..4][1] != "_PPM"[1];
    assert "_ug_m3"[1..] == "ug_m3";
    assert ReplaceAll("_ug_m3", "_PPM", " PPM") == "_" + ReplaceAll("ug_m3", "_PPM", " PPM");
    assert "ug" + "_m3" == "ug_m3";
    ReplaceAllSkipsPrefix(p, "_ug_m3", "_PPM", " PPM");
    assert ReplaceAll("_ug_m3", "_ug_m3", " µg/m³") == " µg/m³";
    ReplaceAllSkipsPrefix(p, "_ug_m3", "_ug_m3", " µg/m³");
    assert ReplaceAll(p + "_ug_m3", "_PPM", " PPM") == p + "_ug_m3";
  }
}
