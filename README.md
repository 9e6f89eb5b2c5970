# Sentinela Verde display pipeline in Dafny

Sentinela Verde is an air-quality monitor with a Flet user interface. This project
models the part of its UI scripts that turns readings into display values:

- the verdict classifier of the interactive demo, with its description table;
- the label tables of the dashboard: colour, icon and description per verdict label;
- the alert-card tables and the palette of the shared style module;
- the progress-bar percentages, both the capped one and the uncapped one;
- the plan of the forecast chart: which columns are drawn, their legend labels and
  colour slots, and the "Dados insuficientes para previsão" fallback;
- the refresh of the dashboard (`atualizar_elementos_ui`) and of the demo page
  (`atualizar_interface`). Each is a class whose methods update the module-level
  controls in the source's order.
- the fixed data, chart and quality badge of the static demo interface.

Modules, one per concern:

| file | models |
|---|---|
| Basics.dfy | `Option`, the three states of a dict entry (missing, None, present), the Flet icons used |
| Strings.dfy | `str.replace`, `str.upper`, `f"{x:.1f}"` and a parser that reads its output back |
| Styles.dfy | styles.py: `COLORS`, `create_alert_card`'s tables, `create_progress_indicator`'s percentage |
| Progress.dfy | the percentage of `create_progress_bar`, the same expression in all three scripts |
| Chart.dfy | forecast frames, chart lines, the legend-label rewrite, the colour slots |
| ForecastChart.dfy | the column loop and fallback of `gerar_imagem_grafico_base64` |
| DemoSimple.dfy | demo_simple.py: classifier, descriptions, demo chart lines, the page's controls |
| Frontend.dfy | frontend.py: label tables, the summary, the refresh cycle, the dashboard's controls |
| DemoInterface.dfy | demo_interface.py: demo data, chart plan, quality badge, and how they agree with the rest |

Readings are exact reals. A backend summary is a map from metric keys to `Option<real>`,
plus the `'qualidade_ar'` and `'previsoes'` entries, each of which may be missing, None
or present. The wall clock is a string parameter. A refresh that raises in the source
(`None.upper()`, or `.get` on a None summary) ends in a `Raised` outcome. The controls
keep the values they had when the exception was raised.

## Model

| member | source | states |
|---|---|---|
| Styles.PaletteSeverityAliases | styles.py:16-23 | good = success = #4CAF50, moderate = warning = #FF9800, poor = danger = #F44336; excellent differs from all three |
| Styles.AlertColor | styles.py:191-205 | each of the four alert types gets its own palette colour; any other type gets the info colour |
| Styles.AlertIcon | styles.py:198-206 | the info icon is shown exactly for 'info' and for unknown types |
| Styles.AlertStylesDistinct | styles.py:191-203 | two different known alert types differ in both colour and icon |
| Styles.AlertUnknownTypeIsInfo | styles.py:205-206 | an unknown alert type is styled exactly like 'info' |
| Styles.IndicatorPercentage | styles.py:164-166 | no cap: above 100 exactly when value > max (max > 0); negative exactly for a negative value; equal to the value when max is 100; max = 0 is excluded (ZeroDivisionError) |
| Progress.CappedPercentage | demo_simple.py:113-115 | at most 100; 0 when max <= 0; exactly 100 when value >= max; negative exactly for a negative value; otherwise value/max*100 (same expression at frontend.py:101 and demo_interface.py:43) |
| Progress.CappedPercentageMonotone | frontend.py:101 | a larger reading never gives a shorter bar |
| Progress.CappedPercentageRange | demo_interface.py:43 | within [0, 100] for a non-negative reading; negative for a negative reading, since nothing clamps from below |
| Strings.ReplaceAll | frontend.py:144 | Python's `str.replace`, scanning left to right without overlaps; a same-length replacement keeps the length |
| Strings.ReplaceAllIdentity | frontend.py:144 | for a same-length replacement, replacing leaves a string unchanged exactly when the pattern does not occur in it |
| Strings.ReplaceAllRemovesPattern | frontend.py:144 | after replacing, the pattern no longer occurs (when pattern and replacement share no first characters) |
| Strings.Upper | frontend.py:200 | same length, no lower-case ASCII letter left |
| Strings.UpperIdempotent | frontend.py:200 | upper-casing an upper-cased text changes nothing |
| Strings.FormatOneDecimal | frontend.py:184 | at least three characters, a point before the last digit, a minus sign exactly for a negative value |
| Strings.FormatReadsBack | frontend.py:184 | the text reads back as the value rounded to tenths, within 0.05 of the value |
| Strings.FormatIsNotPlaceholder | frontend.py:184 | a formatted reading is never "--" |
| Chart.IsEmpty | frontend.py:139 | pandas' `DataFrame.empty`: no columns or no rows |
| Chart.ChartLabel | frontend.py:144 | the two chained replaces that turn a column name into its legend label (the same expression at demo_interface.py:76) |
| Chart.SeriesFor | frontend.py:140-146 | the line drawn for column i carries index i and one of the three colours |
| Chart.ChartLabelRemovesSuffixes | frontend.py:144 | the legend label has the name's length and contains neither "_PPM" nor "_ug_m3" |
| Chart.ChartLabelIdentity | frontend.py:144 | a name is shown unchanged exactly when it contains neither suffix |
| Chart.ChartLabelRewritesSuffixedName | frontend.py:144 | a name containing either suffix is shown changed |
| Chart.ConcentrationLabel | frontend.py:144 | for a prefix without underscores, "_Geral_PPM" becomes "_Geral PPM" and nothing else changes |
| Chart.PmLabel | frontend.py:144 | for a prefix without underscores, "_ug_m3" becomes " µg/m³" and nothing else changes |
| Chart.ConcentrationColumnLabel | demo_interface.py:76 | "Concentracao_Geral_PPM" is shown as "Concentracao_Geral PPM" |
| Chart.ParticulateColumnLabels | demo_interface.py:76 | "PM2.5_ug_m3" is shown as "PM2.5 µg/m³" and "PM10_ug_m3" as "PM10 µg/m³" |
| ForecastChart.PlottedSeries | frontend.py:141-146 | only numeric columns are drawn, in column order, each with the line of its own index |
| ForecastChart.PlottedSeriesCoversNumeric | frontend.py:141-146 | every numeric column is drawn |
| ForecastChart.PlottedSeriesEmpty | frontend.py:141-148 | nothing is drawn exactly when no column is numeric |
| ForecastChart.ForecastPlan | frontend.py:136-157 | the placeholder text is drawn exactly when the forecast is None, empty or has no numeric column; otherwise the numeric columns are drawn |
| ForecastChart.PlanForecastChart | frontend.py:136-157 | the loop with the `tem_dados` flag produces exactly ForecastPlan |
| ForecastChart.PlottedSeriesColourSlot | frontend.py:140-146 | every drawn line has colour `cores[i % 3]`, i being its column's index in the full column list |
| ForecastChart.SkippedColumnKeepsColourSlot | frontend.py:140-146 | a skipped text column still uses a colour slot: the third column is drawn in the third colour |
| DemoSimple.Classify | demo_simple.py:56-66 | each verdict exactly on its band with strict bounds, first match wins; success colour exactly for Excelente and Bom, warning for Moderado, danger for Ruim |
| DemoSimple.ClassifyIsWorstBand | demo_simple.py:59-66 | the cascade equals the worst of the three per-pollutant bands |
| DemoSimple.ClassifyMonotone | demo_simple.py:59-66 | higher readings never give a better verdict |
| DemoSimple.ClassifyIconIdentifiesVerdict | demo_simple.py:60-66 | two classifications share an icon exactly when they share a verdict |
| DemoSimple.Describe | demo_simple.py:68-76 | the table's sentence for a known label; the fallback exactly for unknown labels |
| DemoSimple.DescribeVerdicts | demo_simple.py:70-75 | every verdict has its own sentence, never the fallback |
| DemoSimple.DescribeClassification | demo_simple.py:68-76 | composed with the classifier, the description never falls back |
| DemoSimple.ShownLabels | demo_simple.py:193 | the quality texts are "EXCELENTE", "BOM", "MODERADO", "RUIM" |
| DemoSimple.InitialReadingIsBom | demo_simple.py:231-237 | the initial reading is 'Bom' and within the generator's ranges |
| DemoSimple.GeneratorReachesEveryVerdict | demo_simple.py:46-54 | every verdict is produced by some reading in the generator's ranges |
| DemoSimple.DemoChart | demo_simple.py:138-156 | three lines centred on concentration, PM2.5 and PM10, with noise spreads between 0 and 15% of the reading, distinct colours and legends |
| DemoSimple.Updated | demo_simple.py:172-211 | the view after `atualizar_interface`: each control that exists takes its new value, the bars are left alone |
| DemoSimple.InitialView | demo_simple.py:230-319 | the controls main builds from the first reading and clock |
| DemoSimple.UpdatedShowsReadings | demo_simple.py:178-188 | each of the five built text controls (concentration, PM2.5, PM10, temperature, humidity) shows its reading, which reads back rounded to tenths; a missing control stays missing |
| DemoSimple.UpdatedQualityAgrees | demo_simple.py:190-198 | quality text, description, icon name and icon colour come from one classification, the worst band; the description is never the fallback |
| DemoSimple.UpdatedKeepsProgressBars | demo_simple.py:208-209 | the progress bars keep the first reading's values after any refresh |
| DemoSimple.InitialBars | demo_simple.py:265-267 | the three bars: concentration out of 1000, PM2.5 out of 50, PM10 out of 100, in primary, secondary and accent |
| DemoSimple.InitialBarsFill | demo_simple.py:113-115 | for non-negative readings each of the three bars (265-267) is filled between 0 and 100 percent, full exactly from its maximum on |
| DemoSimple.InitialViewIsUpdateFixpoint | demo_simple.py:231-267 | refreshing with the launch reading and clock leaves the view as it was, the chart taken as its plan; the redrawn noise (150-152, 206) is not modelled |
| DemoSimple.DemoDisplay.Unbuilt | demo_simple.py:30-44 | every control starts as None |
| DemoSimple.DemoDisplay.Launch | demo_simple.py:218-319 | main builds every control from the first reading |
| DemoSimple.DemoDisplay.Update | demo_simple.py:172-211 | the new view is Updated(old view, reading, clock), rendered once |
| DemoSimple.DemoDisplay.ShowParticulates | demo_simple.py:178-184 | each built particulate text gets its reading's text; nothing else changes |
| DemoSimple.DemoDisplay.ShowClimate | demo_simple.py:185-188 | each built temperature or humidity text gets its reading's text; nothing else changes |
| DemoSimple.DemoDisplay.ShowQuality | demo_simple.py:190-198 | each built quality control takes its part of one classification; nothing else changes |
| DemoSimple.DemoDisplay.ShowTimestampAndChart | demo_simple.py:200-206 | a built timestamp and chart are replaced; nothing else changes |
| Frontend.QualityColor | frontend.py:60-71 | the table's colour for a known label; the muted colour exactly for unknown labels and "Aguardando..." |
| Frontend.QualityIcon | frontend.py:73-84 | the table's icon for a known label; the help icon exactly for unknown labels |
| Frontend.QualityDescription | frontend.py:86-97 | the table's sentence for a known label; "Status desconhecido" exactly for unknown labels |
| Frontend.QualityTablesAgree | frontend.py:60-97 | the three tables know the same seven labels |
| Frontend.UnknownQualityFallsBack | frontend.py:60-97 | an unknown label gets the muted colour, the help icon and "Status desconhecido" |
| Frontend.Truthy | frontend.py:181 | `if summary:` for a dict: true when it has at least one entry |
| Frontend.MetricText | frontend.py:183-184 | "--" exactly when the key is absent or holds None |
| Frontend.MetricTextReadsBack | frontend.py:183-196 | a text other than "--" reads back as the reading rounded to tenths |
| Frontend.MetricTexts | frontend.py:183-196 | five texts, each from the key at its position |
| Frontend.MetricTextsIndependent | frontend.py:183-196 | changing one key's entry leaves the other four texts as they were |
| Frontend.QualityName | frontend.py:199 | `summary.get('qualidade_ar', "Aguardando...")` for an entry that is not None |
| Frontend.ForecastOf | frontend.py:136 | a frame exactly when the summary exists and its 'previsoes' entry is present |
| Frontend.RefreshBusyFlag | frontend.py:174-219 | the ring stays visible exactly when the cycle raised; two renders after a completed cycle, one after a failed one; SummaryIsNone exactly for a None summary, QualityIsNone exactly for a None quality entry |
| Frontend.RefreshShowsMetrics | frontend.py:181-196 | after a truthy summary, the five metric controls show its metric texts |
| Frontend.RefreshQualityLabel | frontend.py:199-213 | the label defaults to "Aguardando..." only when absent; text, description, icon and colour all come from it; the badge turns "Conectado" in the success colour and keeps its background |
| Frontend.RefreshQualityNone | frontend.py:199-200 | a None quality entry raises after the metric texts are set; the ring stays visible |
| Frontend.RefreshFalsyKeepsFields | frontend.py:181-219 | an empty summary changes only the chart (to the placeholder), the ring and the render count |
| Frontend.RefreshNoneRaises | frontend.py:216 | a None summary raises at the chart step; the ring stays visible and nothing else changes |
| Frontend.RefreshKeepsBadgeBackground | frontend.py:207-210 | no refresh changes the badge background |
| Frontend.BadgeBackgroundStaysWarning | frontend.py:52 | the badge background stays the warning tint after any refresh from the initial state |
| Frontend.CardsStayPlaceholder | frontend.py:235-273 | as written, the concentration card still shows "--" after a refresh with a reading |
| Frontend.IntendedCardsShowReadings | frontend.py:183-196 | with the cards showing the controls, each card is "--" exactly when its metric is absent or None, and otherwise reads back as the reading rounded to tenths |
| Frontend.InitialView | frontend.py:29-53 | the controls at import: "--" texts, "Aguardando..." card, "Conectando..." badge in the warning colour, no chart |
| Frontend.ShowSummaryView | frontend.py:181-213 | the metric texts, then unless the quality entry is None the quality card, badge and timestamp |
| Frontend.Finish | frontend.py:216-219 | raises for a None summary; otherwise the chart plan, the ring hidden and one render |
| Frontend.RefreshCycle | frontend.py:174-219 | one run of `atualizar_elementos_ui`: the ring and a render, the summary's controls for a truthy summary, then Finish unless the quality entry is None |
| Frontend.Dashboard.constructor | frontend.py:29-53 | the controls start with their placeholder texts and the "Conectando..." badge |
| Frontend.Dashboard.Refresh | frontend.py:174-219 | the new view and outcome are exactly RefreshCycle of the old view |
| Frontend.Dashboard.FinishCycle | frontend.py:216-219 | raises for a None summary; otherwise the chart plan, then the ring is hidden and the page rendered |
| Frontend.Dashboard.ShowSummary | frontend.py:181-213 | completes exactly when the quality entry is not None; the view becomes ShowSummaryView |
| Frontend.Dashboard.StartCycle | frontend.py:176-177 | the ring is shown and the page rendered; nothing else changes |
| Frontend.Dashboard.DrawChart | frontend.py:216 | the chart becomes ForecastPlan of the forecast entry; nothing else changes |
| Frontend.Dashboard.EndCycle | frontend.py:218-219 | the ring is hidden and the page rendered; nothing else changes |
| Frontend.Dashboard.ShowMetrics | frontend.py:183-196 | the five metric controls take the summary's texts; nothing else changes |
| Frontend.Dashboard.ShowQuality | frontend.py:199-205 | the quality card takes the label's text, description, icon and colour; nothing else changes |
| Frontend.Dashboard.ShowConnected | frontend.py:207-213 | the badge turns "Conectado" in the success colour and the timestamp takes the clock; nothing else changes |
| DemoInterface.CreateDemoData | demo_interface.py:18-39 | 24 forecast rows; the three numeric columns in order; readings for the five metric keys; quality 'Bom' |
| DemoInterface.DemoLabelAgreesWithClassifier | demo_interface.py:21-28 | the hard-coded 'Bom' is what the band classifier gives for the demo readings |
| DemoInterface.AllSeries | demo_interface.py:74-78 | one line per column, numeric or not, column i in colour slot i % 3 |
| DemoInterface.AllNumericPlotsEverything | demo_interface.py:74-78 | on all-numeric columns the demo chart draws exactly the dashboard's lines |
| DemoInterface.NumericFramePlotsAllColumns | demo_interface.py:74-78 | a non-empty all-numeric frame is planned by the dashboard as the demo chart draws it |
| DemoInterface.DemoForecastPlotsAllColumns | demo_interface.py:30-37 | the demo forecast is drawn alike by the demo and by the dashboard |
| DemoInterface.DemoChartLines | demo_interface.py:74-78 | the demo legends are "Concentracao_Geral PPM", "PM2.5 µg/m³", "PM10 µg/m³", in primary, secondary and accent |
| DemoInterface.DemoQualityIcon | demo_interface.py:157 | the satisfied icon exactly for 'Bom', the help icon otherwise |
| DemoInterface.DemoQualityColor | demo_interface.py:158 | the good colour exactly for 'Bom', the muted colour otherwise |
| DemoInterface.DemoBadgeAgreesWithDashboard | demo_interface.py:156-158 | the demo icon equals the dashboard's exactly for 'Bom' and unknown labels; the colours agree there too |
| DemoInterface.DemoDescriptionIsBom | demo_interface.py:173 | the fixed sentence is the dashboard's description of 'Bom' |
| DemoInterface.DemoProgressBars | demo_interface.py:180-192 | the demo bars are 24.57, 36.6 and 32.1 percent wide |

## Left out

- Matplotlib figures, PNG rendering and base64 encoding. The chart is modelled as its plan: lines, legends, colours and fallback text.
- Titles, axis styling and the theme-dependent text and background colours of the charts.
- Flet widget trees and layout: metric cards, badges, `apply_theme_to_page`, `create_loading_overlay`, `create_empty_state`, `create_data_table`, `create_title`. Only the values the refresh writes are modelled.
- `gerar_valores_aleatorios` and the `np.random.normal` noise are random. The noise is modelled only by its centre and spread; the generator only by its ranges.
- The values of the demo forecast are random and are not modelled. The frame's shape is.
- `datetime.now()` is the `clock` string parameter.
- Floating point: readings and percentages are exact reals. `f"{x:.1f}"` rounds the exact value half to even, so the binary representation of a float is not modelled.
- Strings.Upper: covers ASCII and the Latin-1 letters with a one-character upper case only, not Python's full Unicode case table. 'ß' and any other letter whose upper case is longer (Python gives "SS" for 'ß') are kept as they are, so for such text the length of the result differs from Python's.
- Summary entries of other types (a string reading, a forecast that is not a DataFrame) are not modelled. Nor are pandas dtypes beyond a numeric flag per column.
- The backend `SentinelaVerde` and how it computes `qualidade_ar` are not part of this model. The summary is an input.
- No concurrency is modelled. The refresh callback is a plain lambda with no ordering logic.
- `gerar_novos_dados` (the demo button callback) draws a random reading and calls the modelled update.
- DemoSimple.DemoChart: requires non-negative readings, because `np.random.normal` rejects a negative spread.
- DemoSimple.DemoDisplay.Update: requires non-negative readings for the same reason; the ranges of the random generator satisfy this.
- The metric card texts of demo_interface.py's `main` (lines 115-153) are not modelled, since they are widget construction. Its progress-bar widths are (DemoInterface.DemoProgressBars).

## Findings

| source | as written | input that shows it | evidently intended | confidence | as-written member | corrected member |
|---|---|---|---|---|---|---|
| frontend.py:235-273 | main passes each text control's current string (then "--") to create_metric_card, which wraps it in a new Text (styles.py:128-141). The cards therefore never show the controls the refresh updates. | a summary {'Concentracao_Geral_PPM': 245.7, 'qualidade_ar': 'Bom'}: after the refresh the concentration control reads "245.7" but its card still shows "--" | the cards show the text controls themselves, as demo_simple.py:252-256 does, so each card shows its metric after a refresh | medium, not executed | Frontend.CardsStayPlaceholder | Frontend.IntendedCardsShowReadings |
