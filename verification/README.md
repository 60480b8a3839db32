# Market-expansion dashboard: scoring, ranking, radar gate and feedback rules

The dashboard ranks a small table of countries for an electric-vehicle
maker's expansion. The user picks some of five priorities, and each selected
priority switches on a fixed weight. Every market then gets a weighted score.
The table is sorted by score, highest first. The top N rows are shown, and the
first row is reported as the top market. When at least three priorities are
selected, a radar chart profiles the shown markets over the selected columns.
A separate monitoring tab turns the last week-over-week change of a marketing
metric into one of three notes per region.

This project is a functional model of those four computations:

- `Priorities` (priorities.dfy): the five priorities, their labels, and the
  label-to-column map.
- `Scoring` (scoring.dfy): the weight vector of a selection and the score of
  a row. Stations are divided by 100 and sentiment is multiplied by 10 before
  weighting.
- `Ranking` (ranking.dfy): the scored table, sorting by score, the top-N
  head, and the top market.
- `Radar` (radar.dfy): the selected columns in selection order, the
  three-column gate, and the per-country profiles.
- `Feedback` (feedback.dfy): the KPI map, the trend, the threshold rule, and
  the per-region feedback loop.
- `MockData` (mock_data.dfy): the built-in table and telemetry, used as
  concrete instances.

Numbers are Dafny `real`, an idealisation of the page's floating-point
arithmetic without its rounding. Every operation is a pure function, so
evaluating it again on the same inputs gives the same result. Labels are
plain strings, as on the page, so a label that names no priority is simply never matched. Scoring returns a new
scored sequence and leaves the rows untouched, where the page adds a column to
its shared table in place.

The sort on the page is the table library's default, which is not stable. The
model therefore promises nothing about the order of rows with equal scores.
`Rank` is one admissible sort, and everything else relies only on its contract.
`SortedPermutationsAgreeOnScores` shows that every admissible ranking shows the
same scores in the same positions.

## Model

| member | source | states |
|---|---|---|
| Priorities.Parse | app.py:86-94 | a label is found exactly when it is one of the five priority labels, and then the priority returned is the one it labels |
| Priorities.ParseLabel | app.py:86-92 | looking up a priority's own label gives that priority back, so the five labels are distinct |
| Priorities.AttributeOfIsBijective | app.py:86-92 | the label-to-column map is one-to-one and onto the five columns |
| Scoring.ComputeWeights | app.py:49-55 | each priority's weight is its fixed coefficient (EV Adoption 0.4, Low Import Tariffs -0.2, the other three 0.2) when its label is selected and 0 otherwise; a weight is non-zero exactly when its label is selected |
| Scoring.WeightsDependOnlyOnKnownLabels | app.py:49-55 | two selections that contain the same known labels give the same weights, whatever their order, repeats or unknown labels |
| Scoring.UnknownLabelsDoNotChangeWeights | app.py:49-55 | appending labels that name no priority leaves the weights unchanged |
| Scoring.Score | app.py:57-63 | the score is the sum over the five columns of weight times column on the common scale (EV adoption, tariffs and market size as is, stations / 100, sentiment * 10), as a fold over the priorities; characterised per selection by ScoreIsSumOfSelectedContributions |
| Scoring.ScoreIsSumOfSelectedContributions | app.py:57-63 | a row's score is the sum over the selected priorities of coefficient times scaled column (stations / 100, sentiment * 10, the rest as is) |
| Scoring.EmptySelectionScoresZero | app.py:49-63 | with nothing selected every row scores 0 |
| Scoring.SelectingAddsContribution | app.py:49-63 | selecting one more priority changes every row's score by exactly that priority's contribution |
| Ranking.ScoreAll | app.py:57-63 | the scored table has one entry per input row, in order, each carrying the row unchanged and its score |
| Ranking.Insert | app.py:64 | inserting a row into a ranking gives a ranking with that row added once |
| Ranking.Rank | app.py:64 | the sort result is a permutation of its input whose scores never increase |
| Ranking.Ranked | app.py:57-64 | the ranked table holds each scored input row exactly as often as the input does, sorted by score descending, each entry's score being its row's score under the selection |
| Ranking.TopN | app.py:70 | the rows shown are the prefix of the ranking of length min(n, number of rows) |
| Ranking.TopNShowsBestN | app.py:66-70 | for a slider choice n in 3..row count, exactly n rows are shown and each scores at least as much as every row left out |
| Ranking.TopMarket | app.py:71-72 | a top market exists exactly when the table is non-empty; it is an entry of the ranking, and on a sorted ranking no entry scores more |
| Ranking.TopMarketIsBest | app.py:64-72 | on a non-empty table the reported top market is an entry of the ranking: an input row carrying its own score under the selection, and no row scores more |
| Ranking.SortedPermutationsAgreeOnScores | app.py:64 | any two score-descending orders of the same rows have the same score sequence, so tie order does not affect the shown scores |
| Radar.SelectedColumns | app.py:94 | a priority's column is in the list exactly when its label is selected, and the list is no longer than the selection |
| Radar.SelectedColumnsOfConcat | app.py:94 | the columns of a concatenated selection are the concatenated columns, so selection order is kept |
| Radar.SelectedColumnsOfOne | app.py:86-94 | a single known label yields its own column, an unknown one nothing |
| Radar.UnknownLabelsDoNotChangeColumns | app.py:94 | an unknown label anywhere in the selection leaves the column list unchanged |
| Radar.ColumnCountIsPriorityCount | app.py:94 | for a selection without repeats there is one column per selected priority |
| Radar.RadarData | app.py:96-107 | radar data exist exactly when at least 3 columns are selected, and then there is one profile per shown row in ranking order, holding that row's raw (unscaled) values of the selected columns in selection order |
| Radar.RadarShownIffThreePriorities | app.py:96 | for a selection without repeats the radar chart is drawn exactly when at least 3 distinct priorities are selected |
| Feedback.KpiMetric | app.py:190-197 | an option maps to a metric exactly when it is one of the five KPI options, and the metric is the one it names |
| Feedback.KpiMetricOfOption | app.py:186-197 | each metric's own option maps back to it |
| Feedback.Trend | app.py:215 | a trend exists exactly when the series has at least two observations, and it is the last value minus the second-to-last |
| Feedback.Classify | app.py:216-223 | for CTR, Retention, Media_Sentiment and Engagement: momentum iff trend > 0.3, underwhelming iff trend < 0.1; for CPI: momentum iff trend < -2, underwhelming iff trend > 1; stable otherwise |
| Feedback.ClassifyIsMonotone | app.py:216-223 | the note never gets worse as the trend moves the good way (up for rising metrics, down for CPI) |
| Feedback.RegionNoteOf | app.py:215-223 | a region gets a note exactly when its series has a trend, and the note is the classification of that trend |
| Feedback.StrategyFeedback | app.py:214-224 | notes come in region order, each the classification of that region's trend; the run is complete exactly when every region got a note, and otherwise stops at the first region whose series is too short |
| Feedback.FeedbackCompleteWhenSeriesLongEnough | app.py:214-224 | when every region has at least two observations, every region gets a note |
| MockData.NorwayAdoptionAndSize | app.py:29-63 | Norway weighing only EV adoption and market size scores 80 * 0.4 + 5 * 0.2 = 33 |
| MockData.NorwayTopsEveryPriority | app.py:29-72 | with all five priorities selected, Norway is the reported top market |
| MockData.UKCostPerInstallIsStable | app.py:162-223 | the UK's cost per install falls by 1, which is stable |
| MockData.NorwayClickThroughHasMomentum | app.py:162-223 | Norway's click-through rises by 0.4, which is momentum |
| MockData.CostPerInstallFeedback | app.py:162-224 | for cost per install the notes are Norway momentum, UK stable, Germany stable |

## Left out

- Widgets, page configuration, CSS, tabs and layout: they are UI rendering. This covers the priority multi-select, the top-N slider (only its 3..row-count range is kept, as `Ranking.SliderAdmits`), the select boxes, text inputs and buttons.
- Chart construction (bar chart, radar figure, KPI line chart): it is library rendering. The radar's input data are modelled as `Radar.RadarData`.
- Credential loading and the halt when the key is missing: this is a configuration store and page control flow.
- The language-model prompt template and the chat-completion call: this is string formatting with the host language's number printing, plus a network call.
- Floating-point rounding: scores and trends are exact reals. One visible effect is the UK click-through trend. In doubles, 1.4 - 1.3 is slightly below 0.1, so the page shows "underwhelming", while the exact trend is 0.1 and the model says "stable".
- The text of the notes: the three notes are the `Feedback.Note` values, not their display strings with emoji.
- Ranking.Rank: tie order is deliberately left unspecified, matching the page's unstable default sort. The contract promises a permutation sorted by score and nothing about which of several equal-score rows comes first.
- Negative top-N values: `Ranking.TopN` takes a natural number. The slider never produces anything below 3.
