# DriftGuard model

DriftGuard is a machine-learning monitoring dashboard. A Flask backend
compares a training data set with a production data set, column by column,
using the Population Stability Index (PSI). It turns the per-feature report
into a dashboard snapshot: a drift score, a health score, metric cards, the
top drifting features, alerts and a retraining recommendation. React pages
show that snapshot and a set of simulated views: a live feed, historical
trends, per-feature analysis and alert-rule configuration.

This project models the core of DriftGuard in Dafny. It has one module per
core source file, plus two shared modules:

- `Common`: Option, a fetch outcome, clamps and string helpers.
- `Types`: the record shapes of `types.ts` and of the JSON bodies.

Each module takes the form of its source:

- **React components become classes.** `LiveMonitoring.LiveMonitor`,
  `PollingDashboard.Poller`, `OneShotDashboard.OneShot`,
  `AlertConfiguration.AlertConfigurationPage`,
  `HistoricalTrends.HistoricalTrendsPage` and
  `FeatureAnalysis.FeatureAnalysisPage` hold the component's state. Their
  methods are the events that change it: a timer tick, a fetch settling, a
  click. Each method's contract ties the new state to a pure function of the
  old one, and the lemmas about those functions state what the page promises.
- **The backend's loops become methods with loop invariants.**
  `DriftDetection.DetectDrift`, `DashboardAggregation.BuildTopFeatures` and
  `DashboardAggregation.BuildAlerts` are each proved equal to a reference
  function.
- **Display rules become functions whose contracts state the rule.** This
  covers colours, thresholds, rounding and labels.

Randomness (`Math.random()`), clocks (`Date.now()`, `new Date()`) and the
PSI computation itself are parameters of the model. Random draws are reals
in [0, 1). The PSI of a column is a function `PsiFunction` passed to the
detector. Colours are a symbolic `Tone`, because the colour constants file
is not part of this model. A backend alert holds its message as the
template and the feature name it is filled with (`AlertMessage`);
`MessageText` writes the text sent.

## Model

| member | source | states |
|---|---|---|
| Types.SeverityName | types.ts:1-5 | an alert severity is written as one of "critical", "warning", "info" |
| LiveMonitoring.PredictionIncrement | frontend/src/components/LiveMonitoringPage.tsx:120 | a tick adds between 0 and 19 predictions |
| LiveMonitoring.HistorySample | frontend/src/components/LiveMonitoringPage.tsx:122 | a new history sample lies in [50, 100) |
| LiveMonitoring.Slide | frontend/src/components/LiveMonitoringPage.tsx:122 | the window keeps its length, drops the oldest sample and ends with the new one |
| LiveMonitoring.NextAccuracy | frontend/src/components/LiveMonitoringPage.tsx:129 | accuracy stays in [70, 100] and moves by at most -1.2 / +0.8 per tick |
| LiveMonitoring.NextPerfPoint | frontend/src/components/LiveMonitoringPage.tsx:125-133 | the appended point carries the tick's clock label, the walked accuracy, and latency and throughput in range |
| LiveMonitoring.EmittedAlert | frontend/src/components/LiveMonitoringPage.tsx:137-145 | a raised alert has a catalogue message, one of the three kinds, the current time as id and "Just now" |
| LiveMonitoring.PushCapped | frontend/src/components/LiveMonitoringPage.tsx:146 | the feed gains the new alert at the front, keeps the older ones in order, and holds at most 10 |
| LiveMonitoring.Step | frontend/src/components/LiveMonitoringPage.tsx:116-149 | one tick keeps both windows at twenty samples and the feed at ten or fewer; the counter grows by 0..19; the windows slide; the feed changes only when the alert draw exceeds 0.95 |
| LiveMonitoring.Run | frontend/src/components/LiveMonitoringPage.tsx:113-152 | any run of ticks keeps the state invariant and grows the counter by at most 19 per tick |
| LiveMonitoring.QuietRunKeepsFeed | frontend/src/components/LiveMonitoringPage.tsx:137-147 | a run with no alert draw above 0.95 leaves the alert feed unchanged |
| LiveMonitoring.HistoryIsLastTwentySamples | frontend/src/components/LiveMonitoringPage.tsx:122 | after twenty or more ticks the history window is exactly the last twenty samples drawn, oldest first |
| LiveMonitoring.RunAppend | frontend/src/components/LiveMonitoringPage.tsx:113-152 | running two stretches of ticks one after the other equals running them joined |
| LiveMonitoring.RunWindow | frontend/src/components/LiveMonitoringPage.tsx:122 | after n ≤ 20 ticks the window is the old window shifted by n, followed by the n new samples |
| LiveMonitoring.MaxWith | frontend/src/components/LiveMonitoringPage.tsx:62 | `Math.max(...data, 1)` is an upper bound of the data and the floor, and equals one of them |
| LiveMonitoring.MinWith | frontend/src/components/LiveMonitoringPage.tsx:63 | `Math.min(...data, 0)` is a lower bound of the data and the ceiling, and equals one of them |
| LiveMonitoring.SparkY | frontend/src/components/LiveMonitoringPage.tsx:59-67 | every sparkline y coordinate lies within the 40-pixel drawing height |
| LiveMonitoring.InitialPerfPoint | frontend/src/components/LiveMonitoringPage.tsx:103-108 | an initial chart point has accuracy in [85, 90) and latency and throughput in range |
| LiveMonitoring.InitialState | frontend/src/components/LiveMonitoringPage.tsx:92-110 | the mounted state satisfies the invariant, starts at 1247 predictions with three seeded alerts, and all twenty chart points have accuracy in [85, 90) |
| LiveMonitoring.LiveMonitor.constructor | frontend/src/components/LiveMonitoringPage.tsx:88-110 | mount starts playing, with the initial state |
| LiveMonitoring.LiveMonitor.TimerTick | frontend/src/components/LiveMonitoringPage.tsx:113-152 | while playing, a 2-second period applies `Step` and sets the clock label; while paused nothing changes |
| LiveMonitoring.LiveMonitor.TogglePlaying | frontend/src/components/LiveMonitoringPage.tsx:187 | the button flips playing and leaves the data untouched |
| PollingDashboard.Settle | frontend/src/components/Dashboard.tsx:45-58 | a settled fetch ends loading; success replaces the data and clears the error; failure keeps the old data and sets the error message |
| PollingDashboard.SettleAllCharacterized | frontend/src/components/Dashboard.tsx:42-65 | after any series of polls the data is the body of the latest success (or the old data), and the error reflects only the latest poll |
| PollingDashboard.SettleAllSnoc | frontend/src/components/Dashboard.tsx:42-65 | settling one more poll is `Settle` applied to the state so far |
| PollingDashboard.Render | frontend/src/components/Dashboard.tsx:67-81 | the spinner shows exactly while loading; the error view exactly when an error is set or data is missing; otherwise the dashboard with the held data |
| PollingDashboard.AfterFirstSettle | frontend/src/components/Dashboard.tsx:46-81 | once a poll has settled the spinner never returns; a failed latest poll shows the error even when older data is held |
| PollingDashboard.FetchesIssuedBy | frontend/src/components/Dashboard.tsx:61-62 | within t ms of mount, 1 + ⌊t / 10000⌋ fetches have been sent |
| PollingDashboard.Poller.constructor | frontend/src/components/Dashboard.tsx:38-62 | mount: initial state, one fetch sent, the interval running, on the `FetchesIssuedBy` schedule at time 0 |
| PollingDashboard.Poller.IntervalElapses | frontend/src/components/Dashboard.tsx:62 | a live interval sends exactly one more fetch 10 s later, stays on the `FetchesIssuedBy` schedule and changes no displayed state |
| PollingDashboard.Poller.Resolve | frontend/src/components/Dashboard.tsx:45-58 | a fetch settling applies `Settle` |
| PollingDashboard.Poller.Unmount | frontend/src/components/Dashboard.tsx:64 | the cleanup stops polling and changes nothing else |
| PollingDashboard.HealthLabel | frontend/src/components/Dashboard.tsx:144 | "Drift Detected" exactly below 70, "Healthy" otherwise |
| PollingDashboard.DriftBadgeTone | frontend/src/components/Dashboard.tsx:181 | the drift-score badge is red exactly above 0.25, amber otherwise |
| PollingDashboard.JsRound | frontend/src/components/Dashboard.tsx:196 | `Math.round` is the nearest integer, halves rounded up |
| PollingDashboard.DriftingPercent | frontend/src/components/Dashboard.tsx:196-200 | the percentage is within half a point of drifting / total × 100, in [0, 100], and undefined (NaN) exactly when there are no features |
| PollingDashboard.IncomeInAnyCase | frontend/src/components/Dashboard.tsx:115 | an alert whose message contains "income" in any letter case gets the Investigate action |
| PollingDashboard.InvestigateOnlyForIncome | frontend/src/components/Dashboard.tsx:115 | conversely, an alert gets the Investigate action only if some spelling of "income" starts at some index of its message |
| OneShotDashboard.SettledOnce | components/Dashboard.tsx:32-47 | after the single fetch, exactly one of data and error is set: the body on success, the error message on failure |
| OneShotDashboard.SettledView | components/Dashboard.tsx:49-63 | success shows the dashboard with that body, failure the error view |
| OneShotDashboard.OneShot.constructor | components/Dashboard.tsx:28-33 | mount: loading, nothing held, no interval |
| OneShotDashboard.OneShot.Resolve | components/Dashboard.tsx:38-46 | the one fetch settling gives `SettledOnce` |
| OneShotDashboard.RetrainWindow | components/Dashboard.tsx:172 | the window text is never empty; a present, non-empty estimate is used as is, otherwise "24h" |
| OneShotDashboard.RecommendationText | components/Dashboard.tsx:171-173 | the retraining sentence is shown exactly for RETRAIN_URGENT, otherwise the monitoring text |
| OneShotDashboard.FeatureClickTarget | components/Dashboard.tsx:187 | only the feature named "income" is clickable, and it opens feature analysis |
| OneShotDashboard.RecommendationClickTarget | components/Dashboard.tsx:162-175 | the recommendation panel opens the retraining page for every recommendation, including when it shows the monitoring sentence |
| DriftDetection.DropNa | backend/drift_detection.py:92-93 | the kept values are no more than the cells, and none are kept exactly when every cell is missing |
| DriftDetection.Lookup | backend/drift_detection.py:89 | a production column is found exactly when one has that name, and the found column has it |
| DriftDetection.StatusOf | backend/drift_detection.py:101-105 | "critical" iff PSI ≥ 0.2, "warning" iff 0.1 ≤ PSI < 0.2, "good" iff PSI < 0.1 |
| DriftDetection.RoundHalfEven | backend/drift_detection.py:108 | the nearest integer, ties to even |
| DriftDetection.Round4 | backend/drift_detection.py:108 | the stored PSI is within 0.00005 of the computed one and is a whole number of ten-thousandths |
| DriftDetection.StatusUsesUnroundedPsi | backend/drift_detection.py:99-110 | a PSI of 0.19996 is stored as 0.2 with status "warning": the stored status and stored PSI can disagree |
| DriftDetection.EntryAt | backend/drift_detection.py:99-110 | an entry is keyed by the column name and holds the rounded PSI and the status of the unrounded PSI |
| DriftDetection.ReportUpToShape | backend/drift_detection.py:88-110 | the report after n columns has one entry per selected column among them, in column order |
| DriftDetection.SelectedUpToSound | backend/drift_detection.py:86-97 | the columns that get entries are listed in increasing order, and each passes the numeric, present and non-empty tests |
| DriftDetection.SelectedUpToComplete | backend/drift_detection.py:86-97 | every column that passes those tests is listed |
| DriftDetection.ReportUpToEntries | backend/drift_detection.py:99-110 | entry k of the report is the entry of the k-th listed column |
| DriftDetection.DetectDrift | backend/drift_detection.py:71-112 | the loop builds exactly the reference report |
| DriftDetection.ReportCoversSelected | backend/drift_detection.py:86-97 | every numeric training column present in production with values on both sides has an entry |
| DriftDetection.ReportOnlySelected | backend/drift_detection.py:86-110 | every entry belongs to such a column; its status is the status of that column's PSI and its PSI is that PSI rounded to 4 decimals |
| DriftDetection.FullReportHasDetectorStatuses | backend/drift_detection.py:101-105 | every status in a report is "critical", "warning" or "good" |
| DriftDetection.ReportInColumnOrder | backend/drift_detection.py:88-110 | with distinct column names the report keys are distinct and follow training-column order |
| DriftDetection.SeqMin | backend/drift_detection.py:39 | the minimum is an element and bounds every element from below |
| DriftDetection.SeqMax | backend/drift_detection.py:40 | the maximum is an element and bounds every element from above |
| DriftDetection.Linspace | backend/drift_detection.py:43 | n + 1 strictly increasing edges starting at the low value |
| DriftDetection.Unique | backend/drift_detection.py:54 | the distinct values, strictly increasing, with the same members |
| DriftDetection.CandidateEdges | backend/drift_detection.py:36-54 | the edges chosen before merging: none for an empty side in bins mode, the equal-width edges otherwise, the quantile edges in quantiles mode |
| DriftDetection.UniqueSingleton | backend/drift_detection.py:54-56 | fewer than two distinct values exactly when all values are equal |
| DriftDetection.PlanPsi | backend/drift_detection.py:34-56 | PSI is 0 exactly when min = max (bins) or all quantile edges coincide (quantiles), or the training input is empty (or either input, in bins mode); otherwise the histogram has at least two strictly increasing edges |
| DriftDetection.FloorZeros | backend/drift_detection.py:63-64 | every proportion is positive afterwards, and non-zero ones are unchanged |
| DashboardAggregation.DriftingCount | backend/app.py:54 | at most the number of features; 0 exactly when all are good; all exactly when none is good |
| DashboardAggregation.RatioAtMostOne | backend/app.py:55 | the drifting ratio lies in [0, 1] |
| DashboardAggregation.DriftHundredths | backend/app.py:55 | the score in hundredths is within half a hundredth of the ratio, in [0, 100]; 0 with no features or no drift, 100 when all drift |
| DashboardAggregation.Score | backend/app.py:55 | the score lies in [0, 1]; it exceeds 0.1 (0.2) exactly when the hundredths exceed 10 (20) |
| DashboardAggregation.HealthScore | backend/app.py:61 | health lies in [0, 100]: 100 with no drift, 0 with total drift |
| DashboardAggregation.HealthComplementsDrift | backend/app.py:55-61 | health is 100 minus the drift in hundredths |
| DashboardAggregation.ModelAccuracy | backend/app.py:98 | the estimated accuracy lies in [45, 95] and is below 90 exactly when the score exceeds 0.1 |
| DashboardAggregation.Metrics | backend/app.py:102-106 | three rows in order; drift is "negative" and accuracy "warning" with change -1.2 exactly when the score exceeds 0.1 |
| DashboardAggregation.RecommendationFor | backend/app.py:116-119 | RETRAIN_URGENT exactly above a score of 0.2, otherwise MONITOR; the estimate is "2 hours" |
| DashboardAggregation.Candidates | backend/app.py:64-71 | one row per report entry, in report order |
| DashboardAggregation.InsertByPsi | backend/app.py:72 | insertion keeps the rows sorted by PSI descending and adds exactly the new row |
| DashboardAggregation.SortByPsiDesc | backend/app.py:72 | the sort is a permutation of its input, PSI non-increasing |
| DashboardAggregation.PsiTiesAppend | backend/app.py:72 | the rows of a given PSI in a concatenation are those of each part, in order |
| DashboardAggregation.InsertByPsiStable | backend/app.py:72 | an inserted row goes ahead of every row of equal PSI already there, which keep their order |
| DashboardAggregation.SortByPsiDescStable | backend/app.py:72 | the sort is stable: for every PSI value, the rows with that PSI keep their input order |
| DashboardAggregation.TopFeaturesTiesInReportOrder | backend/app.py:64-72 | among report rows of equal PSI, the ones in the top list are the earliest in report order, in that order |
| DashboardAggregation.BuildTopFeatures | backend/app.py:64-72 | the append loop, sort and slice give exactly the reference top list |
| DashboardAggregation.TopFeaturesRanked | backend/app.py:72 | the top list has min(5, features) rows in PSI non-increasing order |
| DashboardAggregation.TopFeaturesDominate | backend/app.py:72 | top list plus left-out rows is a permutation of all rows, and no left-out row has a higher PSI than a listed one |
| DashboardAggregation.PrefixDominatesRest | backend/app.py:72 | a sorted list's prefix dominates its remainder, and together they are the list |
| DashboardAggregation.TopFeaturesFromReport | backend/app.py:64-72 | every top row's drift score is its PSI × 100, and name, PSI and status come from one report entry |
| DashboardAggregation.BuildAlerts | backend/app.py:75-94 | the alert loop with its counter gives exactly the reference alert list |
| DashboardAggregation.AlertIdsConsecutive | backend/app.py:77-94 | alert ids run 1, 2, 3, … without gaps |
| DashboardAggregation.AsWrittenAlertsAlwaysEmpty | backend/app.py:79-94 | compared against "Critical" and "Warning", the detector's statuses never raise an alert |
| DashboardAggregation.AsWrittenMissesCriticalFeature | backend/app.py:76-94 | a drifting "income" row with PSI 0.35 and status "critical" raises no alert as written, and one with the detector's labels |
| DashboardAggregation.NonGoodIndicesExact | backend/app.py:78-94 | the listed positions increase and are exactly the critical and warning rows |
| DashboardAggregation.MessageText | backend/app.py:83-91 | the critical and the warning message each name the feature in single quotes |
| DashboardAggregation.NonGoodRowsAtIndices | backend/app.py:78-94 | the k-th critical or warning row is the top row at the k-th listed position |
| DashboardAggregation.IntendedAlertsOfSnoc | backend/app.py:77-94 | one more drifting row appends its alert, numbered after the earlier ones |
| DashboardAggregation.IntendedAlertsOfEntries | backend/app.py:77-94 | alert k of the intended list belongs to drifting row k: id k + 1, the row's status as kind, the message template of that status naming the row |
| DashboardAggregation.IntendedAlertsCoverDrift | backend/app.py:75-94 | with the detector's labels, the loop's alert list is exactly the intended list of the critical and warning top rows, in top-list order, and nothing else |
| DashboardAggregation.Aggregate | backend/app.py:53-122 | the snapshot's counts, score, health, metrics, recommendation, top features and alerts (under the given status labels) are those of the report, with the bounds and extremes above |
| DashboardAggregation.TopFeaturesKeepDetectorStatuses | backend/app.py:64-72 | top rows of a detector report carry only the detector's three statuses |
| DashboardAggregation.AsWrittenSnapshotHasNoAlerts | backend/app.py:75-94 | with the labels as written, the snapshot of any detector report has an empty alert list |
| DashboardAggregation.CorrectedSnapshotAlerts | backend/app.py:75-94 | with the detector's labels, the snapshot has no alert when nothing drifts, and otherwise one alert per critical or warning top row, in order |
| DashboardAggregation.GetDashboardData | backend/app.py:42-122 | a missing data set gives the 500 error body; otherwise the snapshot of the detector's report and the production row count under the labels as written, whose alert list is always empty |
| DashboardAggregation.RecommendationShownAsRetrain | backend/app.py:117 | the one-shot page shows the retraining sentence with "2 hours" exactly when the score exceeds 0.2 |
| DashboardAggregation.HealthLabelThreshold | backend/app.py:61 | the gauge reads "Drift Detected" exactly when the drift exceeds 30 hundredths |
| DashboardAggregation.WireFeature | backend/app.py:66-71 | a served top row carries the name, PSI and status of its report entry and no KS or KL value |
| DashboardAggregation.ServedTopFeaturesFailToRender | frontend/src/components/Dashboard.tsx:214-219 | every served top row fails to render its KS/KL readout, and any non-empty report serves at least one top row |
| DashboardAggregation.GuardedTopFeaturesRender | frontend/src/components/DriftingFeatureItem.tsx:55-68 | with the readout guarded, every served top row renders its PSI by the decimals rule and no KS or KL |
| AlertConfiguration.MockRulesHaveUniqueIds | components/AlertConfigurationPage.tsx:38-76 | the three starting rules have distinct ids |
| AlertConfiguration.Flip | components/AlertConfigurationPage.tsx:422 | the toggle always changes the status |
| AlertConfiguration.ToggleStatus | components/AlertConfigurationPage.tsx:422 | rules with the id have only their status flipped; all others are unchanged; length and order are kept |
| AlertConfiguration.ToggleTwiceRestores | components/AlertConfigurationPage.tsx:422 | toggling the same id twice restores the list |
| AlertConfiguration.ToggleChangesExactlyOne | components/AlertConfigurationPage.tsx:422 | with unique ids, toggling a present id changes exactly that rule |
| AlertConfiguration.ToggleKeepsUniqueIds | components/AlertConfigurationPage.tsx:419-424 | the toggle keeps every id in place, so unique ids stay unique |
| AlertConfiguration.ToggleAbsentIdIsIdentity | components/AlertConfigurationPage.tsx:422 | toggling an absent id changes nothing |
| AlertConfiguration.ValueTone | components/AlertConfigurationPage.tsx:462-464 | the value is coloured exactly when the rule is triggered and active (red for critical); a paused rule is grey |
| AlertConfiguration.SeverityTone | components/AlertConfigurationPage.tsx:108-115 | each known severity has its colour, and any other string the grey default |
| AlertConfiguration.RuleSeverityHasColour | components/AlertConfigurationPage.tsx:108-115 | a rule's own severity never falls to the default |
| AlertConfiguration.SeverityBadgeTone | components/AlertConfigurationPage.tsx:441-444 | the badge colour agrees with the severity colour function |
| AlertConfiguration.ChannelFooter | components/AlertConfigurationPage.tsx:474-475 | the channels joined by ", ", with the email address exactly when "Email" is a channel |
| AlertConfiguration.AlertConfigurationPage.constructor | components/AlertConfigurationPage.tsx:79-86 | not creating, the mock rules (with unique ids), every filter "All", empty search |
| AlertConfiguration.AlertConfigurationPage.Shown | components/AlertConfigurationPage.tsx:227-412 | the form exactly in create mode, otherwise every rule in list order |
| AlertConfiguration.AlertConfigurationPage.StartCreate | components/AlertConfigurationPage.tsx:137 | enters create mode, nothing else changes |
| AlertConfiguration.AlertConfigurationPage.LeaveCreate | components/AlertConfigurationPage.tsx:395-401 | Cancel and Create both leave create mode without adding a rule |
| AlertConfiguration.AlertConfigurationPage.ToggleRule | components/AlertConfigurationPage.tsx:419-424 | the rules become `ToggleStatus` of the old rules and keep unique ids; nothing else changes |
| AlertConfiguration.AlertConfigurationPage.SetFilterStatus | components/AlertConfigurationPage.tsx:175 | the status filter is stored and what is shown does not change |
| AlertConfiguration.AlertConfigurationPage.SetFilterSeverity | components/AlertConfigurationPage.tsx:192 | the severity filter is stored and what is shown does not change |
| AlertConfiguration.AlertConfigurationPage.SetFilterType | components/AlertConfigurationPage.tsx:212 | the type filter is stored and what is shown does not change |
| AlertConfiguration.AlertConfigurationPage.SetSearchQuery | components/AlertConfigurationPage.tsx:158 | the search text is stored and what is shown does not change |
| HistoricalTrends.Degradation | frontend/src/components/HistoricalTrendsPage.tsx:30 | none up to index 45, then 0.2 per day, at most 8.8 within the 90 days |
| HistoricalTrends.Recovery | frontend/src/components/HistoricalTrendsPage.tsx:31 | none up to index 80, then 0.5 per day, at most 4.5 within the 90 days |
| HistoricalTrends.TrendPointAt | frontend/src/components/HistoricalTrendsPage.tsx:27-52 | whatever the noise, the metrics stay within their clamps, the PSIs within their daily bands, and outrange is at least 2 after day 60 |
| HistoricalTrends.GenerateTrendData | frontend/src/components/HistoricalTrendsPage.tsx:26-54 | ninety points, point i being day i + 1 |
| HistoricalTrends.GeneratedSeriesInRange | frontend/src/components/HistoricalTrendsPage.tsx:26-54 | every generated point has its index, its day label and in-range metrics |
| HistoricalTrends.HeatmapTone | frontend/src/components/HistoricalTrendsPage.tsx:76-78 | green below 0.1, amber in [0.1, 0.2), red from 0.2 |
| HistoricalTrends.HeatmapOpacity | frontend/src/components/HistoricalTrendsPage.tsx:81-87 | the opacity is 0.3 + 1.5 × PSI, capped at 1 |
| HistoricalTrends.HeatmapMatchesDetector | frontend/src/components/HistoricalTrendsPage.tsx:76-78 | the heatmap buckets are exactly the detector's status thresholds |
| HistoricalTrends.HeatmapCells | frontend/src/components/HistoricalTrendsPage.tsx:102 | one cell per day, no opacity above 1 |
| HistoricalTrends.HeatmapStartsGreenEndsRed | frontend/src/components/HistoricalTrendsPage.tsx:43 | whatever the noise, the first day's cell is green and the last day's is red |
| HistoricalTrends.NextDateRange | frontend/src/components/HistoricalTrendsPage.tsx:104-108 | 90 → 30 → 60 → 90 days, and any other label goes to 90 |
| HistoricalTrends.ThreeClicksCycle | frontend/src/components/HistoricalTrendsPage.tsx:104-108 | three clicks return to a known label; from any label the cycle is entered after one click |
| HistoricalTrends.HistoricalTrendsPage.constructor | frontend/src/components/HistoricalTrendsPage.tsx:98-99 | starts at "Last 90 Days" with compare mode off |
| HistoricalTrends.HistoricalTrendsPage.ClickDateRange | frontend/src/components/HistoricalTrendsPage.tsx:104-108 | the label advances by `NextDateRange` |
| HistoricalTrends.HistoricalTrendsPage.ToggleCompare | frontend/src/components/HistoricalTrendsPage.tsx:150 | compare mode flips, the range stays |
| HistoricalTrends.Split | frontend/src/components/HistoricalTrendsPage.tsx:113-114 | splitting always gives at least one piece |
| HistoricalTrends.SplitFreePrefix | frontend/src/components/HistoricalTrendsPage.tsx:113-114 | a separator-free prefix joins the first piece of what follows it |
| HistoricalTrends.SplitJoin | frontend/src/components/HistoricalTrendsPage.tsx:113-114 | splitting a join on its separator gives the separator-free parts back |
| HistoricalTrends.CsvLines | frontend/src/components/HistoricalTrendsPage.tsx:112-114 | the header line, then one row per data point, in order |
| HistoricalTrends.DayLabelSeparatorFree | frontend/src/components/HistoricalTrendsPage.tsx:34 | day labels contain no comma or newline |
| HistoricalTrends.JoinAvoids | frontend/src/components/HistoricalTrendsPage.tsx:113-114 | joining separator-free parts with a separator-free glue adds no such character |
| HistoricalTrends.CsvReadsBack | frontend/src/components/HistoricalTrendsPage.tsx:110-114 | the export splits back into its lines, and every line into its fields |
| HistoricalTrends.ExportShape | frontend/src/components/HistoricalTrendsPage.tsx:110-114 | the export of the series has 91 lines of six fields each |
| FeatureAnalysis.SettleDetails | frontend/src/components/FeatureAnalysisPage.tsx:16-25 | a settled fetch ends loading; any parsed body is stored; a failure keeps the data |
| FeatureAnalysis.RenderDetails | frontend/src/components/FeatureAnalysisPage.tsx:28-34 | the spinner shows exactly while loading or without data |
| FeatureAnalysis.FailuresSpinForever | frontend/src/components/FeatureAnalysisPage.tsx:22-34 | if every fetch fails, the page shows the spinner for good |
| FeatureAnalysis.FailuresKeepData | frontend/src/components/FeatureAnalysisPage.tsx:22-25 | failed fetches never change the held data |
| FeatureAnalysis.FeatureAnalysisPage.constructor | frontend/src/components/FeatureAnalysisPage.tsx:12-16 | mount: loading, no data, one fetch for the feature name |
| FeatureAnalysis.FeatureAnalysisPage.SetFeatureName | frontend/src/components/FeatureAnalysisPage.tsx:15-26 | a new name sends one more fetch exactly when it differs; the screen state is untouched |
| FeatureAnalysis.FeatureAnalysisPage.Resolve | frontend/src/components/FeatureAnalysisPage.tsx:17-25 | a fetch settling applies `SettleDetails` |
| FeatureAnalysis.ToFixed0 | frontend/src/components/FeatureAnalysisPage.tsx:38-42 | the nearest integer, halves away from zero, and -0 exactly for values strictly between -0.5 and 0 |
| FeatureAnalysis.StatsTable | frontend/src/components/FeatureAnalysisPage.tsx:37-43 | five rows, row k naming the k-th of Mean, Median, Std Dev, Min, Max and holding that statistic of each side, rounded; only Min is not bad |
| FeatureAnalysis.QuotientSign | frontend/src/components/FeatureAnalysisPage.tsx:97 | the change is positive exactly when numerator and denominator share a sign |
| FeatureAnalysis.Change | frontend/src/components/FeatureAnalysisPage.tsx:97 | finite exactly when training is non-zero, NaN exactly when both are zero; positive exactly when production moved away from zero past training; against a zero training value, positive exactly when production is positive, or negative when training is -0 |
| FeatureAnalysis.SignPrefix | frontend/src/components/FeatureAnalysisPage.tsx:104 | "+" exactly for a positive change |
| FeatureAnalysis.ChangeCell | frontend/src/components/FeatureAnalysisPage.tsx:97-104 | the cell shows the row's change with its sign, red exactly for a bad row |
| FeatureAnalysis.NegativeZeroTrainingFlipsSign | frontend/src/components/FeatureAnalysisPage.tsx:97-104 | a training value of -0.3 against 5 shows as -Infinity with no '+', while 0.3 against 5 shows as +Infinity with '+' |
| FeatureAnalysis.PsiBadgeTone | frontend/src/components/FeatureAnalysisPage.tsx:63 | the PSI badge is red exactly above 0.25 |
| DriftingFeatureItem.FeatureTone | frontend/src/components/DriftingFeatureItem.tsx:15-26 | critical is red; a warning is amber exactly above PSI 0.2 and yellow otherwise; everything else green |
| DriftingFeatureItem.BarWidth | frontend/src/components/DriftingFeatureItem.tsx:28 | the bar is at most 100 %, full from PSI 0.5, 200 × PSI below |
| DriftingFeatureItem.BarWidthMonotone | frontend/src/components/DriftingFeatureItem.tsx:28 | a larger PSI never gives a narrower bar |
| DriftingFeatureItem.Decimals | frontend/src/components/DriftingFeatureItem.tsx:57-67 | 4 decimals below 0.01, 2 otherwise |
| DriftingFeatureItem.ReadoutDecimals | frontend/src/components/DriftingFeatureItem.tsx:55-68 | PSI, KS and KL each get their own decimals rule |
| DriftingFeatureItem.RenderedReadout | frontend/src/components/DriftingFeatureItem.tsx:55-68 | the readout renders exactly when KS and KL are both present, and then shows the decimals of all three |
| DriftingFeatureItem.GuardedReadout | frontend/src/components/DriftingFeatureItem.tsx:55-68 | a guarded readout always renders, shows KS and KL exactly when present, and agrees with the unguarded one wherever that renders |
| DriftingFeatureItem.RowDecorations | frontend/src/components/DriftingFeatureItem.tsx:32-82 | hover styling, ANALYZE badge and chevron come exactly with a click handler; the shimmer exactly for critical rows |
| DriftingFeatureItem.Round4BelowThreshold | backend/drift_detection.py:108 | a PSI below 0.2 is stored as at most 0.2 |
| DriftingFeatureItem.DetectorWarningIsYellow | frontend/src/components/DriftingFeatureItem.tsx:19-20 | a row the detector marks "warning" is always drawn yellow, never amber: the amber branch is unreachable with detector data |

## Left out

- The Flask server, the CSV loading and every other file access. A data set that fails to load is an `Option` input of `GetDashboardData`.
- The `/api/drift` route and the other routes of `backend/app.py` outside `get_dashboard_data`.
- The PSI arithmetic itself: the histogram counts, `np.percentile` and the logarithm. The detector takes the PSI as a function parameter. `PlanPsi` models the guard structure of `calculate_psi` (the early zeros, the merged edges, the floor for empty buckets) with the quantile edges as an input.
- RoundHalfEven, Round4: work on exact rationals. Python rounds the nearest binary double, which can differ from the exact result at a tie.
- HealthComplementsDrift: states health = 100 − hundredths on exact reals. The backend's float `int(100 - score * 100)` can come out one lower: among the scores 0.00 to 1.00 this happens at 0.55 and 0.56, where `score * 100` comes out slightly above 55 and 56, giving 44 and 43.
- ToFixed0: does not model `toFixed` on values of magnitude 1e21 or more, which it writes in exponential notation that `parseInt` cuts short.
- Number-to-text formatting: `toFixed` other than the statistics table's `toFixed(0)`, `toLocaleString`, the `,` thousands separator and `:.1f`. `Metrics` keeps the numbers. The CSV export takes the number formatter as a parameter, required only to produce neither comma nor newline.
- The sparkline's x coordinate, and all chart, SVG and gauge rendering.
- Timer and React scheduling. Ticks and fetch settlements are events applied in the order given. A tick before the initial-data effect has run, and responses arriving after unmount, are not modelled.
- The score PSI and the data-quality fields of the trend series other than outrange. These are only drawn, never checked.
- The create-rule form's fields. Nothing in the page reads them.
- JSON bodies that are `null` or malformed.
- A non-numeric production column that numpy cannot compare is not modelled.
- The Blob and download link of the CSV export.
- The static views and the mock curves of the colour-constants file.
- `/api/feature-details/<name>` is not part of this model: `backend/app.py` does not serve it.
- ReadoutDecimals: requires `ks` and `kl` to be present, as `types.ts` declares. A row without them is modelled by `RenderedReadout`: `undefined.toFixed(2)` throws a TypeError and the page fails to render.
- Lower: folds ASCII letters only. JavaScript's `toLowerCase` folds all of Unicode.

## Findings

| source | as written | input that shows it | evidently intended | confidence | as-written member | corrected member |
|---|---|---|---|---|---|---|
| backend/app.py:79 | the alert loop compares the status with 'Critical' and 'Warning'; the detector only emits lower-case 'critical', 'warning', 'good', so no alert is ever built | a report with one entry "income", PSI 0.35, status "critical": drifting count 1, alert list empty | compare with 'critical' and 'warning', giving one alert per drifting top feature | high (not executed) | DashboardAggregation.AsWrittenSnapshotHasNoAlerts | DashboardAggregation.CorrectedSnapshotAlerts |
| frontend/src/components/DriftingFeatureItem.tsx:63 | the row reads `feature.ks` and `feature.kl` unconditionally; the served top rows (backend/app.py:66-71) carry neither, so `undefined.toFixed(2)` throws and the dashboard fails to render | any report with at least one feature, for example one column "income" with PSI 0.35 | show KS and KL only when present, so rows without them render their PSI | medium (not executed) | DashboardAggregation.ServedTopFeaturesFailToRender | DashboardAggregation.GuardedTopFeaturesRender |
