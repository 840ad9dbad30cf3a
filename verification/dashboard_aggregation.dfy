/** The pure part of `get_dashboard_data`: from a drift report (feature ->
    PSI and status) to the dashboard snapshot — drifting count, drift and
    health scores, the five highest-PSI features, alerts, metric rows and
    the recommendation. Loading the CSV files and the HTTP layer are inputs
    and outputs here. */
module DashboardAggregation {
  import opened Common
  import opened DriftDetection
  import Types
  import OneShotDashboard
  import PollingDashboard
  import DriftingFeatureItem

  // ---------------------------------------------------------------------
  // Counts and scores

  /** `sum(1 for m in drift_report.values() if m['status'] != 'good')`. */
  function DriftingCount(report: Report): (d: nat)
    ensures d <= |report|
    ensures d == 0 <==> forall k :: 0 <= k < |report| ==> report[k].1.status == StatusGood
    ensures d == |report| <==> forall k :: 0 <= k < |report| ==> report[k].1.status != StatusGood
    decreases |report|
  {
    if |report| == 0 then 0
    else
      var rest := DriftingCount(report[1..]);
      assert forall k :: 1 <= k < |report| ==> report[k] == report[1..][k - 1];
      (if report[0].1.status != StatusGood then 1 else 0) + rest
  }

  lemma RatioAtMostOne(d: nat, t: nat)
    requires 0 < t && d <= t
    ensures 0.0 <= d as real / t as real <= 1.0
  {
    var r := d as real / t as real;
    assert r * t as real == d as real;
  }

  /** `round(drifting / total, 2)` as a whole number of hundredths (0 for an
      empty report): 0 when nothing drifts, 100 when everything does, and
      always within [0, 100]. */
  function DriftHundredths(d: nat, t: nat): (k: int)
    requires d <= t
    ensures t == 0 ==> k == 0
    ensures t > 0 ==> d as real / t as real * 100.0 - 0.5 <= k as real <= d as real / t as real * 100.0 + 0.5
    ensures 0 <= k <= 100
    ensures d == 0 ==> k == 0
    ensures 0 < t && d == t ==> k == 100
  {
    if t == 0 then 0
    else
      RatioAtMostOne(d, t);
      assert d == t ==> d as real / t as real == 1.0;
      RoundHalfEven(d as real / t as real * 100.0)
  }

  /** The drift score sent to the client. */
  function Score(k: int): (s: real)
    requires 0 <= k <= 100
    ensures 0.0 <= s <= 1.0
    ensures s > 0.1 <==> k > 10
    ensures s > 0.2 <==> k > 20
  {
    k as real / 100.0
  }

  /** `int(100 - drift_score * 100)`: 100 with no drift, 0 with total drift,
      always within [0, 100]. */
  function HealthScore(score: real): (h: int)
    requires 0.0 <= score <= 1.0
    ensures 0 <= h <= 100
    ensures score == 0.0 ==> h == 100
    ensures score == 1.0 ==> h == 0
  {
    (100.0 - score * 100.0).Floor
  }

  /** On an exact score the health is the complement of the drift in hundredths. */
  lemma HealthComplementsDrift(k: int)
    requires 0 <= k <= 100
    ensures HealthScore(Score(k)) == 100 - k
  {
    assert 100.0 - Score(k) * 100.0 == (100 - k) as real;
  }

  /** `max(0.0, 95.0 - drift_score * 50)`: between 45 and 95, and below 90
      exactly when the drift score exceeds 0.1. */
  function ModelAccuracy(score: real): (a: real)
    requires 0.0 <= score <= 1.0
    ensures 45.0 <= a <= 95.0
    ensures a < 90.0 <==> score > 0.1
  {
    MaxReal(0.0, 95.0 - score * 50.0)
  }

  // ---------------------------------------------------------------------
  // Metric rows and recommendation

  /** The three metric values, before string formatting: the production row
      count, the drift score, and the accuracy percentage. */
  datatype MetricValue = CountValue(n: nat) | ScoreValue(score: real) | PercentValue(percent: real)

  datatype ServerMetric = ServerMetric(labelText: string, value: MetricValue, change: real, status: string)

  /** The metric rows. The drift row is "negative" and the accuracy row is a
      "warning" under the same condition (drift score above 0.1); the
      accuracy change is -1.2 then and 0.5 otherwise. */
  function Metrics(productionRows: nat, score: real): (ms: seq<ServerMetric>)
    requires 0.0 <= score <= 1.0
    ensures |ms| == 3
    ensures ms[0] == ServerMetric("Total Predictions", CountValue(productionRows), 5.2, "positive")
    ensures ms[1].labelText == "Avg Data Drift" && ms[1].value == ScoreValue(score) && ms[1].change == score * 10.0
    ensures ms[1].status == "negative" <==> score > 0.1
    ensures ms[1].status == "positive" <==> score <= 0.1
    ensures ms[2].labelText == "Model Accuracy" && ms[2].value == PercentValue(ModelAccuracy(score))
    ensures ms[2].status == "warning" <==> score > 0.1
    ensures ms[2].status == "positive" <==> score <= 0.1
    ensures ms[2].change == (if score > 0.1 then -1.2 else 0.5)
  {
    var accuracy := ModelAccuracy(score);
    [ ServerMetric("Total Predictions", CountValue(productionRows), 5.2, "positive"),
      ServerMetric("Avg Data Drift", ScoreValue(score), score * 10.0, if score > 0.1 then "negative" else "positive"),
      ServerMetric("Model Accuracy", PercentValue(accuracy), if score > 0.1 then -1.2 else 0.5,
                   if accuracy < 90.0 then "warning" else "positive") ]
  }

  const RetrainUrgent: string := "RETRAIN_URGENT"
  const Monitor: string := "MONITOR"
  const EstimatedRetrainTime: string := "2 hours"

  /** The recommendation: urgent retraining exactly when the drift score
      exceeds 0.2; the time estimate is fixed. */
  function RecommendationFor(score: real): (rec: Types.Recommendation)
    ensures rec.action == RetrainUrgent <==> score > 0.2
    ensures rec.action == Monitor <==> score <= 0.2
    ensures rec.estimatedTime == Some(EstimatedRetrainTime)
  {
    Types.Recommendation(if score > 0.2 then RetrainUrgent else Monitor, Some(EstimatedRetrainTime))
  }

  // ---------------------------------------------------------------------
  // Top features

  datatype TopFeature = TopFeature(name: string, psi: real, status: string, driftScore: real)

  /** The row appended for one report entry. */
  function ToTopFeature(e: (string, ReportEntry)): TopFeature {
    TopFeature(e.0, e.1.psi, e.1.status, e.1.psi * 100.0)
  }

  /** All rows, in report order. */
  function Candidates(report: Report): (cs: seq<TopFeature>)
    ensures |cs| == |report|
    ensures forall k :: 0 <= k < |cs| ==> cs[k] == ToTopFeature(report[k])
  {
    seq(|report|, k requires 0 <= k < |report| => ToTopFeature(report[k]))
  }

  predicate SortedByPsiDesc(s: seq<TopFeature>) {
    forall a, b :: 0 <= a < b < |s| ==> s[a].psi >= s[b].psi
  }

  /** Inserts `x` before the first row whose PSI it reaches. */
  function InsertByPsi(x: TopFeature, s: seq<TopFeature>): (r: seq<TopFeature>)
    requires SortedByPsiDesc(s)
    ensures SortedByPsiDesc(r)
    ensures multiset(r) == multiset(s) + multiset{x}
    decreases |s|
  {
    if |s| == 0 || x.psi >= s[0].psi then
      assert SortedByPsiDesc([x] + s) by {
        ConsSorted(x, s);
      }
      [x] + s
    else
      var rest := InsertByPsi(x, s[1..]);
      assert forall y :: y in rest ==> y.psi <= s[0].psi by {
        HeadDominatesTail(s);
        forall y | y in rest ensures y.psi <= s[0].psi {
          InsertedMember(y, rest, s[1..], x);
        }
      }
      assert SortedByPsiDesc([s[0]] + rest) by {
        ConsSorted(s[0], rest);
      }
      assert s == [s[0]] + s[1..];
      [s[0]] + rest
  }

  /** In a sorted list no later row has a higher PSI than the head. */
  lemma HeadDominatesTail(s: seq<TopFeature>)
    requires SortedByPsiDesc(s) && |s| > 0
    ensures forall y :: y in s[1..] ==> y.psi <= s[0].psi
  {
    forall y | y in s[1..] ensures y.psi <= s[0].psi {
      var j :| 0 <= j < |s[1..]| && s[1..][j] == y;
      assert s[j + 1] == y;
    }
  }

  /** A row whose PSI reaches every row of a sorted list may be put in front. */
  lemma ConsSorted(h: TopFeature, rest: seq<TopFeature>)
    requires SortedByPsiDesc(rest)
    requires forall y :: y in rest ==> y.psi <= h.psi
    ensures SortedByPsiDesc([h] + rest)
  {
    var r := [h] + rest;
    forall a, b | 0 <= a < b < |r| ensures r[a].psi >= r[b].psi {
      assert r[b] == rest[b - 1] && rest[b - 1] in rest;
      if a > 0 {
        assert r[a] == rest[a - 1];
      }
    }
  }

  /** A row of `t` plus `x` is `x` or a row of `t`. */
  lemma InsertedMember(y: TopFeature, r: seq<TopFeature>, t: seq<TopFeature>, x: TopFeature)
    requires multiset(r) == multiset(t) + multiset{x} && y in r
    ensures y == x || y in t
  {
    assert y in multiset(r);
  }

  /** `sorted(..., key=psi, reverse=True)`: the same rows, PSI non-increasing. */
  function SortByPsiDesc(s: seq<TopFeature>): (r: seq<TopFeature>)
    ensures SortedByPsiDesc(r)
    ensures multiset(r) == multiset(s)
    ensures |r| == |s|
    decreases |s|
  {
    if |s| == 0 then []
    else
      var r := InsertByPsi(s[0], SortByPsiDesc(s[1..]));
      assert s == [s[0]] + s[1..];
      assert |r| == |multiset(r)|;
      r
  }

  /** `[:5]`. */
  function TopFive(sorted: seq<TopFeature>): seq<TopFeature> {
    sorted[..MinInt(5, |sorted|)]
  }

  function TopFeatures(report: Report): seq<TopFeature> {
    TopFive(SortByPsiDesc(Candidates(report)))
  }

  /** The append loop, then the sort and the slice. */
  method BuildTopFeatures(report: Report) returns (top: seq<TopFeature>)
    ensures top == TopFeatures(report)
  {
    var rows: seq<TopFeature> := [];
    var i := 0;
    while i < |report|
      invariant 0 <= i <= |report|
      invariant |rows| == i
      invariant forall k :: 0 <= k < i ==> rows[k] == ToTopFeature(report[k])
    {
      rows := rows + [ToTopFeature(report[i])];
      i := i + 1;
    }
    assert rows == Candidates(report);
    var sorted := SortByPsiDesc(rows);
    top := sorted[..MinInt(5, |sorted|)];
  }

  /** The top list has min(5, total) rows in PSI non-increasing order. */
  lemma TopFeaturesRanked(report: Report)
    ensures |TopFeatures(report)| == MinInt(5, |report|)
    ensures SortedByPsiDesc(TopFeatures(report))
  {
    var sorted := SortByPsiDesc(Candidates(report));
    assert TopFeatures(report) == sorted[..MinInt(5, |sorted|)];
  }

  /** No report row left out of the top list has a higher PSI than a row
      kept: the candidates split into the top list and a remainder that it
      dominates. */
  lemma TopFeaturesDominate(report: Report)
    ensures exists rest: seq<TopFeature> ::
              && multiset(TopFeatures(report)) + multiset(rest) == multiset(Candidates(report))
              && forall a, b :: 0 <= a < |TopFeatures(report)| && 0 <= b < |rest| ==>
                   TopFeatures(report)[a].psi >= rest[b].psi
  {
    var sorted := SortByPsiDesc(Candidates(report));
    var n := MinInt(5, |sorted|);
    PrefixDominatesRest(sorted, n);
  }

  /** A sorted list splits into a prefix and a remainder it dominates. */
  lemma PrefixDominatesRest(sorted: seq<TopFeature>, n: nat)
    requires SortedByPsiDesc(sorted) && n <= |sorted|
    ensures multiset(sorted[..n]) + multiset(sorted[n..]) == multiset(sorted)
    ensures forall a, b :: 0 <= a < n && 0 <= b < |sorted| - n ==> sorted[..n][a].psi >= sorted[n..][b].psi
  {
    assert sorted == sorted[..n] + sorted[n..];
  }

  /** Every top row comes from a report entry, with its name, PSI and status,
      and carries drift_score = psi * 100. */
  lemma TopFeaturesFromReport(report: Report, t: TopFeature)
    requires t in TopFeatures(report)
    ensures t.driftScore == t.psi * 100.0
    ensures exists j :: 0 <= j < |report| && report[j].0 == t.name && report[j].1.psi == t.psi &&
              report[j].1.status == t.status
  {
    var cands := Candidates(report);
    var sorted := SortByPsiDesc(cands);
    assert sorted == TopFeatures(report) + sorted[MinInt(5, |sorted|)..];
    assert t in multiset(sorted);
    assert t in multiset(cands);
    var j :| 0 <= j < |cands| && cands[j] == t;
    assert cands[j] == ToTopFeature(report[j]);
  }

  /** `[x]` when `x` has PSI `v`, otherwise nothing. */
  function TieHead(x: TopFeature, v: real): seq<TopFeature> {
    if x.psi == v then [x] else []
  }

  /** The rows of `s` whose PSI is `v`, in their order in `s`. */
  function PsiTies(s: seq<TopFeature>, v: real): seq<TopFeature>
    decreases |s|
  {
    if |s| == 0 then [] else TieHead(s[0], v) + PsiTies(s[1..], v)
  }

  /** The ties of a list with a given head: the head's, then the tail's. */
  lemma ConsTies(h: TopFeature, t: seq<TopFeature>, v: real)
    ensures PsiTies([h] + t, v) == TieHead(h, v) + PsiTies(t, v)
  {
    var r := [h] + t;
    assert r[0] == h && r[1..] == t;
  }

  lemma {:induction false} PsiTiesAppend(a: seq<TopFeature>, b: seq<TopFeature>, v: real)
    ensures PsiTies(a + b, v) == PsiTies(a, v) + PsiTies(b, v)
    decreases |a|
  {
    if |a| == 0 {
      assert a + b == b;
    } else {
      var t := a[1..];
      assert a == [a[0]] + t && a + b == [a[0]] + (t + b);
      PsiTiesAppend(t, b, v);
      ConsTies(a[0], t + b, v);
      ConsTies(a[0], t, v);
      assert TieHead(a[0], v) + (PsiTies(t, v) + PsiTies(b, v)) == (TieHead(a[0], v) + PsiTies(t, v)) + PsiTies(b, v);
    }
  }

  /** Insertion puts `x` ahead of every row of equal PSI already there. */
  lemma {:induction false} InsertByPsiStable(x: TopFeature, s: seq<TopFeature>, v: real)
    requires SortedByPsiDesc(s)
    ensures PsiTies(InsertByPsi(x, s), v) == TieHead(x, v) + PsiTies(s, v)
    decreases |s|
  {
    if |s| == 0 || x.psi >= s[0].psi {
      ConsTies(x, s, v);
    } else {
      var rest := InsertByPsi(x, s[1..]);
      InsertByPsiStable(x, s[1..], v);
      ConsTies(s[0], rest, v);
      SwapTies(s[0], x, PsiTies(s[1..], v), v);
    }
  }

  /** A row of higher PSI than `x` and `x` itself are never both ties. */
  lemma SwapTies(h: TopFeature, x: TopFeature, rest: seq<TopFeature>, v: real)
    requires x.psi < h.psi
    ensures TieHead(h, v) + (TieHead(x, v) + rest) == TieHead(x, v) + (TieHead(h, v) + rest)
  {
    if x.psi == v {
      assert TieHead(h, v) == [];
    } else {
      assert TieHead(x, v) == [];
    }
  }

  /** The sort is stable: rows of equal PSI keep their report order. */
  lemma {:induction false} SortByPsiDescStable(s: seq<TopFeature>, v: real)
    ensures PsiTies(SortByPsiDesc(s), v) == PsiTies(s, v)
    decreases |s|
  {
    if |s| > 0 {
      SortByPsiDescStable(s[1..], v);
      InsertByPsiStable(s[0], SortByPsiDesc(s[1..]), v);
    }
  }

  /** Among report rows of equal PSI, those that make the top list are the
      earliest in report order, and they appear in that order. */
  lemma TopFeaturesTiesInReportOrder(report: Report, v: real)
    ensures exists later: seq<TopFeature> ::
              PsiTies(Candidates(report), v) == PsiTies(TopFeatures(report), v) + later
  {
    var sorted := SortByPsiDesc(Candidates(report));
    var n := MinInt(5, |sorted|);
    assert sorted == sorted[..n] + sorted[n..];
    PsiTiesAppend(sorted[..n], sorted[n..], v);
    SortByPsiDescStable(Candidates(report), v);
    assert PsiTies(Candidates(report), v) == PsiTies(TopFeatures(report), v) + PsiTies(sorted[n..], v);
  }

  // ---------------------------------------------------------------------
  // Alerts

  /** The status strings the alert loop compares against. */
  datatype StatusLabels = StatusLabels(critical: string, warning: string)

  /** What the loop compares against: capitalised. */
  const AsWrittenLabels: StatusLabels := StatusLabels("Critical", "Warning")

  /** What the detector emits: lower-case. */
  const IntendedLabels: StatusLabels := StatusLabels(StatusCritical, StatusWarning)

  /** An alert message: which of the loop's two templates, and the feature
      name it is filled with. `MessageText` writes the text of the body. */
  datatype AlertMessage = CriticalDrift(feature: string) | WarningDrift(feature: string)

  datatype ServerAlert = ServerAlert(id: nat, kind: string, message: AlertMessage, timestamp: string)

  /** The f-strings of the loop; either text names the feature in quotes. */
  function MessageText(m: AlertMessage): (text: string)
    ensures Contains(text, "'" + m.feature + "'")
  {
    var quoted := "'" + m.feature + "'";
    match m
    case CriticalDrift(f) =>
      var text := "Critical drift detected in " + quoted;
      assert text[27..27 + |quoted|] == quoted;
      ContainsAt(text, quoted, 27);
      text
    case WarningDrift(f) =>
      var text := "Warning: " + quoted + " is showing signs of drift";
      assert text[9..9 + |quoted|] == quoted;
      ContainsAt(text, quoted, 9);
      text
  }

  /** The alert a feature row produces when its id is `id`, if any. */
  function AlertFor(t: TopFeature, id: nat, labels: StatusLabels): Option<ServerAlert> {
    if t.status == labels.critical then Some(ServerAlert(id, "critical", CriticalDrift(t.name), "Just now"))
    else if t.status == labels.warning then Some(ServerAlert(id, "warning", WarningDrift(t.name), "Just now"))
    else None
  }

  /** The alert list after the loop has visited the first `n` top rows; the
      counter always equals the list length plus one. */
  function AlertsUpTo(top: seq<TopFeature>, n: nat, labels: StatusLabels): seq<ServerAlert>
    requires n <= |top|
  {
    if n == 0 then []
    else
      var earlier := AlertsUpTo(top, n - 1, labels);
      match AlertFor(top[n - 1], |earlier| + 1, labels)
      case Some(a) => earlier + [a]
      case None => earlier
  }

  /** Alerts are only built when something drifts. */
  function Alerts(top: seq<TopFeature>, drifting: nat, labels: StatusLabels): seq<ServerAlert> {
    if drifting > 0 then AlertsUpTo(top, |top|, labels) else []
  }

  /** The alert loop with its mutable counter. */
  method BuildAlerts(top: seq<TopFeature>, drifting: nat, labels: StatusLabels) returns (alerts: seq<ServerAlert>)
    ensures alerts == Alerts(top, drifting, labels)
  {
    alerts := [];
    if drifting > 0 {
      var count := 1;
      var i := 0;
      while i < |top|
        invariant 0 <= i <= |top|
        invariant alerts == AlertsUpTo(top, i, labels)
        invariant count == |alerts| + 1
      {
        var feature := top[i];
        if feature.status == labels.critical {
          alerts := alerts + [ServerAlert(count, "critical", CriticalDrift(feature.name), "Just now")];
          count := count + 1;
        } else if feature.status == labels.warning {
          alerts := alerts + [ServerAlert(count, "warning", WarningDrift(feature.name), "Just now")];
          count := count + 1;
        }
        i := i + 1;
      }
    }
  }

  /** Alert ids run 1, 2, 3, ... without gaps, whatever the labels. */
  lemma {:induction false} AlertIdsConsecutive(top: seq<TopFeature>, n: nat, labels: StatusLabels)
    requires n <= |top|
    ensures forall k :: 0 <= k < |AlertsUpTo(top, n, labels)| ==> AlertsUpTo(top, n, labels)[k].id == k + 1
  {
    if n > 0 {
      AlertIdsConsecutive(top, n - 1, labels);
    }
  }

  predicate DetectorStatuses(top: seq<TopFeature>) {
    forall k :: 0 <= k < |top| ==> top[k].status in {StatusCritical, StatusWarning, StatusGood}
  }

  /** As written, no status the detector emits equals "Critical" or
      "Warning", so the alert list is always empty. */
  lemma {:induction false} AsWrittenAlertsAlwaysEmpty(top: seq<TopFeature>, n: nat)
    requires n <= |top| && DetectorStatuses(top)
    ensures AlertsUpTo(top, n, AsWrittenLabels) == []
  {
    if n > 0 {
      AsWrittenAlertsAlwaysEmpty(top, n - 1);
      assert top[n - 1].status in {StatusCritical, StatusWarning, StatusGood};
      assert top[n - 1].status != "Critical" && top[n - 1].status != "Warning";
    }
  }

  /** A concrete report row that should raise an alert but does not. */
  lemma AsWrittenMissesCriticalFeature()
    ensures var top := [TopFeature("income", 0.35, StatusCritical, 35.0)];
      && Alerts(top, 1, AsWrittenLabels) == []
      && |Alerts(top, 1, IntendedLabels)| == 1
  {
    var top := [TopFeature("income", 0.35, StatusCritical, 35.0)];
    assert StatusCritical != "Critical";
    assert AlertsUpTo(top, 0, AsWrittenLabels) == [];
    assert AlertsUpTo(top, 0, IntendedLabels) == [];
  }

  /** The positions of the critical and warning rows among the first `n`
      top rows, in top-list order. */
  function NonGoodIndices(top: seq<TopFeature>, n: nat): (idx: seq<nat>)
    requires n <= |top|
    ensures forall k :: 0 <= k < |idx| ==> idx[k] < n
  {
    if n == 0 then []
    else NonGoodIndices(top, n - 1) + (if top[n - 1].status != StatusGood then [n - 1] else [])
  }

  /** The listed positions increase, stay below `n` and hold non-good rows,
      and every non-good row among the first `n` is listed. */
  lemma {:induction false} NonGoodIndicesExact(top: seq<TopFeature>, n: nat)
    requires n <= |top|
    ensures forall a, b :: 0 <= a < b < |NonGoodIndices(top, n)| ==> NonGoodIndices(top, n)[a] < NonGoodIndices(top, n)[b]
    ensures forall k :: 0 <= k < |NonGoodIndices(top, n)| ==>
              NonGoodIndices(top, n)[k] < n && top[NonGoodIndices(top, n)[k]].status != StatusGood
    ensures forall j :: 0 <= j < n && top[j].status != StatusGood ==> j in NonGoodIndices(top, n)
  {
    if n > 0 {
      NonGoodIndicesExact(top, n - 1);
      var idx0 := NonGoodIndices(top, n - 1);
      var idx := NonGoodIndices(top, n);
      if top[n - 1].status != StatusGood {
        assert idx == idx0 + [n - 1];
        forall a, b | 0 <= a < b < |idx| ensures idx[a] < idx[b] {
          assert idx[a] == idx0[a];
          if b < |idx0| {
            assert idx[b] == idx0[b];
          }
        }
        forall k | 0 <= k < |idx| ensures idx[k] < n && top[idx[k]].status != StatusGood {
          if k < |idx0| {
            assert idx[k] == idx0[k];
          }
        }
        forall j | 0 <= j < n && top[j].status != StatusGood ensures j in idx {
          if j < n - 1 {
            assert j in idx0;
          } else {
            assert idx[|idx0|] == n - 1;
          }
        }
      } else {
        assert idx == idx0;
      }
    }
  }

  /** The alert the loop should write for a critical or warning row. */
  function IntendedAlert(t: TopFeature, id: nat): ServerAlert {
    ServerAlert(id, t.status, if t.status == StatusCritical then CriticalDrift(t.name) else WarningDrift(t.name), "Just now")
  }

  /** The critical and warning rows among the first `n`, in top-list order. */
  function NonGoodRows(top: seq<TopFeature>, n: nat): seq<TopFeature>
    requires n <= |top|
  {
    if n == 0 then []
    else NonGoodRows(top, n - 1) + (if top[n - 1].status != StatusGood then [top[n - 1]] else [])
  }

  /** Row k of `NonGoodRows` is the row at the k-th listed index. */
  lemma {:induction false} NonGoodRowsAtIndices(top: seq<TopFeature>, n: nat)
    requires n <= |top|
    ensures |NonGoodRows(top, n)| == |NonGoodIndices(top, n)|
    ensures forall k :: 0 <= k < |NonGoodRows(top, n)| ==> NonGoodRows(top, n)[k] == top[NonGoodIndices(top, n)[k]]
  {
    if n > 0 {
      NonGoodRowsAtIndices(top, n - 1);
      var rows0, idx0 := NonGoodRows(top, n - 1), NonGoodIndices(top, n - 1);
      var rows, idx := NonGoodRows(top, n), NonGoodIndices(top, n);
      if top[n - 1].status != StatusGood {
        assert rows == rows0 + [top[n - 1]] && idx == idx0 + [n - 1];
        forall k | 0 <= k < |rows| ensures rows[k] == top[idx[k]] {
          if k < |rows0| {
            assert rows[k] == rows0[k] && idx[k] == idx0[k];
          }
        }
      } else {
        assert rows == rows0 + [] == rows0;
        assert idx == idx0 + [] == idx0;
      }
    }
  }

  /** The alerts the corrected loop should write for `rows`: the k-th row's
      intended alert, with id k + 1. */
  function IntendedAlertsOf(rows: seq<TopFeature>): (alerts: seq<ServerAlert>)
    ensures |alerts| == |rows|
    decreases |rows|
  {
    if |rows| == 0 then []
    else IntendedAlertsOf(rows[..|rows| - 1]) + [IntendedAlert(rows[|rows| - 1], |rows|)]
  }

  /** Alert k is the intended alert of row k, with id k + 1. */
  lemma {:induction false} IntendedAlertsOfEntries(rows: seq<TopFeature>)
    ensures forall k :: 0 <= k < |rows| ==> IntendedAlertsOf(rows)[k] == IntendedAlert(rows[k], k + 1)
    decreases |rows|
  {
    if |rows| > 0 {
      var init := rows[..|rows| - 1];
      IntendedAlertsOfEntries(init);
      var alerts := IntendedAlertsOf(rows);
      assert alerts == IntendedAlertsOf(init) + [IntendedAlert(rows[|rows| - 1], |rows|)];
      forall k | 0 <= k < |rows| ensures alerts[k] == IntendedAlert(rows[k], k + 1) {
        if k < |init| {
          assert alerts[k] == IntendedAlertsOf(init)[k] && init[k] == rows[k];
        }
      }
    }
  }

  /** One step of the corrected loop over a critical or warning row: the
      loop appends the row's intended alert and the row is listed. */
  lemma NonGoodStep(top: seq<TopFeature>, n: nat)
    requires 0 < n <= |top| && (top[n - 1].status == StatusCritical || top[n - 1].status == StatusWarning)
    ensures var earlier := AlertsUpTo(top, n - 1, IntendedLabels);
      AlertsUpTo(top, n, IntendedLabels) == earlier + [IntendedAlert(top[n - 1], |earlier| + 1)]
    ensures NonGoodRows(top, n) == NonGoodRows(top, n - 1) + [top[n - 1]]
  {
  }

  /** One step over a good row: nothing is appended or listed. */
  lemma GoodStep(top: seq<TopFeature>, n: nat)
    requires 0 < n <= |top| && top[n - 1].status == StatusGood
    ensures AlertsUpTo(top, n, IntendedLabels) == AlertsUpTo(top, n - 1, IntendedLabels)
    ensures NonGoodRows(top, n) == NonGoodRows(top, n - 1)
  {
    assert NonGoodRows(top, n - 1) + [] == NonGoodRows(top, n - 1);
  }

  /** Listing one more row appends that row's intended alert. */
  lemma IntendedAlertsOfSnoc(rows: seq<TopFeature>, t: TopFeature)
    ensures IntendedAlertsOf(rows + [t]) == IntendedAlertsOf(rows) + [IntendedAlert(t, |rows| + 1)]
  {
    var rows' := rows + [t];
    assert rows'[..|rows'| - 1] == rows && rows'[|rows'| - 1] == t;
  }

  /** With the labels the detector uses, the loop writes exactly the
      intended alerts of the critical and warning rows, in top-list order. */
  lemma {:induction false} IntendedAlertsCoverDrift(top: seq<TopFeature>, n: nat)
    requires n <= |top| && DetectorStatuses(top)
    ensures AlertsUpTo(top, n, IntendedLabels) == IntendedAlertsOf(NonGoodRows(top, n))
  {
    if n > 0 {
      IntendedAlertsCoverDrift(top, n - 1);
      if top[n - 1].status == StatusGood {
        GoodStep(top, n);
      } else {
        assert top[n - 1].status in {StatusCritical, StatusWarning, StatusGood};
        NonGoodStep(top, n);
        IntendedAlertsOfSnoc(NonGoodRows(top, n - 1), top[n - 1]);
      }
    }
  }

  // ---------------------------------------------------------------------
  // The response

  datatype ServerSummary = ServerSummary(score: real, driftingCount: nat, totalCount: nat, recommendation: Types.Recommendation)

  datatype DashboardBody = DashboardBody(
    healthScore: int,
    metrics: seq<ServerMetric>,
    alerts: seq<ServerAlert>,
    driftSummary: ServerSummary,
    topFeatures: seq<TopFeature>)

  datatype Response = ServerError(message: string) | Served(body: DashboardBody)

  const LoadFailedMessage: string := "Failed to load data (None returned)"

  /** `len(production_df)`: the length of its columns. */
  function RowCount(f: Frame): nat {
    if |f| == 0 then 0 else |f[0].cells|
  }

  /** The snapshot for a report and the production row count, with the
      status labels the alert loop compares against (`AsWrittenLabels` in
      the server as written). */
  function Aggregate(report: Report, productionRows: nat, labels: StatusLabels): (body: DashboardBody)
    ensures body.driftSummary.totalCount == |report|
    ensures body.driftSummary.driftingCount == DriftingCount(report) <= |report|
    ensures 0.0 <= body.driftSummary.score <= 1.0
    ensures |report| == 0 || DriftingCount(report) == 0 ==> body.driftSummary.score == 0.0 && body.healthScore == 100
    ensures |report| > 0 && DriftingCount(report) == |report| ==> body.driftSummary.score == 1.0 && body.healthScore == 0
    ensures 0 <= body.healthScore <= 100
    ensures body.driftSummary.recommendation == RecommendationFor(body.driftSummary.score)
    ensures body.metrics == Metrics(productionRows, body.driftSummary.score)
    ensures body.topFeatures == TopFeatures(report)
    ensures body.alerts == Alerts(TopFeatures(report), DriftingCount(report), labels)
  {
    var total := |report|;
    var drifting := DriftingCount(report);
    var k := DriftHundredths(drifting, total);
    var score := Score(k);
    var top := TopFeatures(report);
    DashboardBody(
      HealthScore(score),
      Metrics(productionRows, score),
      Alerts(top, drifting, labels),
      ServerSummary(score, drifting, total, RecommendationFor(score)),
      top)
  }

  /** Top rows keep the statuses of the report they come from. */
  lemma TopFeaturesKeepDetectorStatuses(report: Report)
    requires DetectorReport(report)
    ensures DetectorStatuses(TopFeatures(report))
  {
    var top := TopFeatures(report);
    forall k | 0 <= k < |top| ensures top[k].status in {StatusCritical, StatusWarning, StatusGood} {
      TopFeaturesFromReport(report, top[k]);
    }
  }

  /** As written, a snapshot of a detector report never carries an alert. */
  lemma AsWrittenSnapshotHasNoAlerts(report: Report, productionRows: nat)
    requires DetectorReport(report)
    ensures Aggregate(report, productionRows, AsWrittenLabels).alerts == []
  {
    var top := TopFeatures(report);
    TopFeaturesKeepDetectorStatuses(report);
    AsWrittenAlertsAlwaysEmpty(top, |top|);
  }

  /** With the detector's labels, a snapshot carries no alert when nothing
      drifts, and otherwise one alert per critical or warning top row, in
      top-list order. */
  lemma CorrectedSnapshotAlerts(report: Report, productionRows: nat)
    requires DetectorReport(report)
    ensures var top, alerts := TopFeatures(report), Aggregate(report, productionRows, IntendedLabels).alerts;
      && (DriftingCount(report) == 0 ==> alerts == [])
      && (DriftingCount(report) > 0 ==>
            && alerts == IntendedAlertsOf(NonGoodRows(top, |top|))
            && |alerts| == |NonGoodIndices(top, |top|)|
            && forall k :: 0 <= k < |alerts| ==> alerts[k] == IntendedAlert(top[NonGoodIndices(top, |top|)[k]], k + 1))
  {
    var top := TopFeatures(report);
    TopFeaturesKeepDetectorStatuses(report);
    IntendedAlertsCoverDrift(top, |top|);
    IntendedAlertsOfEntries(NonGoodRows(top, |top|));
    NonGoodRowsAtIndices(top, |top|);
  }

  /** `get_dashboard_data`: a 500 error body when either dataset failed to
      load; otherwise the report is computed and aggregated, and, since the
      alert loop compares against capitalised labels, the alert list is
      always empty. */
  method GetDashboardData(training: Option<Frame>, production: Option<Frame>, psi: PsiFunction)
    returns (response: Response)
    ensures training.None? || production.None? ==> response == ServerError(LoadFailedMessage)
    ensures training.Some? && production.Some? ==>
      response == Served(Aggregate(FullReport(training.value, production.value, psi), RowCount(production.value), AsWrittenLabels))
    ensures response.Served? ==> response.body.alerts == []
  {
    if training.None? || production.None? {
      return ServerError(LoadFailedMessage);
    }
    var report := DetectDrift(training.value, production.value, psi);
    var total := |report|;
    var drifting := DriftingCount(report);
    var k := DriftHundredths(drifting, total);
    var score := Score(k);
    var top := BuildTopFeatures(report);
    var alerts := BuildAlerts(top, drifting, AsWrittenLabels);
    var body := DashboardBody(
      HealthScore(score),
      Metrics(RowCount(production.value), score),
      alerts,
      ServerSummary(score, drifting, total, RecommendationFor(score)),
      top);
    response := Served(body);
    FullReportHasDetectorStatuses(training.value, production.value, psi);
    AsWrittenSnapshotHasNoAlerts(report, RowCount(production.value));
  }

  // ---------------------------------------------------------------------
  // Across the wire

  /** A top row as the dashboard receives it: the server sends name, PSI,
      status and drift score, and no KS or KL value. */
  function WireFeature(t: TopFeature): (f: Types.DriftFeature)
    ensures f.name == t.name && f.psi == t.psi && f.status == t.status
    ensures f.ks.None? && f.kl.None?
  {
    Types.DriftFeature(t.name, t.psi, None, None, t.status)
  }

  /** Every served top row fails to render its KS/KL readout, and a report
      with at least one feature serves at least one top row. */
  lemma ServedTopFeaturesFailToRender(report: Report)
    ensures forall k :: 0 <= k < |TopFeatures(report)| ==>
              DriftingFeatureItem.RenderedReadout(WireFeature(TopFeatures(report)[k])).None?
    ensures |report| > 0 ==> |TopFeatures(report)| > 0
  {
    TopFeaturesRanked(report);
  }

  /** With the readout guarded, every served top row renders, showing only
      its PSI, by the same decimals rule. */
  lemma GuardedTopFeaturesRender(report: Report)
    ensures forall k :: 0 <= k < |TopFeatures(report)| ==>
              var r := DriftingFeatureItem.GuardedReadout(WireFeature(TopFeatures(report)[k]));
              r == (DriftingFeatureItem.Decimals(TopFeatures(report)[k].psi), None, None)
    ensures |report| > 0 ==> |TopFeatures(report)| > 0
  {
    TopFeaturesRanked(report);
  }

  /** The one-shot dashboard shows the retraining sentence, with the
      server's "2 hours", exactly when the drift score exceeds 0.2. */
  lemma RecommendationShownAsRetrain(score: real)
    ensures var text := OneShotDashboard.RecommendationText(Some(RecommendationFor(score)));
      && (IsPrefix(OneShotDashboard.RetrainPrefix, text) <==> score > 0.2)
      && (score > 0.2 ==> text == OneShotDashboard.RetrainPrefix + EstimatedRetrainTime + " due to critical drift.")
  {
  }

  /** The gauge says "Drift Detected" exactly when more than 30 hundredths
      of the features drift. */
  lemma HealthLabelThreshold(k: int)
    requires 0 <= k <= 100
    ensures PollingDashboard.HealthLabel(HealthScore(Score(k)) as real) == "Drift Detected" <==> k > 30
  {
    HealthComplementsDrift(k);
  }
}
