/** The live-monitoring page: a 2-second interval that, while the feed is
    playing, bumps the prediction counter, slides the prediction-history and
    performance windows, random-walks the accuracy inside [70, 100], and now
    and then prepends an alert to a feed capped at ten entries.

    Every `Math.random()` draw is a parameter in [0, 1); the wall clock
    (`new Date()`, `toLocaleTimeString`, `Date.now()`) is a parameter too. */
module LiveMonitoring {
  import opened Common
  import opened Types

  const WindowLength: nat := 20
  const FeedCapacity: nat := 10
  const InitialPredictions: int := 1247
  const TickMs: nat := 2000

  datatype PerfPoint = PerfPoint(time: string, accuracy: real, latency: real, throughput: real)

  datatype LiveAlert = LiveAlert(id: int, time: string, msg: string, kind: AlertSeverity)

  /** The fixed catalogue the simulated alerts draw their text from. */
  const AlertMessages: seq<string> :=
    ["High latency detected", "Drift detected in \"age\"", "Data schema mismatch warning", "Model endpoint restarting"]

  const AlertKinds: seq<AlertSeverity> := [Critical, Warning, Info]

  const InitialAlerts: seq<LiveAlert> := [
    LiveAlert(1, "2m ago", "WARNING: PSI threshold exceeded for \"income\"", Warning),
    LiveAlert(2, "5m ago", "INFO: Prediction rate increased 15%", Info),
    LiveAlert(3, "8m ago", "CRITICAL: Accuracy dropped below 88%", Critical)
  ]

  /** A value `Math.random()` can return. */
  predicate UnitDraw(r: real) {
    0.0 <= r < 1.0
  }

  /** The eight random draws one tick consumes, in source order. */
  datatype TickDraws = TickDraws(
    pred: real, history: real, accuracy: real, latency: real,
    throughput: real, alert: real, message: real, kind: real)
  {
    predicate Valid() {
      UnitDraw(pred) && UnitDraw(history) && UnitDraw(accuracy) && UnitDraw(latency) &&
      UnitDraw(throughput) && UnitDraw(alert) && UnitDraw(message) && UnitDraw(kind)
    }
  }

  /** One interval firing: the clock label, `Date.now()` and the draws. */
  datatype Tick = Tick(clock: string, nowMs: int, draws: TickDraws)

  // ---------------------------------------------------------------------
  // The per-field rules of one tick

  /** `Math.floor(Math.random() * 20)`: the predictions added by one tick. */
  function PredictionIncrement(r: real): (n: int)
    requires UnitDraw(r)
    ensures 0 <= n <= 19
  {
    (r * 20.0).Floor
  }

  /** `50 + Math.random() * 50`: a new prediction-history sample. */
  function HistorySample(r: real): (x: real)
    requires UnitDraw(r)
    ensures 50.0 <= x < 100.0
  {
    50.0 + r * 50.0
  }

  /** `[...prev.slice(1), x]`: drop the oldest sample, append the newest. */
  function Slide<T>(w: seq<T>, x: T): (r: seq<T>)
    requires |w| > 0
    ensures |r| == |w|
    ensures r[|r| - 1] == x
    ensures forall i :: 0 <= i < |r| - 1 ==> r[i] == w[i + 1]
  {
    w[1..] + [x]
  }

  /** The accuracy random walk: add `(r - 0.6) * 2` and clamp to [70, 100].
      From a value already in range it moves down by at most 1.2 and up by
      less than 0.8. */
  function NextAccuracy(prev: real, r: real): (a: real)
    requires UnitDraw(r)
    ensures 70.0 <= a <= 100.0
    ensures 70.0 <= prev <= 100.0 ==> prev - 1.2 <= a < prev + 0.8
  {
    MaxReal(70.0, MinReal(100.0, prev + (r - 0.6) * 2.0))
  }

  predicate PerfInRange(p: PerfPoint) {
    70.0 <= p.accuracy <= 100.0 && 40.0 <= p.latency < 50.0 && 1000.0 <= p.throughput < 1500.0
  }

  /** The point appended to the performance window, computed from the last one. */
  function NextPerfPoint(last: PerfPoint, clock: string, d: TickDraws): (p: PerfPoint)
    requires d.Valid()
    ensures PerfInRange(p) && p.time == clock
    ensures p.accuracy == NextAccuracy(last.accuracy, d.accuracy)
  {
    PerfPoint(clock, NextAccuracy(last.accuracy, d.accuracy), 40.0 + d.latency * 10.0, 1000.0 + d.throughput * 500.0)
  }

  /** `Math.random() > 0.95`: whether this tick raises an alert. */
  predicate Emits(d: TickDraws) {
    d.alert > 0.95
  }

  /** The alert a tick raises: a catalogue message, one of the three kinds. */
  function EmittedAlert(d: TickDraws, nowMs: int): (a: LiveAlert)
    requires d.Valid()
    ensures a.msg in AlertMessages && a.kind in AlertKinds
    ensures a.id == nowMs && a.time == "Just now"
  {
    LiveAlert(nowMs, "Just now", AlertMessages[(d.message * 4.0).Floor], AlertKinds[(d.kind * 3.0).Floor])
  }

  /** `[x, ...feed].slice(0, cap)`: the newest entry first, the older ones
      after it in their old order, the oldest dropped beyond the cap. */
  function PushCapped<T>(feed: seq<T>, x: T, cap: nat): (r: seq<T>)
    requires cap >= 1
    ensures |r| == MinInt(|feed| + 1, cap)
    ensures r[0] == x
    ensures forall i :: 1 <= i < |r| ==> r[i] == feed[i - 1]
  {
    ([x] + feed)[..MinInt(|feed| + 1, cap)]
  }

  // ---------------------------------------------------------------------
  // The whole tick on values

  datatype LiveState = LiveState(
    predictionsCount: int,
    predictionHistory: seq<real>,
    perfData: seq<PerfPoint>,
    alerts: seq<LiveAlert>)

  /** What every reachable state satisfies: both windows hold twenty samples
      in range, the counter has not dropped below its start, the feed is
      within its cap. */
  predicate Inv(s: LiveState) {
    && s.predictionsCount >= InitialPredictions
    && |s.predictionHistory| == WindowLength
    && (forall i :: 0 <= i < |s.predictionHistory| ==> 50.0 <= s.predictionHistory[i] < 100.0)
    && |s.perfData| == WindowLength
    && (forall i :: 0 <= i < |s.perfData| ==> PerfInRange(s.perfData[i]))
    && |s.alerts| <= FeedCapacity
  }

  function Last<T>(s: seq<T>): T
    requires |s| > 0
  {
    s[|s| - 1]
  }

  /** One interval firing (LiveMonitoringPage.tsx, the `setInterval` body). */
  function Step(s: LiveState, t: Tick): (r: LiveState)
    requires Inv(s) && t.draws.Valid()
    ensures Inv(r)
    ensures s.predictionsCount <= r.predictionsCount <= s.predictionsCount + 19
    ensures r.predictionHistory[..WindowLength - 1] == s.predictionHistory[1..]
    ensures r.perfData[..WindowLength - 1] == s.perfData[1..]
    ensures Last(r.perfData).accuracy == NextAccuracy(Last(s.perfData).accuracy, t.draws.accuracy)
    ensures !Emits(t.draws) ==> r.alerts == s.alerts
    ensures Emits(t.draws) ==>
      |r.alerts| == MinInt(|s.alerts| + 1, FeedCapacity) &&
      r.alerts[0].msg in AlertMessages && r.alerts[1..] == s.alerts[..|r.alerts| - 1]
  {
    var d := t.draws;
    LiveState(
      s.predictionsCount + PredictionIncrement(d.pred),
      Slide(s.predictionHistory, HistorySample(d.history)),
      Slide(s.perfData, NextPerfPoint(Last(s.perfData), t.clock, d)),
      if Emits(d) then PushCapped(s.alerts, EmittedAlert(d, t.nowMs), FeedCapacity) else s.alerts)
  }

  predicate AllDrawsValid(ticks: seq<Tick>) {
    forall i :: 0 <= i < |ticks| ==> ticks[i].draws.Valid()
  }

  /** The state after a run of consecutive ticks while playing. */
  function Run(s: LiveState, ticks: seq<Tick>): (r: LiveState)
    requires Inv(s) && AllDrawsValid(ticks)
    ensures Inv(r)
    ensures s.predictionsCount <= r.predictionsCount <= s.predictionsCount + 19 * |ticks|
    decreases |ticks|
  {
    if |ticks| == 0 then s
    else Run(Step(s, ticks[0]), ticks[1..])
  }

  /** A run in which no tick draws above 0.95 leaves the alert feed as it was. */
  lemma {:induction false} QuietRunKeepsFeed(s: LiveState, ticks: seq<Tick>)
    requires Inv(s) && AllDrawsValid(ticks)
    requires forall i :: 0 <= i < |ticks| ==> !Emits(ticks[i].draws)
    ensures Run(s, ticks).alerts == s.alerts
    decreases |ticks|
  {
    if |ticks| > 0 {
      QuietRunKeepsFeed(Step(s, ticks[0]), ticks[1..]);
    }
  }

  /** After at least twenty ticks the history window holds exactly the
      samples those last twenty ticks drew, oldest first. */
  lemma HistoryIsLastTwentySamples(s: LiveState, ticks: seq<Tick>)
    requires Inv(s) && AllDrawsValid(ticks) && |ticks| >= WindowLength
    ensures forall k :: 0 <= k < WindowLength ==>
      Run(s, ticks).predictionHistory[k] == HistorySample(ticks[|ticks| - WindowLength + k].draws.history)
  {
    var m := |ticks| - WindowLength;
    var older, last := ticks[..m], ticks[m..];
    assert ticks == older + last;
    assert AllDrawsValid(older) && AllDrawsValid(last);
    RunAppend(s, older, last);
    RunWindow(Run(s, older), last, WindowLength);
  }

  /** Running two stretches of ticks one after the other is running them joined. */
  lemma {:induction false} RunAppend(s: LiveState, a: seq<Tick>, b: seq<Tick>)
    requires Inv(s) && AllDrawsValid(a) && AllDrawsValid(b) && AllDrawsValid(a + b)
    ensures Run(s, a + b) == Run(Run(s, a), b)
    decreases |a|
  {
    if |a| == 0 {
      assert a + b == b;
    } else {
      assert (a + b)[0] == a[0];
      assert (a + b)[1..] == a[1..] + b;
      assert AllDrawsValid(a[1..]);
      RunAppend(Step(s, a[0]), a[1..], b);
    }
  }

  /** Helper: after `n <= 20` ticks, the last `n` history slots hold the
      samples of those ticks, in order, and the rest is the old window shifted. */
  lemma {:induction false} RunWindow(s: LiveState, ticks: seq<Tick>, n: nat)
    requires Inv(s) && AllDrawsValid(ticks) && n == |ticks| <= WindowLength
    ensures forall k :: 0 <= k < WindowLength - n ==> Run(s, ticks).predictionHistory[k] == s.predictionHistory[k + n]
    ensures forall k :: WindowLength - n <= k < WindowLength ==>
      Run(s, ticks).predictionHistory[k] == HistorySample(ticks[k - (WindowLength - n)].draws.history)
    decreases n
  {
    if n > 0 {
      var s' := Step(s, ticks[0]);
      RunWindow(s', ticks[1..], n - 1);
      assert Run(s, ticks) == Run(s', ticks[1..]);
    }
  }

  // ---------------------------------------------------------------------
  // The Sparkline's vertical range

  /** `Math.max(...s, floor)`. */
  function MaxWith(s: seq<real>, floor: real): (m: real)
    ensures m >= floor
    ensures forall i :: 0 <= i < |s| ==> s[i] <= m
    ensures m == floor || exists i :: 0 <= i < |s| && s[i] == m
    decreases |s|
  {
    if |s| == 0 then floor else MaxReal(s[|s| - 1], MaxWith(s[..|s| - 1], floor))
  }

  /** `Math.min(...s, ceiling)`. */
  function MinWith(s: seq<real>, ceiling: real): (m: real)
    ensures m <= ceiling
    ensures forall i :: 0 <= i < |s| ==> m <= s[i]
    ensures m == ceiling || exists i :: 0 <= i < |s| && s[i] == m
    decreases |s|
  {
    if |s| == 0 then ceiling else MinReal(s[|s| - 1], MinWith(s[..|s| - 1], ceiling))
  }

  const SparkHeight: real := 40.0

  lemma UnitRatio(num: real, span: real)
    requires span >= 1.0 && 0.0 <= num <= span
    ensures 0.0 <= num / span <= 1.0
  {
    var t := num / span;
    assert t * span == num;
  }

  /** The Sparkline's y coordinate for sample `i`. The range always covers
      [0, 1], so the divisor `max - min` is at least 1 and every point lands
      inside the 40-pixel box. */
  function SparkY(data: seq<real>, i: nat): (y: real)
    requires i < |data|
    ensures 0.0 <= y <= SparkHeight
  {
    var hi := MaxWith(data, 1.0);
    var lo := MinWith(data, 0.0);
    var t := (data[i] - lo) / (hi - lo);
    UnitRatio(data[i] - lo, hi - lo);
    SparkHeight - t * SparkHeight
  }

  // ---------------------------------------------------------------------
  // The page component

  predicate InitialPerfDraw(d: (real, real, real)) {
    UnitDraw(d.0) && UnitDraw(d.1) && UnitDraw(d.2)
  }

  /** Point `i` of the initial-data effect: `${i}:00`, accuracy in [85, 90). */
  function InitialPerfPoint(i: nat, d: (real, real, real)): (p: PerfPoint)
    requires InitialPerfDraw(d)
    ensures PerfInRange(p) && 85.0 <= p.accuracy < 90.0
  {
    PerfPoint(NatToString(i) + ":00", 85.0 + d.0 * 5.0, 40.0 + d.1 * 10.0, 1000.0 + d.2 * 500.0)
  }

  /** The state right after mount: history from twenty draws, the
      performance window from the initial effect's twenty points labelled
      "0:00" to "19:00", and the three seeded alerts. */
  function InitialState(historyDraws: seq<real>, perfDraws: seq<(real, real, real)>): (s: LiveState)
    requires |historyDraws| == WindowLength && |perfDraws| == WindowLength
    requires forall i :: 0 <= i < |historyDraws| ==> UnitDraw(historyDraws[i])
    requires forall i :: 0 <= i < |perfDraws| ==> InitialPerfDraw(perfDraws[i])
    ensures Inv(s) && |s.alerts| == 3
    ensures s.predictionsCount == InitialPredictions
    ensures forall i :: 0 <= i < WindowLength ==> 85.0 <= s.perfData[i].accuracy < 90.0
  {
    LiveState(
      InitialPredictions,
      seq(WindowLength, i requires 0 <= i < WindowLength => HistorySample(historyDraws[i])),
      seq(WindowLength, i requires 0 <= i < WindowLength => InitialPerfPoint(i, perfDraws[i])),
      InitialAlerts)
  }

  class LiveMonitor {
    var isPlaying: bool
    var lastUpdate: string
    var predictionsCount: int
    var predictionHistory: seq<real>
    var perfData: seq<PerfPoint>
    var alerts: seq<LiveAlert>

    function State(): LiveState
      reads this
    {
      LiveState(predictionsCount, predictionHistory, perfData, alerts)
    }

    ghost predicate Valid()
      reads this
    {
      Inv(State())
    }

    /** Mount plus the initial-data effect; the feed starts playing. */
    constructor (clock: string, historyDraws: seq<real>, perfDraws: seq<(real, real, real)>)
      requires |historyDraws| == WindowLength && |perfDraws| == WindowLength
      requires forall i :: 0 <= i < |historyDraws| ==> UnitDraw(historyDraws[i])
      requires forall i :: 0 <= i < |perfDraws| ==> InitialPerfDraw(perfDraws[i])
      ensures Valid() && isPlaying && lastUpdate == clock
      ensures State() == InitialState(historyDraws, perfDraws)
    {
      var s := InitialState(historyDraws, perfDraws);
      isPlaying := true;
      lastUpdate := clock;
      predictionsCount := s.predictionsCount;
      predictionHistory := s.predictionHistory;
      perfData := s.perfData;
      alerts := s.alerts;
    }

    /** One 2000 ms period elapses. The interval exists only while playing,
        so a paused page does not change at all. */
    method TimerTick(t: Tick)
      requires Valid() && t.draws.Valid()
      modifies this
      ensures Valid() && isPlaying == old(isPlaying)
      ensures old(isPlaying) ==> State() == Step(old(State()), t) && lastUpdate == t.clock
      ensures !old(isPlaying) ==> State() == old(State()) && lastUpdate == old(lastUpdate)
    {
      if !isPlaying {
        return;
      }
      var d := t.draws;
      lastUpdate := t.clock;
      predictionsCount := predictionsCount + PredictionIncrement(d.pred);
      predictionHistory := Slide(predictionHistory, HistorySample(d.history));
      perfData := Slide(perfData, NextPerfPoint(perfData[|perfData| - 1], t.clock, d));
      if Emits(d) {
        alerts := PushCapped(alerts, EmittedAlert(d, t.nowMs), FeedCapacity);
      }
    }

    /** The play/pause button. */
    method TogglePlaying()
      requires Valid()
      modifies this
      ensures Valid() && isPlaying == !old(isPlaying)
      ensures State() == old(State()) && lastUpdate == old(lastUpdate)
    {
      isPlaying := !isPlaying;
    }
  }
}
