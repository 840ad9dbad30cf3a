/** The polling dashboard: fetches `/api/dashboard-data` at mount and then
    every 10 seconds, keeps `data`, `loading` and `error`, and chooses among
    spinner, error view and dashboard from those three fields. Also the
    display rules the dashboard body applies to the snapshot. */
module PollingDashboard {
  import opened Common
  import opened Types

  const FetchErrorMessage: string := "Could not load dashboard data. Ensure backend is running."
  const PollIntervalMs: nat := 10000

  datatype FetchState = FetchState(data: Option<DashboardData>, loading: bool, error: Option<string>)

  /** `useState(null)`, `useState(true)`, `useState(null)`. */
  const Initial: FetchState := FetchState(None, true, None)

  /** One fetch settling. Success replaces the snapshot and clears the error;
      failure (non-ok status or a rejected promise) sets the fixed message and
      keeps whatever snapshot was already held. Both end the loading phase. */
  function Settle(s: FetchState, o: FetchOutcome<DashboardData>): (r: FetchState)
    ensures !r.loading
    ensures o.Ok? ==> r.data == Some(o.body) && r.error == None
    ensures o.Fail? ==> r.data == s.data && r.error == Some(FetchErrorMessage)
  {
    match o
    case Ok(body) => FetchState(Some(body), false, None)
    case Fail => FetchState(s.data, false, Some(FetchErrorMessage))
  }

  /** The state after a series of settled fetches, in settling order. */
  function SettleAll(s: FetchState, outcomes: seq<FetchOutcome<DashboardData>>): FetchState
    decreases |outcomes|
  {
    if |outcomes| == 0 then s else SettleAll(Settle(s, outcomes[0]), outcomes[1..])
  }

  /** The body of the most recent success in a series, if there was one. */
  function LastSuccess(outcomes: seq<FetchOutcome<DashboardData>>): Option<DashboardData>
    decreases |outcomes|
  {
    if |outcomes| == 0 then None
    else if outcomes[|outcomes| - 1].Ok? then Some(outcomes[|outcomes| - 1].body)
    else LastSuccess(outcomes[..|outcomes| - 1])
  }

  /** Stale-but-available: after any series of settled polls the held
      snapshot is the last successful body (or the earlier one if none
      succeeded), the error is set exactly when the latest poll failed, and
      loading never comes back. */
  lemma {:induction false} SettleAllCharacterized(s: FetchState, outcomes: seq<FetchOutcome<DashboardData>>)
    requires |outcomes| > 0
    ensures !SettleAll(s, outcomes).loading
    ensures SettleAll(s, outcomes).data == if LastSuccess(outcomes).Some? then LastSuccess(outcomes) else s.data
    ensures SettleAll(s, outcomes).error == if outcomes[|outcomes| - 1].Ok? then None else Some(FetchErrorMessage)
    decreases |outcomes|
  {
    var n := |outcomes|;
    if n == 1 {
      assert SettleAll(s, outcomes) == SettleAll(Settle(s, outcomes[0]), []);
    } else {
      var init := outcomes[..n - 1];
      SettleAllSnoc(s, init, outcomes[n - 1]);
      assert init + [outcomes[n - 1]] == outcomes;
      assert LastSuccess(outcomes) == if outcomes[n - 1].Ok? then Some(outcomes[n - 1].body) else LastSuccess(init);
      SettleAllCharacterized(s, init);
    }
  }

  lemma {:induction false} SettleAllSnoc(s: FetchState, outcomes: seq<FetchOutcome<DashboardData>>, o: FetchOutcome<DashboardData>)
    ensures SettleAll(s, outcomes + [o]) == Settle(SettleAll(s, outcomes), o)
    decreases |outcomes|
  {
    if |outcomes| == 0 {
      assert SettleAll(s, [o]) == SettleAll(Settle(s, o), []);
    } else {
      assert (outcomes + [o])[1..] == outcomes[1..] + [o];
      SettleAllSnoc(Settle(s, outcomes[0]), outcomes[1..], o);
    }
  }

  // ---------------------------------------------------------------------
  // Render choice

  datatype Screen = Spinner | ErrorScreen(message: Option<string>) | Content(snapshot: DashboardData)

  /** `if (loading) spinner; if (error || !data) error view; else dashboard`. */
  function Render(s: FetchState): (v: Screen)
    ensures v.Spinner? <==> s.loading
    ensures v.ErrorScreen? <==> !s.loading && (s.error.Some? || s.data.None?)
    ensures v.ErrorScreen? ==> v.message == s.error
    ensures v.Content? <==> !s.loading && s.error.None? && s.data.Some?
    ensures v.Content? ==> s.data == Some(v.snapshot)
  {
    if s.loading then Spinner
    else if s.error.Some? || s.data.None? then ErrorScreen(s.error)
    else Content(s.data.value)
  }

  /** Once the first poll has settled the spinner never returns, and a failed
      poll shows the error view with the fixed message even while an older
      snapshot is still held. */
  lemma AfterFirstSettle(outcomes: seq<FetchOutcome<DashboardData>>)
    requires |outcomes| > 0
    ensures Render(SettleAll(Initial, outcomes)) != Spinner
    ensures outcomes[|outcomes| - 1].Fail? ==>
      Render(SettleAll(Initial, outcomes)) == ErrorScreen(Some(FetchErrorMessage))
    ensures outcomes[|outcomes| - 1].Ok? ==>
      Render(SettleAll(Initial, outcomes)) == Content(outcomes[|outcomes| - 1].body)
  {
    SettleAllCharacterized(Initial, outcomes);
  }

  // ---------------------------------------------------------------------
  // Poll schedule

  /** Fetches issued in the first `elapsedMs` milliseconds after mount: the
      one at mount plus one per completed 10-second period. */
  function FetchesIssuedBy(elapsedMs: nat): (n: nat)
    ensures n >= 1
    ensures (n - 1) * PollIntervalMs <= elapsedMs < n * PollIntervalMs
  {
    1 + elapsedMs / PollIntervalMs
  }

  /** The component instance. `polling` says whether the interval still
      exists; `fetchesIssued` counts the requests sent so far; `elapsedMs`
      is the time since mount at the last firing of the interval. */
  class Poller {
    var data: Option<DashboardData>
    var loading: bool
    var error: Option<string>
    var polling: bool
    var fetchesIssued: nat
    var elapsedMs: nat

    function State(): FetchState
      reads this
    {
      FetchState(data, loading, error)
    }

    /** While the interval lives, the fetches sent are those of the schedule. */
    ghost predicate OnSchedule()
      reads this
    {
      polling ==> fetchesIssued == FetchesIssuedBy(elapsedMs)
    }

    /** Mount: initial state, the first fetch sent, the interval created. */
    constructor ()
      ensures State() == Initial && polling && fetchesIssued == 1 && elapsedMs == 0
      ensures OnSchedule()
    {
      data, loading, error := None, true, None;
      polling := true;
      fetchesIssued := 1;
      elapsedMs := 0;
    }

    /** Ten seconds pass: a live interval sends one more fetch. */
    method IntervalElapses()
      requires OnSchedule()
      modifies this
      ensures State() == old(State()) && polling == old(polling)
      ensures fetchesIssued == old(fetchesIssued) + (if old(polling) then 1 else 0)
      ensures elapsedMs == old(elapsedMs) + (if old(polling) then PollIntervalMs else 0)
      ensures OnSchedule()
    {
      if polling {
        fetchesIssued := fetchesIssued + 1;
        elapsedMs := elapsedMs + PollIntervalMs;
        assert elapsedMs / PollIntervalMs == old(elapsedMs) / PollIntervalMs + 1;
      }
    }

    /** A sent fetch settles; the three setters run. */
    method Resolve(o: FetchOutcome<DashboardData>)
      modifies this
      ensures State() == Settle(old(State()), o)
      ensures polling == old(polling) && fetchesIssued == old(fetchesIssued) && elapsedMs == old(elapsedMs)
    {
      match o {
        case Ok(body) =>
          data := Some(body);
          loading := false;
          error := None;
        case Fail =>
          error := Some(FetchErrorMessage);
          loading := false;
      }
    }

    /** Unmount: the cleanup clears the interval; no further fetch is sent. */
    method Unmount()
      modifies this
      ensures !polling && State() == old(State()) && fetchesIssued == old(fetchesIssued)
      ensures elapsedMs == old(elapsedMs)
    {
      polling := false;
    }
  }

  // ---------------------------------------------------------------------
  // Display rules of the dashboard body (shared with the one-shot dashboard)

  /** The gauge label. */
  function HealthLabel(healthScore: real): (text: string)
    ensures text == "Drift Detected" <==> healthScore < 70.0
    ensures text == "Healthy" <==> healthScore >= 70.0
  {
    if healthScore < 70.0 then "Drift Detected" else "Healthy"
  }

  /** The dataset drift-score badge colour. */
  function DriftBadgeTone(score: real): (t: Tone)
    ensures t == CriticalRed <==> score > 0.25
    ensures t == WarningAmber <==> score <= 0.25
  {
    if score > 0.25 then CriticalRed else WarningAmber
  }

  /** `Math.round`: the nearest integer, halves rounded up. */
  function JsRound(x: real): (n: int)
    ensures x - 0.5 < n as real <= x + 0.5
  {
    (x + 0.5).Floor
  }

  /** `Math.round(drifting / total * 100)`. With no features the division
      yields NaN, shown as "NaN%"; that case is `None`. */
  function DriftingPercent(drifting: nat, total: nat): (p: Option<int>)
    ensures p.None? <==> total == 0
    ensures p.Some? ==> -0.5 < p.value as real - (drifting as real / total as real) * 100.0 <= 0.5
    ensures p.Some? && drifting <= total ==> 0 <= p.value <= 100
  {
    if total == 0 then None
    else
      var ratio := drifting as real / total as real;
      assert 0.0 <= ratio && (drifting <= total ==> ratio <= 1.0) by {
        assert ratio * total as real == drifting as real;
      }
      Some(JsRound(ratio * 100.0))
  }

  /** An alert gets the "Investigate" action when its message mentions
      "income" in any letter case. */
  predicate HasInvestigateAction(a: Alert) {
    Contains(Lower(a.message), "income")
  }

  /** Some spelling of "income" (INCOME, Income, ...) starts at index `k`
      of the message. */
  predicate IncomeAt(a: Alert, k: nat) {
    k + 6 <= |a.message| && Lower(a.message[k..k + 6]) == "income"
  }

  /** Any spelling of "income" anywhere in the message triggers the action. */
  lemma IncomeInAnyCase(a: Alert, k: nat)
    requires IncomeAt(a, k)
    ensures HasInvestigateAction(a)
  {
    var m := Lower(a.message);
    assert m[k..k + 6] == Lower(a.message[k..k + 6]);
    ContainsAt(m, "income", k);
  }

  /** Only a message with some spelling of "income" at some position gets
      the action. */
  lemma InvestigateOnlyForIncome(a: Alert)
    requires HasInvestigateAction(a)
    ensures exists k: nat :: IncomeAt(a, k)
  {
    var m := Lower(a.message);
    ContainsWitness(m, "income");
    var k: nat :| OccursAt(m, "income", k);
    assert Lower(a.message[k..k + 6]) == m[k..k + 6];
    assert IncomeAt(a, k);
  }
}
