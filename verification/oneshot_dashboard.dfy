/** The earlier, one-shot dashboard: a single fetch at mount and no polling,
    the same render choice, a recommendation panel, and click targets. Its
    health label, drift badge and percentage follow the same rules as the
    polling dashboard and reuse them. */
module OneShotDashboard {
  import opened Common
  import opened Types
  import opened PollingDashboard

  /** The state once the single fetch has settled. Success stores the body,
      failure stores the fixed message; neither touches the other field, so
      exactly one of the two is present. */
  function SettledOnce(o: FetchOutcome<DashboardData>): (r: FetchState)
    ensures !r.loading
    ensures r.data.Some? <==> r.error.None?
    ensures r.data.Some? <==> o.Ok?
    ensures o.Ok? ==> r.data == Some(o.body)
    ensures o.Fail? ==> r.error == Some(FetchErrorMessage)
  {
    match o
    case Ok(body) => FetchState(Some(body), false, Initial.error)
    case Fail => FetchState(Initial.data, false, Some(FetchErrorMessage))
  }

  /** What the page shows once the fetch settles: the dashboard exactly when
      it succeeded, the error view with the fixed message otherwise. */
  lemma SettledView(o: FetchOutcome<DashboardData>)
    ensures o.Ok? ==> Render(SettledOnce(o)) == Content(o.body)
    ensures o.Fail? ==> Render(SettledOnce(o)) == ErrorScreen(Some(FetchErrorMessage))
  {
  }

  class OneShot {
    var data: Option<DashboardData>
    var loading: bool
    var error: Option<string>
    var fetchesIssued: nat

    function State(): FetchState
      reads this
    {
      FetchState(data, loading, error)
    }

    /** Loading means nothing has arrived yet; afterwards exactly one of
        data and error is present. One fetch is ever sent. */
    ghost predicate Valid()
      reads this
    {
      fetchesIssued == 1 &&
      (loading ==> data.None? && error.None?) &&
      (!loading ==> (data.Some? <==> error.None?))
    }

    /** Mount: the one fetch is sent. No interval is created. */
    constructor ()
      ensures Valid() && State() == Initial
    {
      data, loading, error := None, true, None;
      fetchesIssued := 1;
    }

    /** The fetch settles (it settles once). */
    method Resolve(o: FetchOutcome<DashboardData>)
      requires Valid() && loading
      modifies this
      ensures Valid() && State() == SettledOnce(o)
    {
      match o {
        case Ok(body) =>
          data := Some(body);
          loading := false;
        case Fail =>
          error := Some(FetchErrorMessage);
          loading := false;
      }
    }
  }

  // ---------------------------------------------------------------------
  // Recommendation panel and click targets

  const RetrainPrefix: string := "Retrain model within "
  const MonitorText: string := "Monitor closely." + " Drift levels are elevated but not critical."

  predicate IsUrgent(rec: Option<Recommendation>) {
    rec.Some? && rec.value.action == "RETRAIN_URGENT"
  }

  /** `estimated_time || '24h'`: an absent or empty estimate falls back to 24h. */
  function RetrainWindow(rec: Recommendation): (w: string)
    ensures w != ""
    ensures rec.estimatedTime.Some? && rec.estimatedTime.value != "" ==> w == rec.estimatedTime.value
    ensures !(rec.estimatedTime.Some? && rec.estimatedTime.value != "") ==> w == "24h"
  {
    if rec.estimatedTime.Some? && rec.estimatedTime.value != "" then rec.estimatedTime.value else "24h"
  }

  /** The panel text: the retraining sentence exactly when the action is
      RETRAIN_URGENT, the fixed monitoring sentence otherwise. */
  function RecommendationText(rec: Option<Recommendation>): (text: string)
    ensures IsPrefix(RetrainPrefix, text) <==> IsUrgent(rec)
    ensures IsUrgent(rec) ==> text == RetrainPrefix + RetrainWindow(rec.value) + " due to critical drift."
    ensures !IsUrgent(rec) ==> text == MonitorText
  {
    if IsUrgent(rec) then
      var t := RetrainPrefix + RetrainWindow(rec.value) + " due to critical drift.";
      assert t[..|RetrainPrefix|] == RetrainPrefix;
      t
    else
      assert MonitorText[..|RetrainPrefix|] != RetrainPrefix by {
        assert MonitorText[..|RetrainPrefix|][0] == MonitorText[0];
      }
      MonitorText
  }

  /** Only the feature named "income" is clickable; it opens feature analysis. */
  function FeatureClickTarget(f: DriftFeature): (v: Option<View>)
    ensures v.Some? <==> f.name == "income"
    ensures v.Some? ==> v.value == FeatureAnalysisView
  {
    if f.name == "income" then Some(FeatureAnalysisView) else None
  }

  /** Clicking the recommendation panel opens the retraining page, whatever
      the recommendation: the monitoring sentence leads there too. */
  function RecommendationClickTarget(rec: Option<Recommendation>): (v: View)
    ensures v == RetrainingView
  {
    RetrainingView
  }
}
