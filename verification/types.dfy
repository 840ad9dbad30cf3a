/** The record shapes shared by the views (types.ts) and the dashboard
    snapshot the two Dashboard components receive from `/api/dashboard-data`. */
module Types {
  import opened Common

  datatype AlertSeverity = Critical | Warning | Info

  /** The wire spelling of a severity ("critical", "warning", "info"). */
  function SeverityName(s: AlertSeverity): (name: string)
    ensures name in {"critical", "warning", "info"}
  {
    match s
    case Critical => "critical"
    case Warning => "warning"
    case Info => "info"
  }

  datatype Alert = Alert(id: string, severity: AlertSeverity, message: string, timestamp: string)

  datatype Metric = Metric(labelText: string, value: real, change: real)

  /** A feature row. `ks` and `kl` are declared as numbers, but the backend
      never sends them, so their presence is optional here. The status is the
      raw string the server sent. */
  datatype DriftFeature = DriftFeature(name: string, psi: real, ks: Option<real>, kl: Option<real>, status: string)

  /** `recommendation: any` as the views read it: `action` and the optional
      `estimated_time`. */
  datatype Recommendation = Recommendation(action: string, estimatedTime: Option<string>)

  datatype DriftSummary = DriftSummary(score: real, driftingCount: int, totalCount: int, recommendation: Option<Recommendation>)

  datatype DashboardData = DashboardData(
    healthScore: real,
    metrics: seq<Metric>,
    alerts: seq<Alert>,
    driftSummary: DriftSummary,
    topFeatures: seq<DriftFeature>)

  /** The palette entries the views choose between (constants.ts `COLORS`
      plus the literal colours written inline in the components). */
  datatype Tone =
    | CriticalRed     // COLORS.critical
    | WarningAmber    // COLORS.warning
    | SuccessGreen    // COLORS.success
    | AccentBlue      // #3498db
    | SignalYellow    // #f1c40f
    | NeutralGrey     // #95a5a6 and the grey text classes

  /** The pages the dashboards can navigate to. */
  datatype View = DashboardView | FeatureAnalysisView | LiveView | RetrainingView
}
