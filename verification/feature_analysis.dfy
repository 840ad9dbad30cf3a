/** The feature-analysis page: one fetch of `/api/feature-details/<name>`
    per feature name, a spinner guarded by `loading || !data`, the
    statistics table with its change column, and the PSI badge colour. */
module FeatureAnalysis {
  import opened Common
  import opened Types

  datatype Stats = Stats(mean: real, median: real, std: real, min: real, max: real)

  /** The fields of the details body the page reads (the chart series is
      passed on to a chart component and not modelled). */
  datatype FeatureDetails = FeatureDetails(psi: real, status: string, baseline: Stats, production: Stats)

  datatype DetailsState = DetailsState(data: Option<FeatureDetails>, loading: bool)

  const DetailsInitial: DetailsState := DetailsState(None, true)

  /** A fetch settling. A parsed body is stored whatever the HTTP status (the
      page does not check `res.ok`); a rejection only ends loading and
      leaves the data as it was. */
  function SettleDetails(s: DetailsState, o: FetchOutcome<FeatureDetails>): (r: DetailsState)
    ensures !r.loading
    ensures o.Ok? ==> r.data == Some(o.body)
    ensures o.Fail? ==> r.data == s.data
  {
    match o
    case Ok(body) => DetailsState(Some(body), false)
    case Fail => DetailsState(s.data, false)
  }

  datatype DetailsScreen = DetailsSpinner | DetailsContent(details: FeatureDetails)

  /** `if (loading || !data)` shows the spinner, otherwise the page. */
  function RenderDetails(s: DetailsState): (v: DetailsScreen)
    ensures v.DetailsSpinner? <==> s.loading || s.data.None?
    ensures v.DetailsContent? ==> s.data == Some(v.details)
  {
    if s.loading || s.data.None? then DetailsSpinner else DetailsContent(s.data.value)
  }

  function SettleAllDetails(s: DetailsState, outcomes: seq<FetchOutcome<FeatureDetails>>): DetailsState
    decreases |outcomes|
  {
    if |outcomes| == 0 then s else SettleAllDetails(SettleDetails(s, outcomes[0]), outcomes[1..])
  }

  /** If every fetch so far has failed, the page never leaves the spinner:
      loading is over but there is still no data, and nothing offers a retry. */
  lemma {:induction false} FailuresSpinForever(outcomes: seq<FetchOutcome<FeatureDetails>>)
    requires forall k :: 0 <= k < |outcomes| ==> outcomes[k].Fail?
    ensures SettleAllDetails(DetailsInitial, outcomes).data.None?
    ensures RenderDetails(SettleAllDetails(DetailsInitial, outcomes)) == DetailsSpinner
  {
    FailuresKeepData(DetailsInitial, outcomes);
  }

  lemma {:induction false} FailuresKeepData(s: DetailsState, outcomes: seq<FetchOutcome<FeatureDetails>>)
    requires forall k :: 0 <= k < |outcomes| ==> outcomes[k].Fail?
    ensures SettleAllDetails(s, outcomes).data == s.data
    decreases |outcomes|
  {
    if |outcomes| > 0 {
      assert outcomes[0].Fail?;
      FailuresKeepData(SettleDetails(s, outcomes[0]), outcomes[1..]);
    }
  }

  /** The page instance. `fetchesIssued` counts the requests sent. */
  class FeatureAnalysisPage {
    var featureName: string
    var data: Option<FeatureDetails>
    var loading: bool
    var fetchesIssued: nat

    function State(): DetailsState
      reads this
    {
      DetailsState(data, loading)
    }

    /** Mount: initial state and the first fetch for `name`. */
    constructor (name: string)
      ensures featureName == name && State() == DetailsInitial && fetchesIssued == 1
    {
      featureName := name;
      data, loading := None, true;
      fetchesIssued := 1;
    }

    /** A new `featureName` prop: the effect runs again, sending one more
        fetch, exactly when the name differs. Loading is not set back to
        true, so the old page stays up until the answer arrives. */
    method SetFeatureName(name: string)
      modifies this
      ensures featureName == name && State() == old(State())
      ensures fetchesIssued == old(fetchesIssued) + (if name != old(featureName) then 1 else 0)
    {
      if name != featureName {
        fetchesIssued := fetchesIssued + 1;
      }
      featureName := name;
    }

    method Resolve(o: FetchOutcome<FeatureDetails>)
      modifies this
      ensures State() == SettleDetails(old(State()), o)
      ensures featureName == old(featureName) && fetchesIssued == old(fetchesIssued)
    {
      match o {
        case Ok(body) =>
          data := Some(body);
          loading := false;
        case Fail =>
          loading := false;
      }
    }
  }

  // ---------------------------------------------------------------------
  // Statistics table

  /** What `parseInt(x.toFixed(0))` gives back: an integer, which is the
      negative zero -0 when `x` lies strictly between -0.5 and 0 (`toFixed`
      writes "-0" there, and `parseInt("-0")` keeps the sign). */
  datatype ParsedInt = ParsedInt(value: int, negativeZero: bool)

  /** `x.toFixed(0)` read back by `parseInt`: the nearest integer, halves
      rounded away from zero, with the sign of a negative value kept on a
      result of zero. */
  function ToFixed0(x: real): (n: ParsedInt)
    ensures x - 0.5 <= n.value as real <= x + 0.5
    ensures n.value as real - x == 0.5 ==> x > 0.0
    ensures x - n.value as real == 0.5 ==> x < 0.0
    ensures n.negativeZero <==> -0.5 < x < 0.0
    ensures n.negativeZero ==> n.value == 0
  {
    if x >= 0.0 then ParsedInt((x + 0.5).Floor, false)
    else ParsedInt(-((-x + 0.5).Floor), -x + 0.5 < 1.0)
  }

  datatype StatRow = StatRow(metric: string, training: ParsedInt, production: ParsedInt, isBad: bool)

  const StatNames: seq<string> := ["Mean", "Median", "Std Dev", "Min", "Max"]

  /** The k-th statistic, in the order of `StatNames`. */
  function StatField(s: Stats, k: nat): real
    requires k < 5
  {
    if k == 0 then s.mean else if k == 1 then s.median else if k == 2 then s.std
    else if k == 3 then s.min else s.max
  }

  /** The five rows, one per statistic in the order Mean, Median, Std Dev,
      Min, Max, each holding both rounded values; only the Min row is
      marked not bad. */
  function StatsTable(baseline: Stats, production: Stats): (rows: seq<StatRow>)
    ensures |rows| == 5
    ensures forall k :: 0 <= k < 5 ==>
              && rows[k].metric == StatNames[k]
              && rows[k].training == ToFixed0(StatField(baseline, k))
              && rows[k].production == ToFixed0(StatField(production, k))
              && (rows[k].isBad <==> k != 3)
  {
    [ StatRow("Mean", ToFixed0(baseline.mean), ToFixed0(production.mean), true),
      StatRow("Median", ToFixed0(baseline.median), ToFixed0(production.median), true),
      StatRow("Std Dev", ToFixed0(baseline.std), ToFixed0(production.std), true),
      StatRow("Min", ToFixed0(baseline.min), ToFixed0(production.min), false),
      StatRow("Max", ToFixed0(baseline.max), ToFixed0(production.max), true) ]
  }

  /** A JavaScript number as far as the change column can produce one. */
  datatype JsNumber = Finite(v: real) | PosInfinity | NegInfinity | NotANumber

  predicate IsPositive(n: JsNumber) {
    (n.Finite? && n.v > 0.0) || n.PosInfinity?
  }

  lemma QuotientSign(num: real, den: real)
    requires den != 0.0
    ensures num / den * 100.0 > 0.0 <==> (den > 0.0 && num > 0.0) || (den < 0.0 && num < 0.0)
  {
    var q := num / den;
    assert q * den == num;
  }

  /** `(production - training) / training * 100` on the parsed values. A
      zero training value divides by zero: NaN when the production value is
      zero too, otherwise an infinity whose sign is the production value's
      sign, flipped when the training value is -0. */
  function Change(training: ParsedInt, production: ParsedInt): (c: JsNumber)
    ensures c.Finite? <==> training.value != 0
    ensures c.NotANumber? <==> training.value == 0 && production.value == 0
    ensures training.value != 0 ==>
              c.v == (production.value - training.value) as real / training.value as real * 100.0
    ensures training.value > 0 ==> (IsPositive(c) <==> production.value > training.value)
    ensures training.value < 0 ==> (IsPositive(c) <==> production.value < training.value)
    ensures training.value == 0 && !training.negativeZero ==> (IsPositive(c) <==> production.value > 0)
    ensures training.value == 0 && training.negativeZero ==> (IsPositive(c) <==> production.value < 0)
  {
    if training.value != 0 then
      QuotientSign((production.value - training.value) as real, training.value as real);
      Finite((production.value - training.value) as real / training.value as real * 100.0)
    else if production.value == 0 then NotANumber
    else if (production.value > 0) != training.negativeZero then PosInfinity
    else NegInfinity
  }

  /** The '+' sign is written exactly for a positive change. */
  function SignPrefix(c: JsNumber): (s: string)
    ensures s == "+" <==> IsPositive(c)
    ensures s == "" <==> !IsPositive(c)
  {
    if IsPositive(c) then "+" else ""
  }

  /** The change column of a row, and the colour of that column. */
  function ChangeCell(row: StatRow): (cell: (string, JsNumber, Tone))
    ensures cell.1 == Change(row.training, row.production)
    ensures cell.0 == "+" <==> IsPositive(cell.1)
    ensures cell.2 == CriticalRed <==> row.isBad
    ensures cell.2 == SuccessGreen <==> !row.isBad
  {
    var c := Change(row.training, row.production);
    (SignPrefix(c), c, if row.isBad then CriticalRed else SuccessGreen)
  }

  /** A training statistic just below zero rounds to -0, and a rise in
      production then shows as "-Infinity%" without a '+' sign; the same
      rise from just above zero shows as "+Infinity%". */
  lemma NegativeZeroTrainingFlipsSign()
    ensures var below := StatRow("Min", ToFixed0(-0.3), ToFixed0(5.0), false);
      && ChangeCell(below).1 == NegInfinity && ChangeCell(below).0 == ""
    ensures var above := StatRow("Min", ToFixed0(0.3), ToFixed0(5.0), false);
      && ChangeCell(above).1 == PosInfinity && ChangeCell(above).0 == "+"
  {
  }

  /** The header badge: red above 0.25, amber otherwise. */
  function PsiBadgeTone(psi: real): (t: Tone)
    ensures t == CriticalRed <==> psi > 0.25
    ensures t == WarningAmber <==> psi <= 0.25
  {
    if psi > 0.25 then CriticalRed else WarningAmber
  }
}
