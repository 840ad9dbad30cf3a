/** The historical-trends page: the 90-day mock series with its clamped
    performance metrics, the PSI heatmap cells, the date-range button
    cycle, the compare toggle, and the CSV text built for export. The
    `Math.random()` draws are parameters; number-to-text formatting is a
    parameter of the CSV serialiser. */
module HistoricalTrends {
  import opened Common
  import opened Types
  import DriftDetection

  const Days: nat := 90

  // ---------------------------------------------------------------------
  // generateTrendData

  /** The slow loss of quality after day 45: none up to index 45, then 0.2
      per day, so never more than 8.8 within the series. */
  function Degradation(i: nat): (d: real)
    ensures i <= 45 ==> d == 0.0
    ensures i > 45 ==> d == 0.2 * (i - 45) as real
    ensures i < Days ==> 0.0 <= d <= 8.8
  {
    if i > 45 then (i - 45) as real * 0.2 else 0.0
  }

  /** The effect of the simulated retraining: none up to index 80, then 0.5
      per day, so never more than 4.5 within the series. */
  function Recovery(i: nat): (r: real)
    ensures i <= 80 ==> r == 0.0
    ensures i > 80 ==> r == 0.5 * (i - 80) as real
    ensures i < Days ==> 0.0 <= r <= 4.5
  {
    if i > 80 then (i - 80) as real * 0.5 else 0.0
  }

  /** The eleven `Math.random()` draws made for one day, in source order. */
  datatype TrendDraws = TrendDraws(
    accuracy: real, precision: real, recall: real, f1: real,
    incomePsi: real, agePsi: real, scorePsi: real,
    missing: real, mismatch: real, outrange: real, duplicates: real)
  {
    predicate Valid() {
      && 0.0 <= accuracy < 1.0 && 0.0 <= precision < 1.0 && 0.0 <= recall < 1.0 && 0.0 <= f1 < 1.0
      && 0.0 <= incomePsi < 1.0 && 0.0 <= agePsi < 1.0 && 0.0 <= scorePsi < 1.0
      && 0.0 <= missing < 1.0 && 0.0 <= mismatch < 1.0 && 0.0 <= outrange < 1.0 && 0.0 <= duplicates < 1.0
    }
  }

  datatype TrendPoint = TrendPoint(
    day: string, index: nat,
    accuracy: real, precision: real, recall: real, f1: real,
    incomePsi: real, agePsi: real, scorePsi: real,
    missing: real, mismatch: real, outrange: real, duplicates: real)

  /** "Day " followed by the 1-based day number. */
  function DayLabel(i: nat): string {
    "Day " + NatToString(i + 1)
  }

  /** One day of the series. Whatever the noise, the four performance
      metrics stay inside their clamps, and income PSI grows by 0.004 a day
      plus less than 0.02 of noise. */
  function TrendPointAt(i: nat, r: TrendDraws): (p: TrendPoint)
    requires r.Valid()
    ensures p.index == i && p.day == DayLabel(i)
    ensures 75.0 <= p.accuracy <= 98.0
    ensures 70.0 <= p.precision <= 98.0
    ensures 65.0 <= p.recall <= 98.0
    ensures 70.0 <= p.f1 <= 98.0
    ensures 0.05 + i as real * 0.004 <= p.incomePsi < 0.07 + i as real * 0.004
    ensures 0.02 + i as real * 0.002 <= p.agePsi < 0.03 + i as real * 0.002
    ensures i > 60 ==> p.outrange >= 2.0
  {
    var degradation := Degradation(i);
    var recovery := Recovery(i);
    TrendPoint(
      DayLabel(i), i,
      Clamp(96.0 - degradation + recovery + (r.accuracy - 0.5), 75.0, 98.0),
      Clamp(95.0 - degradation * 0.8 + recovery * 0.8 + (r.precision - 0.5), 70.0, 98.0),
      Clamp(94.0 - degradation * 1.2 + recovery * 1.1 + (r.recall - 0.5), 65.0, 98.0),
      Clamp(95.0 - degradation + recovery + (r.f1 - 0.5), 70.0, 98.0),
      0.05 + i as real * 0.004 + r.incomePsi * 0.02,
      0.02 + i as real * 0.002 + r.agePsi * 0.01,
      0.03 + i as real * 0.0015 + r.scorePsi * 0.01,
      0.2 + r.missing * 0.3,
      0.05 + r.mismatch * 0.1,
      0.5 + (if i > 60 then 1.5 else 0.0) + r.outrange * 0.5,
      0.1 + r.duplicates * 0.05)
  }

  /** `Array.from({ length: 90 }, ...)`: point `i` is day `i + 1`. */
  function GenerateTrendData(draws: seq<TrendDraws>): (data: seq<TrendPoint>)
    requires |draws| == Days && forall i :: 0 <= i < |draws| ==> draws[i].Valid()
    ensures |data| == Days
    ensures forall i :: 0 <= i < |data| ==> data[i] == TrendPointAt(i, draws[i])
  {
    seq(Days, i requires 0 <= i < Days => TrendPointAt(i, draws[i]))
  }

  /** Every generated point has index `i`, label "Day i+1", and in-range metrics. */
  lemma GeneratedSeriesInRange(draws: seq<TrendDraws>, i: nat)
    requires |draws| == Days && forall k :: 0 <= k < |draws| ==> draws[k].Valid()
    requires i < Days
    ensures var p := GenerateTrendData(draws)[i];
      && p.index == i && p.day == DayLabel(i)
      && 75.0 <= p.accuracy <= 98.0 && 70.0 <= p.precision <= 98.0
      && 65.0 <= p.recall <= 98.0 && 70.0 <= p.f1 <= 98.0
  {
    assert draws[i].Valid();
  }

  // ---------------------------------------------------------------------
  // HeatmapSquare

  /** Bucket colour of a heatmap cell. */
  function HeatmapTone(v: real): (t: Tone)
    ensures t == SuccessGreen <==> v < 0.1
    ensures t == WarningAmber <==> 0.1 <= v < 0.2
    ensures t == CriticalRed <==> v >= 0.2
  {
    if v < 0.1 then SuccessGreen else if v < 0.2 then WarningAmber else CriticalRed
  }

  /** `Math.min(0.3 + v * 1.5, 1)`: never above 1. */
  function HeatmapOpacity(v: real): (o: real)
    ensures o <= 1.0
    ensures 0.3 + v * 1.5 <= 1.0 ==> o == 0.3 + v * 1.5
    ensures 0.3 + v * 1.5 >= 1.0 ==> o == 1.0
  {
    MinReal(0.3 + v * 1.5, 1.0)
  }

  /** The heatmap buckets are the detector's status thresholds. */
  lemma HeatmapMatchesDetector(v: real)
    ensures HeatmapTone(v) == SuccessGreen <==> DriftDetection.StatusOf(v) == DriftDetection.StatusGood
    ensures HeatmapTone(v) == WarningAmber <==> DriftDetection.StatusOf(v) == DriftDetection.StatusWarning
    ensures HeatmapTone(v) == CriticalRed <==> DriftDetection.StatusOf(v) == DriftDetection.StatusCritical
  {
  }

  /** One cell per day of income PSI, with its colour and opacity. */
  function HeatmapCells(data: seq<TrendPoint>): (cells: seq<(Tone, real)>)
    ensures |cells| == |data|
    ensures forall i :: 0 <= i < |cells| ==> cells[i].1 <= 1.0
  {
    seq(|data|, i requires 0 <= i < |data| => (HeatmapTone(data[i].incomePsi), HeatmapOpacity(data[i].incomePsi)))
  }

  /** Whatever the noise, the first heatmap cell is green and the last is red. */
  lemma HeatmapStartsGreenEndsRed(draws: seq<TrendDraws>)
    requires |draws| == Days && forall k :: 0 <= k < |draws| ==> draws[k].Valid()
    ensures var cells := HeatmapCells(GenerateTrendData(draws));
      cells[0].0 == SuccessGreen && cells[Days - 1].0 == CriticalRed
  {
    var data := GenerateTrendData(draws);
    assert data[0] == TrendPointAt(0, draws[0]);
    assert data[Days - 1] == TrendPointAt(Days - 1, draws[Days - 1]);
  }

  // ---------------------------------------------------------------------
  // Date range and compare mode

  const Last90: string := "Last 90 Days"
  const Last30: string := "Last 30 Days"
  const Last60: string := "Last 60 Days"

  /** `handleDateRangeClick`. */
  function NextDateRange(range: string): (next: string)
    ensures next in {Last90, Last30, Last60}
    ensures range == Last90 ==> next == Last30
    ensures range == Last30 ==> next == Last60
    ensures range !in {Last90, Last30} ==> next == Last90
  {
    if range == Last90 then Last30 else if range == Last30 then Last60 else Last90
  }

  /** Three clicks return to the starting label, and from any label at all
      three clicks after the first click land where the first click did. */
  lemma ThreeClicksCycle(range: string)
    ensures range in {Last90, Last30, Last60} ==> NextDateRange(NextDateRange(NextDateRange(range))) == range
    ensures NextDateRange(NextDateRange(NextDateRange(NextDateRange(range)))) == NextDateRange(range)
  {
    assert Last90 != Last30 && Last90 != Last60 && Last30 != Last60 by {
      assert Last90[5] == '9' && Last30[5] == '3' && Last60[5] == '6';
    }
  }

  class HistoricalTrendsPage {
    var dateRange: string
    var isCompareMode: bool

    constructor ()
      ensures dateRange == Last90 && !isCompareMode
    {
      dateRange := Last90;
      isCompareMode := false;
    }

    method ClickDateRange()
      modifies this
      ensures dateRange == NextDateRange(old(dateRange)) && isCompareMode == old(isCompareMode)
    {
      if dateRange == Last90 {
        dateRange := Last30;
      } else if dateRange == Last30 {
        dateRange := Last60;
      } else {
        dateRange := Last90;
      }
    }

    method ToggleCompare()
      modifies this
      ensures isCompareMode == !old(isCompareMode) && dateRange == old(dateRange)
    {
      isCompareMode := !isCompareMode;
    }
  }

  // ---------------------------------------------------------------------
  // CSV export

  /** `s.split(c)` for a one-character separator: the pieces between
      separators, always at least one. */
  function Split(s: string, c: char): (parts: seq<string>)
    ensures |parts| >= 1
    decreases |s|
  {
    if |s| == 0 then [""]
    else
      var rest := Split(s[1..], c);
      if s[0] == c then [""] + rest else [[s[0]] + rest[0]] + rest[1..]
  }

  /** A separator-free prefix joins the first piece of what follows it. */
  lemma {:induction false} SplitFreePrefix(p: string, tail: string, c: char)
    requires c !in p
    ensures Split(p + tail, c) == [p + Split(tail, c)[0]] + Split(tail, c)[1..]
    decreases |p|
  {
    if |p| == 0 {
      assert p + tail == tail && p + Split(tail, c)[0] == Split(tail, c)[0];
      assert Split(tail, c) == [Split(tail, c)[0]] + Split(tail, c)[1..];
    } else {
      assert p[0] in p;
      assert (p + tail)[0] == p[0] != c;
      assert (p + tail)[1..] == p[1..] + tail;
      assert c !in p[1..] by {
        forall k | 0 <= k < |p[1..]| ensures p[1..][k] != c { assert p[1..][k] == p[k + 1]; }
      }
      SplitFreePrefix(p[1..], tail, c);
      assert [p[0]] + (p[1..] + Split(tail, c)[0]) == p + Split(tail, c)[0];
    }
  }

  /** Splitting a join on its one-character separator gives the parts back,
      provided no part contains the separator. */
  lemma {:induction false} SplitJoin(parts: seq<string>, c: char)
    requires |parts| >= 1
    requires forall k :: 0 <= k < |parts| ==> c !in parts[k]
    ensures Split(Join(parts, [c]), c) == parts
    decreases |parts|
  {
    if |parts| == 1 {
      SplitFreePrefix(parts[0], "", c);
      assert parts[0] + "" == parts[0];
    } else {
      var tail := Join(parts[1..], [c]);
      assert Join(parts, [c]) == parts[0] + ([c] + tail);
      SplitFreePrefix(parts[0], [c] + tail, c);
      assert ([c] + tail)[0] == c && ([c] + tail)[1..] == tail;
      assert Split([c] + tail, c) == [""] + Split(tail, c);
      assert parts[0] + "" == parts[0];
      SplitJoin(parts[1..], c);
      assert parts == [parts[0]] + parts[1..];
    }
  }

  const CsvHeaders: seq<string> := ["Day", "Accuracy", "Precision", "Recall", "Income_PSI", "Age_PSI"]

  /** The six fields of a data row, numbers rendered by `fmt`. */
  function CsvFields(d: TrendPoint, fmt: real -> string): seq<string> {
    [d.day, fmt(d.accuracy), fmt(d.precision), fmt(d.recall), fmt(d.incomePsi), fmt(d.agePsi)]
  }

  function CsvRow(d: TrendPoint, fmt: real -> string): string {
    Join(CsvFields(d, fmt), ",")
  }

  function CsvLines(data: seq<TrendPoint>, fmt: real -> string): (lines: seq<string>)
    ensures |lines| == |data| + 1
    ensures lines[0] == Join(CsvHeaders, ",")
    ensures forall i :: 0 <= i < |data| ==> lines[i + 1] == CsvRow(data[i], fmt)
  {
    [Join(CsvHeaders, ",")] + seq(|data|, i requires 0 <= i < |data| => CsvRow(data[i], fmt))
  }

  /** `[headers.join(','), ...rows].join('\n')`. */
  function CsvContent(data: seq<TrendPoint>, fmt: real -> string): string {
    Join(CsvLines(data, fmt), "\n")
  }

  /** Formatted numbers carry neither separator. */
  ghost predicate SeparatorFree(fmt: real -> string) {
    forall x :: ',' !in fmt(x) && '\n' !in fmt(x)
  }

  lemma DayLabelSeparatorFree(i: nat)
    ensures ',' !in DayLabel(i) && '\n' !in DayLabel(i)
  {
    var digits := NatToString(i + 1);
    assert forall k :: 0 <= k < |digits| ==> digits[k] != ',' && digits[k] != '\n';
  }

  lemma JoinAvoids(parts: seq<string>, sep: string, c: char)
    requires c !in sep && forall k :: 0 <= k < |parts| ==> c !in parts[k]
    ensures c !in Join(parts, sep)
    decreases |parts|
  {
    if |parts| > 1 {
      JoinAvoids(parts[1..], sep, c);
    }
  }

  /** The exported text reads back line by line: the header, then one row
      per point in data order; and each row reads back as its six fields. */
  lemma CsvReadsBack(data: seq<TrendPoint>, fmt: real -> string)
    requires SeparatorFree(fmt)
    requires forall i :: 0 <= i < |data| ==> data[i].day == DayLabel(data[i].index)
    ensures Split(CsvContent(data, fmt), '\n') == CsvLines(data, fmt)
    ensures forall i :: 0 <= i < |data| ==> Split(CsvLines(data, fmt)[i + 1], ',') == CsvFields(data[i], fmt)
    ensures Split(CsvLines(data, fmt)[0], ',') == CsvHeaders
  {
    var lines := CsvLines(data, fmt);
    forall i | 0 <= i < |data|
      ensures forall k :: 0 <= k < 6 ==> ',' !in CsvFields(data[i], fmt)[k] && '\n' !in CsvFields(data[i], fmt)[k]
    {
      DayLabelSeparatorFree(data[i].index);
    }
    forall i | 0 <= i < |data|
      ensures Split(lines[i + 1], ',') == CsvFields(data[i], fmt)
      ensures '\n' !in lines[i + 1]
    {
      SplitJoin(CsvFields(data[i], fmt), ',');
      JoinAvoids(CsvFields(data[i], fmt), ",", '\n');
    }
    assert forall k :: 0 <= k < |CsvHeaders| ==> ',' !in CsvHeaders[k] && '\n' !in CsvHeaders[k];
    SplitJoin(CsvHeaders, ',');
    JoinAvoids(CsvHeaders, ",", '\n');
    SplitJoin(lines, '\n');
  }

  /** The export of the 90-day series has 91 lines of six fields each. */
  lemma ExportShape(draws: seq<TrendDraws>, fmt: real -> string)
    requires |draws| == Days && forall k :: 0 <= k < |draws| ==> draws[k].Valid()
    requires SeparatorFree(fmt)
    ensures |Split(CsvContent(GenerateTrendData(draws), fmt), '\n')| == 91
    ensures forall j :: 0 <= j < 91 ==> |Split(Split(CsvContent(GenerateTrendData(draws), fmt), '\n')[j], ',')| == 6
  {
    var data := GenerateTrendData(draws);
    CsvReadsBack(data, fmt);
  }
}
