/** The backend drift detector: which columns get a report entry, how an
    entry's status follows from its PSI, and the guards around the PSI
    computation. The PSI arithmetic itself (histograms, logarithms) is a
    parameter: `psi(training values, production values)`. */
module DriftDetection {
  import opened Common

  /** A data-frame cell: a number or a missing value (NaN). */
  datatype Cell = Missing | Num(v: real)

  /** A data-frame column: its name, whether pandas types it as numeric,
      and its cells in row order. */
  datatype Column = Column(name: string, numeric: bool, cells: seq<Cell>)

  /** A data frame as its columns in order. */
  type Frame = seq<Column>

  /** `pd.read_csv` gives every column a distinct name. */
  predicate DistinctNames(f: Frame) {
    forall i, j :: 0 <= i < j < |f| ==> f[i].name != f[j].name
  }

  /** `.dropna().values`: the numbers of a column in order, gaps removed. */
  function DropNa(cells: seq<Cell>): (vs: seq<real>)
    ensures |vs| <= |cells|
    ensures |vs| == 0 <==> forall i :: 0 <= i < |cells| ==> cells[i] == Missing
    decreases |cells|
  {
    if |cells| == 0 then []
    else (match cells[0] case Missing => [] case Num(v) => [v]) + DropNa(cells[1..])
  }

  /** `production_df[name]` when `name in production_df.columns`. */
  function Lookup(f: Frame, name: string): (c: Option<Column>)
    ensures c.Some? <==> exists i :: 0 <= i < |f| && f[i].name == name
    ensures c.Some? ==> c.value in f && c.value.name == name
    decreases |f|
  {
    if |f| == 0 then None
    else if f[0].name == name then Some(f[0])
    else Lookup(f[1..], name)
  }

  // ---------------------------------------------------------------------
  // Status thresholds and rounding

  const StatusCritical: string := "critical"
  const StatusWarning: string := "warning"
  const StatusGood: string := "good"

  /** The status of a PSI: at least 0.2 is critical, at least 0.1 warning,
      below that good. The three cases partition the reals. */
  function StatusOf(psi: real): (s: string)
    ensures s == StatusCritical <==> psi >= 0.2
    ensures s == StatusWarning <==> 0.1 <= psi < 0.2
    ensures s == StatusGood <==> psi < 0.1
  {
    if psi >= 0.2 then StatusCritical
    else if psi >= 0.1 then StatusWarning
    else StatusGood
  }

  /** Python's `round` to an integer on an exact value: to the nearest
      integer, ties to the even one. */
  function RoundHalfEven(x: real): (n: int)
    ensures x - 0.5 <= n as real <= x + 0.5
    ensures (n as real - x == 0.5 || x - n as real == 0.5) ==> n % 2 == 0
  {
    var f := x.Floor;
    var frac := x - f as real;
    if frac < 0.5 then f
    else if frac > 0.5 then f + 1
    else if f % 2 == 0 then f
    else f + 1
  }

  /** `round(psi, 4)`: the nearest multiple of 0.0001. */
  function Round4(x: real): (r: real)
    ensures x - 0.00005 <= r <= x + 0.00005
    ensures (r * 10000.0).Floor as real == r * 10000.0
  {
    var n := RoundHalfEven(x * 10000.0);
    assert n as real / 10000.0 * 10000.0 == n as real;
    n as real / 10000.0
  }

  /** The status comes from the unrounded PSI: a value just under 0.2 is a
      warning although the PSI stored next to it reads 0.2, a critical value. */
  lemma StatusUsesUnroundedPsi()
    ensures StatusOf(0.19996) == StatusWarning
    ensures Round4(0.19996) == 0.2
    ensures StatusOf(Round4(0.19996)) == StatusCritical
  {
    assert (0.19996 * 10000.0).Floor == 1999;
    assert RoundHalfEven(0.19996 * 10000.0) == 2000;
  }

  // ---------------------------------------------------------------------
  // detect_drift

  datatype ReportEntry = ReportEntry(psi: real, status: string)

  /** The drift report: a Python dict, as its (key, value) pairs in
      insertion order. */
  type Report = seq<(string, ReportEntry)>

  type PsiFunction = (seq<real>, seq<real>) -> real

  /** A training column gets an entry when it is numeric, the production
      frame has a column of that name, and neither side is empty once
      missing values are dropped. */
  predicate Selected(c: Column, production: Frame) {
    && c.numeric
    && Lookup(production, c.name).Some?
    && |DropNa(c.cells)| > 0
    && |DropNa(Lookup(production, c.name).value.cells)| > 0
  }

  /** The PSI computed for a selected column, before rounding. */
  function RawPsi(c: Column, production: Frame, psi: PsiFunction): real
    requires Selected(c, production)
  {
    psi(DropNa(c.cells), DropNa(Lookup(production, c.name).value.cells))
  }

  /** The entry written for training column `i`. */
  function EntryAt(training: Frame, production: Frame, psi: PsiFunction, i: nat): (e: (string, ReportEntry))
    requires i < |training| && Selected(training[i], production)
    ensures e.0 == training[i].name
    ensures e.1.status == StatusOf(RawPsi(training[i], production, psi))
    ensures e.1.psi == Round4(RawPsi(training[i], production, psi))
  {
    var raw := RawPsi(training[i], production, psi);
    (training[i].name, ReportEntry(Round4(raw), StatusOf(raw)))
  }

  /** The report after the loop has visited the first `n` training columns. */
  function ReportUpTo(training: Frame, production: Frame, psi: PsiFunction, n: nat): Report
    requires n <= |training|
  {
    if n == 0 then []
    else
      ReportUpTo(training, production, psi, n - 1) +
      (if Selected(training[n - 1], production) then [EntryAt(training, production, psi, n - 1)] else [])
  }

  /** The indices of the selected columns among the first `n`, in order. */
  function SelectedUpTo(training: Frame, production: Frame, n: nat): seq<nat>
    requires n <= |training|
  {
    if n == 0 then []
    else SelectedUpTo(training, production, n - 1) + (if Selected(training[n - 1], production) then [n - 1] else [])
  }

  predicate StrictlyIncreasingNats(s: seq<nat>) {
    forall a, b :: 0 <= a < b < |s| ==> s[a] < s[b]
  }

  /** The report built from the first `n` columns has one entry per
      selected column, in column order, and nothing else. */
  lemma ReportUpToShape(training: Frame, production: Frame, psi: PsiFunction, n: nat)
    requires n <= |training|
    ensures var r, idx := ReportUpTo(training, production, psi, n), SelectedUpTo(training, production, n);
      && |r| == |idx|
      && StrictlyIncreasingNats(idx)
      && (forall k :: 0 <= k < |idx| ==> idx[k] < n && Selected(training[idx[k]], production) && r[k] == EntryAt(training, production, psi, idx[k]))
      && (forall i :: 0 <= i < n && Selected(training[i], production) ==> i in idx)
  {
    SelectedUpToSound(training, production, n);
    SelectedUpToComplete(training, production, n);
    ReportUpToEntries(training, production, psi, n);
  }

  /** The selected indices are increasing, below `n`, and really selected. */
  lemma {:induction false} SelectedUpToSound(training: Frame, production: Frame, n: nat)
    requires n <= |training|
    ensures StrictlyIncreasingNats(SelectedUpTo(training, production, n))
    ensures forall k :: 0 <= k < |SelectedUpTo(training, production, n)| ==>
      SelectedUpTo(training, production, n)[k] < n && Selected(training[SelectedUpTo(training, production, n)[k]], production)
  {
    if n > 0 {
      SelectedUpToSound(training, production, n - 1);
      var idx0 := SelectedUpTo(training, production, n - 1);
      var idx := SelectedUpTo(training, production, n);
      if Selected(training[n - 1], production) {
        assert idx == idx0 + [n - 1];
        forall a, b | 0 <= a < b < |idx| ensures idx[a] < idx[b] {
          assert idx[a] == idx0[a];
          if b < |idx0| {
            assert idx[b] == idx0[b];
          }
        }
        forall k | 0 <= k < |idx| ensures idx[k] < n && Selected(training[idx[k]], production) {
          if k < |idx0| {
            assert idx[k] == idx0[k];
          }
        }
      } else {
        assert idx == idx0;
      }
    }
  }

  /** Every selected column among the first `n` has its index listed. */
  lemma {:induction false} SelectedUpToComplete(training: Frame, production: Frame, n: nat)
    requires n <= |training|
    ensures forall i :: 0 <= i < n && Selected(training[i], production) ==> i in SelectedUpTo(training, production, n)
  {
    if n > 0 {
      SelectedUpToComplete(training, production, n - 1);
      var idx0 := SelectedUpTo(training, production, n - 1);
      var idx := SelectedUpTo(training, production, n);
      assert idx == idx0 + (if Selected(training[n - 1], production) then [n - 1] else []);
      forall i | 0 <= i < n && Selected(training[i], production) ensures i in idx {
        if i < n - 1 {
          assert i in idx0;
        } else {
          assert idx[|idx0|] == n - 1;
        }
      }
    }
  }

  /** Entry `k` of the report is the entry of the `k`-th selected column. */
  lemma {:induction false} ReportUpToEntries(training: Frame, production: Frame, psi: PsiFunction, n: nat)
    requires n <= |training|
    ensures |ReportUpTo(training, production, psi, n)| == |SelectedUpTo(training, production, n)|
    ensures forall k :: 0 <= k < |ReportUpTo(training, production, psi, n)| ==>
      var i := SelectedUpTo(training, production, n)[k];
      i < |training| && Selected(training[i], production) && ReportUpTo(training, production, psi, n)[k] == EntryAt(training, production, psi, i)
  {
    if n > 0 {
      ReportUpToEntries(training, production, psi, n - 1);
      var r0, idx0 := ReportUpTo(training, production, psi, n - 1), SelectedUpTo(training, production, n - 1);
      var r, idx := ReportUpTo(training, production, psi, n), SelectedUpTo(training, production, n);
      if Selected(training[n - 1], production) {
        assert r == r0 + [EntryAt(training, production, psi, n - 1)];
        assert idx == idx0 + [n - 1];
        forall k | 0 <= k < |r|
          ensures idx[k] < |training| && Selected(training[idx[k]], production) && r[k] == EntryAt(training, production, psi, idx[k])
        {
          if k < |r0| {
            assert r[k] == r0[k] && idx[k] == idx0[k];
          }
        }
      } else {
        assert r == r0 && idx == idx0;
      }
    }
  }

  /** `detect_drift`: loop over the training columns, skip the unselected
      ones, write one entry for each selected one. */
  method DetectDrift(training: Frame, production: Frame, psi: PsiFunction) returns (report: Report)
    ensures report == FullReport(training, production, psi)
  {
    report := [];
    var i := 0;
    while i < |training|
      invariant 0 <= i <= |training|
      invariant report == ReportUpTo(training, production, psi, i)
    {
      var col := training[i];
      if col.numeric {
        var prod := Lookup(production, col.name);
        if prod.Some? {
          var trainingValues := DropNa(col.cells);
          var productionValues := DropNa(prod.value.cells);
          if |trainingValues| != 0 && |productionValues| != 0 {
            var raw := psi(trainingValues, productionValues);
            var status := StatusCritical;
            if raw >= 0.2 {
              status := StatusCritical;
            } else if raw >= 0.1 {
              status := StatusWarning;
            } else {
              status := StatusGood;
            }
            report := report + [(col.name, ReportEntry(Round4(raw), status))];
          }
        }
      }
      i := i + 1;
    }
  }

  /** The report `detect_drift` returns. */
  function FullReport(training: Frame, production: Frame, psi: PsiFunction): Report {
    ReportUpTo(training, production, psi, |training|)
  }

  /** Every selected training column has an entry under its name. */
  lemma ReportCoversSelected(training: Frame, production: Frame, psi: PsiFunction, i: nat)
    requires i < |training| && Selected(training[i], production)
    ensures exists k :: 0 <= k < |FullReport(training, production, psi)| &&
              FullReport(training, production, psi)[k].0 == training[i].name
  {
    var r, idx := FullReport(training, production, psi), SelectedUpTo(training, production, |training|);
    ReportUpToShape(training, production, psi, |training|);
    var k :| 0 <= k < |idx| && idx[k] == i;
    assert r[k].0 == training[i].name;
  }

  /** Every entry belongs to a selected training column; its status is the
      status of that column's unrounded PSI and its PSI is that PSI rounded
      to four places. */
  lemma ReportOnlySelected(training: Frame, production: Frame, psi: PsiFunction, k: nat)
    requires k < |FullReport(training, production, psi)|
    ensures exists i :: 0 <= i < |training| && Selected(training[i], production) &&
              FullReport(training, production, psi)[k].0 == training[i].name &&
              FullReport(training, production, psi)[k].1.status == StatusOf(RawPsi(training[i], production, psi)) &&
              FullReport(training, production, psi)[k].1.psi == Round4(RawPsi(training[i], production, psi))
  {
    var r, idx := FullReport(training, production, psi), SelectedUpTo(training, production, |training|);
    ReportUpToShape(training, production, psi, |training|);
    assert r[k] == EntryAt(training, production, psi, idx[k]);
  }

  /** Every status in a report is one of the three the detector writes. */
  predicate DetectorReport(report: Report) {
    forall k :: 0 <= k < |report| ==> report[k].1.status in {StatusCritical, StatusWarning, StatusGood}
  }

  /** `detect_drift` writes only lower-case "critical", "warning" and "good". */
  lemma FullReportHasDetectorStatuses(training: Frame, production: Frame, psi: PsiFunction)
    ensures DetectorReport(FullReport(training, production, psi))
  {
    forall k | 0 <= k < |FullReport(training, production, psi)|
      ensures FullReport(training, production, psi)[k].1.status in {StatusCritical, StatusWarning, StatusGood}
    {
      ReportOnlySelected(training, production, psi, k);
    }
  }

  /** Entries follow training-column order, so with distinct column names no
      key is written twice and the dict keeps every entry. */
  lemma ReportInColumnOrder(training: Frame, production: Frame, psi: PsiFunction, a: nat, b: nat)
    requires DistinctNames(training)
    requires a < b < |FullReport(training, production, psi)|
    ensures FullReport(training, production, psi)[a].0 != FullReport(training, production, psi)[b].0
    ensures exists i, j :: 0 <= i < j < |training| &&
              FullReport(training, production, psi)[a].0 == training[i].name &&
              FullReport(training, production, psi)[b].0 == training[j].name
  {
    var r, idx := FullReport(training, production, psi), SelectedUpTo(training, production, |training|);
    ReportUpToShape(training, production, psi, |training|);
    assert idx[a] < idx[b];
    assert r[a].0 == training[idx[a]].name && r[b].0 == training[idx[b]].name;
  }

  // ---------------------------------------------------------------------
  // calculate_psi: the guards around the numerics

  datatype BucketType = Bins | Quantiles

  /** Either one of the early `return 0.0` exits, or the bucket edges the
      histograms would be computed over. */
  datatype PsiPlan = ZeroPsi | Histogram(edges: seq<real>)

  predicate StrictlyIncreasing(s: seq<real>) {
    forall a, b :: 0 <= a < b < |s| ==> s[a] < s[b]
  }

  function SeqMin(s: seq<real>): (m: real)
    requires |s| > 0
    ensures m in s && forall i :: 0 <= i < |s| ==> m <= s[i]
    decreases |s|
  {
    if |s| == 1 then s[0] else MinReal(s[0], SeqMin(s[1..]))
  }

  function SeqMax(s: seq<real>): (m: real)
    requires |s| > 0
    ensures m in s && forall i :: 0 <= i < |s| ==> s[i] <= m
    decreases |s|
  {
    if |s| == 1 then s[0] else MaxReal(s[0], SeqMax(s[1..]))
  }

  /** `np.linspace(lo, hi, n + 1)`: `n + 1` evenly spaced edges. */
  function Linspace(lo: real, hi: real, n: nat): (edges: seq<real>)
    requires lo < hi && n >= 1
    ensures |edges| == n + 1 && edges[0] == lo
    ensures StrictlyIncreasing(edges)
  {
    var step := (hi - lo) / n as real;
    assert step > 0.0 by {
      assert step * n as real == hi - lo;
    }
    var edges := seq(n + 1, i requires 0 <= i <= n => lo + i as real * step);
    forall a, b | 0 <= a < b < |edges|
      ensures edges[a] < edges[b]
    {
      assert edges[b] - edges[a] == (b - a) as real * step;
      PositiveProduct((b - a) as real, step);
    }
    edges
  }

  lemma PositiveProduct(x: real, y: real)
    requires x > 0.0 && y > 0.0
    ensures x * y > 0.0
  {
  }

  /** Inserts `x` into a strictly increasing sequence, unless present. */
  function InsertUnique(x: real, s: seq<real>): (r: seq<real>)
    requires StrictlyIncreasing(s)
    ensures StrictlyIncreasing(r)
    ensures forall y :: y in r <==> y == x || y in s
    decreases |s|
  {
    if |s| == 0 then [x]
    else if x < s[0] then [x] + s
    else if x == s[0] then s
    else
      var rest := InsertUnique(x, s[1..]);
      assert forall y :: y in rest ==> s[0] < y by {
        HeadBelowTail(s);
      }
      assert StrictlyIncreasing([s[0]] + rest) by {
        ConsIncreasing(s[0], rest);
      }
      assert s == [s[0]] + s[1..];
      [s[0]] + rest
  }

  /** In a strictly increasing sequence the head is below every later value. */
  lemma HeadBelowTail(s: seq<real>)
    requires StrictlyIncreasing(s) && |s| > 0
    ensures forall y :: y in s[1..] ==> s[0] < y
  {
    forall y | y in s[1..] ensures s[0] < y {
      var j :| 0 <= j < |s[1..]| && s[1..][j] == y;
      assert s[j + 1] == y;
    }
  }

  /** A value below every element of an increasing sequence may be put in front. */
  lemma ConsIncreasing(h: real, rest: seq<real>)
    requires StrictlyIncreasing(rest)
    requires forall y :: y in rest ==> h < y
    ensures StrictlyIncreasing([h] + rest)
  {
    var r := [h] + rest;
    forall a, b | 0 <= a < b < |r| ensures r[a] < r[b] {
      assert r[b] == rest[b - 1] && rest[b - 1] in rest;
      if a > 0 {
        assert r[a] == rest[a - 1];
      }
    }
  }

  /** `np.unique`: the distinct values, sorted ascending. */
  function Unique(s: seq<real>): (r: seq<real>)
    ensures StrictlyIncreasing(r)
    ensures forall y :: y in r <==> y in s
    ensures |s| > 0 ==> |r| > 0
    decreases |s|
  {
    if |s| == 0 then [] else InsertUnique(s[0], Unique(s[1..]))
  }

  /** The bucket edges `calculate_psi` settles on before merging
      duplicates; empty where it returns 0.0 early. In "bins" mode an empty
      input (numpy raises and the `except` returns 0.0) or a constant range
      gives 0; in "quantiles" mode an empty baseline does. `quantileEdges`
      stands for the `np.percentile` values at the `buckets + 1` breakpoints. */
  function CandidateEdges(expected: seq<real>, actual: seq<real>, buckets: nat, bucketType: BucketType,
                          quantileEdges: seq<real>): (edges: seq<real>)
    requires buckets >= 1 && |quantileEdges| == buckets + 1
    ensures bucketType == Bins && (expected == [] || actual == []) ==> edges == []
    ensures bucketType == Bins && expected != [] && actual != [] ==>
      (edges == [] <==> MinReal(SeqMin(expected), SeqMin(actual)) == MaxReal(SeqMax(expected), SeqMax(actual)))
    ensures bucketType == Bins && edges != [] ==> |edges| >= 2 && StrictlyIncreasing(edges)
    ensures bucketType == Quantiles ==> edges == if expected == [] then [] else quantileEdges
  {
    match bucketType
    case Bins =>
      if expected == [] || actual == [] then []
      else
        var lo := MinReal(SeqMin(expected), SeqMin(actual));
        var hi := MaxReal(SeqMax(expected), SeqMax(actual));
        if lo == hi then [] else Linspace(lo, hi, buckets)
    case Quantiles =>
      if expected == [] then [] else quantileEdges
  }

  /** All values of a sequence are equal exactly when it has at most one
      distinct value. */
  lemma {:induction false} UniqueSingleton(s: seq<real>)
    requires |s| > 0
    ensures |Unique(s)| < 2 <==> forall a, b :: 0 <= a < b < |s| ==> s[a] == s[b]
  {
    var u := Unique(s);
    if |u| < 2 {
      assert |u| == 1;
      forall a, b | 0 <= a < b < |s| ensures s[a] == s[b] {
        assert s[a] in u && s[b] in u;
      }
    } else {
      assert u[0] < u[1];
      assert u[0] in s && u[1] in s;
      var a :| 0 <= a < |s| && s[a] == u[0];
      var b :| 0 <= b < |s| && s[b] == u[1];
      if a < b { assert s[a] != s[b]; } else { assert s[b] != s[a]; }
    }
  }

  /** The guard structure of `calculate_psi`: duplicate edges are merged and
      fewer than two remaining edges give 0, so a histogram is only built
      over at least two strictly increasing edges. */
  function PlanPsi(expected: seq<real>, actual: seq<real>, buckets: nat, bucketType: BucketType,
                   quantileEdges: seq<real>): (p: PsiPlan)
    requires buckets >= 1 && |quantileEdges| == buckets + 1
    ensures p.Histogram? ==> |p.edges| >= 2 && StrictlyIncreasing(p.edges)
    ensures bucketType == Bins && (expected == [] || actual == []) ==> p == ZeroPsi
    ensures bucketType == Bins && expected != [] && actual != [] ==>
      (p == ZeroPsi <==> MinReal(SeqMin(expected), SeqMin(actual)) == MaxReal(SeqMax(expected), SeqMax(actual)))
    ensures bucketType == Quantiles && expected == [] ==> p == ZeroPsi
    ensures bucketType == Quantiles && expected != [] ==>
      (p == ZeroPsi <==> forall a, b :: 0 <= a < b < |quantileEdges| ==> quantileEdges[a] == quantileEdges[b])
  {
    var edges := CandidateEdges(expected, actual, buckets, bucketType, quantileEdges);
    var bins := Unique(edges);
    assert edges != [] ==> (|bins| < 2 <==> forall a, b :: 0 <= a < b < |edges| ==> edges[a] == edges[b]) by {
      if edges != [] {
        UniqueSingleton(edges);
      }
    }
    if |bins| < 2 then ZeroPsi else Histogram(bins)
  }

  const ZeroProportionFloor: real := 0.0001

  /** `np.where(p == 0, 0.0001, p)`: every bucket proportion used in the
      ratio and the logarithm is strictly positive; non-zero proportions
      pass through unchanged. */
  function FloorZeros(ps: seq<real>): (r: seq<real>)
    requires forall i :: 0 <= i < |ps| ==> ps[i] >= 0.0
    ensures |r| == |ps|
    ensures forall i :: 0 <= i < |r| ==> r[i] > 0.0
    ensures forall i :: 0 <= i < |r| && ps[i] != 0.0 ==> r[i] == ps[i]
  {
    seq(|ps|, i requires 0 <= i < |ps| => if ps[i] == 0.0 then ZeroProportionFloor else ps[i])
  }
}
