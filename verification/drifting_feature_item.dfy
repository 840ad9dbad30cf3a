/** One row of the drifting-features list: the bar colour from status and
    PSI, the bar width, the number of decimals for PSI, KS and KL, and the
    decorations that depend on whether the row is clickable. */
module DriftingFeatureItem {
  import opened Common
  import opened Types
  import DriftDetection

  /** `getColor`: critical is always red; a warning is amber above 0.2 PSI
      and yellow otherwise; "good" and any other status are green. */
  function FeatureTone(f: DriftFeature): (t: Tone)
    ensures f.status == "critical" <==> t == CriticalRed
    ensures f.status == "warning" ==> (t == WarningAmber <==> f.psi > 0.2)
    ensures f.status == "warning" ==> (t == SignalYellow <==> f.psi <= 0.2)
    ensures t == SuccessGreen <==> f.status != "critical" && f.status != "warning"
  {
    if f.status == "critical" then CriticalRed
    else if f.status == "warning" then (if f.psi > 0.2 then WarningAmber else SignalYellow)
    else SuccessGreen
  }

  /** `Math.min(psi / 0.5 * 100, 100)`: at most 100, full from 0.5 PSI on,
      and twice the PSI in percent below that. */
  function BarWidth(psi: real): (w: real)
    ensures w <= 100.0
    ensures psi >= 0.5 ==> w == 100.0
    ensures psi <= 0.5 ==> w == 200.0 * psi
  {
    MinReal(psi / 0.5 * 100.0, 100.0)
  }

  /** A larger PSI never gives a narrower bar. */
  lemma BarWidthMonotone(a: real, b: real)
    requires a <= b
    ensures BarWidth(a) <= BarWidth(b)
  {
  }

  /** Decimals shown: 4 below 0.01, 2 otherwise. */
  function Decimals(x: real): (d: nat)
    ensures d == 4 <==> x < 0.01
    ensures d == 2 <==> x >= 0.01
  {
    if x < 0.01 then 4 else 2
  }

  /** The decimals of the PSI, KS and KL readouts. The row reads `ks` and
      `kl` unconditionally, so they must be present. */
  function ReadoutDecimals(f: DriftFeature): (d: (nat, nat, nat))
    requires f.ks.Some? && f.kl.Some?
    ensures d.0 == Decimals(f.psi) && d.1 == Decimals(f.ks.value) && d.2 == Decimals(f.kl.value)
    ensures d.0 == 4 <==> f.psi < 0.01
  {
    (Decimals(f.psi), Decimals(f.ks.value), Decimals(f.kl.value))
  }

  /** The readout as rendered: `None` when `ks` or `kl` is missing, where
      `undefined < 0.01` is false and `undefined.toFixed(2)` throws, so the
      row, and with it the page, fails to render. */
  function RenderedReadout(f: DriftFeature): (r: Option<(nat, nat, nat)>)
    ensures r.None? <==> f.ks.None? || f.kl.None?
    ensures r.Some? ==> r.value == ReadoutDecimals(f)
  {
    if f.ks.Some? && f.kl.Some? then Some(ReadoutDecimals(f)) else None
  }

  /** The readout with the KS and KL parts shown only when present: it
      always renders, agrees with `RenderedReadout` whenever that renders,
      and shows the PSI by the same decimals rule. */
  function GuardedReadout(f: DriftFeature): (r: (nat, Option<nat>, Option<nat>))
    ensures r.0 == Decimals(f.psi)
    ensures r.1.Some? <==> f.ks.Some?
    ensures r.2.Some? <==> f.kl.Some?
    ensures RenderedReadout(f).Some? ==> RenderedReadout(f).value == (r.0, r.1.value, r.2.value)
  {
    (Decimals(f.psi),
     if f.ks.Some? then Some(Decimals(f.ks.value)) else None,
     if f.kl.Some? then Some(Decimals(f.kl.value)) else None)
  }

  /** Hover styling, the ANALYZE badge and the chevron come together with a
      click handler; the shimmer overlay marks critical rows. */
  datatype Decorations = Decorations(hoverStyle: bool, analyzeBadge: bool, chevron: bool, shimmer: bool)

  function RowDecorations(f: DriftFeature, hasOnClick: bool): (d: Decorations)
    ensures d.hoverStyle == hasOnClick && d.analyzeBadge == hasOnClick && d.chevron == hasOnClick
    ensures d.shimmer <==> f.status == "critical"
  {
    Decorations(hasOnClick, hasOnClick, hasOnClick, f.status == "critical")
  }

  /** A stored PSI below 0.2 before rounding is at most 0.2 after it. */
  lemma Round4BelowThreshold(raw: real)
    requires raw < 0.2
    ensures DriftDetection.Round4(raw) <= 0.2
  {
    var n := DriftDetection.RoundHalfEven(raw * 10000.0);
    assert n as real <= raw * 10000.0 + 0.5 < 2000.5;
    assert n <= 2000;
  }

  /** A row the detector labels "warning" always reaches this view with a
      rounded PSI of at most 0.2, so it is drawn yellow, never amber. */
  lemma DetectorWarningIsYellow(name: string, raw: real, ks: Option<real>, kl: Option<real>)
    requires DriftDetection.StatusOf(raw) == DriftDetection.StatusWarning
    ensures FeatureTone(DriftFeature(name, DriftDetection.Round4(raw), ks, kl, DriftDetection.StatusOf(raw))) == SignalYellow
  {
    Round4BelowThreshold(raw);
  }
}
