/** The map's starting zoom (config.js, `getDefaultZoom`).

    The screen size is read from `window`, which is not part of this model:
    the screen diagonal and the viewport diagonal (both in pixels, already
    through `Math.sqrt`) and the browser facts are inputs here.

    With trustworthy screen data the zoom is interpolated between two
    measured references, a 27" monitor (diagonal 2203 px, zoom 4.95) and a
    13" laptop (3037 px, zoom 4.4), and extrapolated beyond them with the
    same slope: lower zoom for larger screens, floored at 4.0. Below the
    monitor reference the source's comment asks for a higher zoom, capped at
    5.5, but the formula as written adds the negative slope times a positive
    distance, so smaller screens get a LOWER zoom and the cap never applies.
    Both the formula as written (`DefaultZoomAsWritten`) and the corrected
    one (`DefaultZoom`) are modelled. */
module Zoom {
  import opened JsValues

  const MonitorDiagonal: real := 2203.0
  const MonitorZoom: real := 4.95
  const LaptopDiagonal: real := 3037.0
  const LaptopZoom: real := 4.4
  const MaxZoom: real := 5.5
  const MinZoom: real := 4.0

  /** The slope as the source computes it: zoom change per pixel of diagonal,
      negative since the larger screen has the smaller zoom. */
  const Slope: real := (MonitorZoom - LaptopZoom) / (MonitorDiagonal - LaptopDiagonal)

  /** What the browser reports: brand flags and the screen size. */
  datatype Screen = Screen(isBrave: bool, isFirefox: bool, isTor: bool, width: int, height: int)

  /** `hasUnreliableScreenData`: privacy browsers and the common spoofed sizes. */
  predicate HasUnreliableScreenData(s: Screen)
  {
    s.isBrave || s.isTor || (s.isFirefox && s.width == 1366 && s.height == 768)
    || s.width == 1024 || s.height == 768
  }

  lemma SpoofedSizesAreUnreliable(s: Screen)
    ensures s.width == 1024 ==> HasUnreliableScreenData(s)
    ensures s.height == 768 ==> HasUnreliableScreenData(s)
    ensures !s.isBrave && !s.isTor && s.width != 1024 && s.height != 768 ==> !HasUnreliableScreenData(s)
  {
  }

  /** The fallback ladder over the viewport diagonal, for unreliable screens. */
  function ViewportZoom(viewportDiagonal: real): (r: real)
    ensures r in {4.2, 4.95, 4.45, 4.5, 4.8}
    ensures viewportDiagonal > 2800.0 <==> r == 4.2
    ensures 2000.0 < viewportDiagonal <= 2800.0 <==> r == 4.95
    ensures 1800.0 < viewportDiagonal <= 2000.0 <==> r == 4.45
    ensures 1400.0 < viewportDiagonal <= 1800.0 <==> r == 4.5
    ensures viewportDiagonal <= 1400.0 <==> r == 4.8
  {
    if viewportDiagonal > 2800.0 then 4.2
    else if viewportDiagonal > 2000.0 then 4.95
    else if viewportDiagonal > 1800.0 then 4.45
    else if viewportDiagonal > 1400.0 then 4.5
    else 4.8
  }

  /** The linear piece between the two references. */
  function Interpolate(d: real): (r: real)
  {
    var ratio := (d - MonitorDiagonal) / (LaptopDiagonal - MonitorDiagonal);
    MonitorZoom + ratio * (LaptopZoom - MonitorZoom)
  }

  /** The extrapolation above the laptop reference. */
  function ExtrapolateLarge(d: real): real
  {
    Max(MinZoom, LaptopZoom + Slope * (d - LaptopDiagonal))
  }

  /** The extrapolation below the monitor reference, as written: the negative
      slope times a positive distance LOWERS the zoom. */
  function ExtrapolateSmallAsWritten(d: real): real
  {
    Min(MaxZoom, MonitorZoom + Slope * (MonitorDiagonal - d))
  }

  /** The extrapolation below the monitor reference as its comment describes
      it: the zoom rises as the screen shrinks, up to the 5.5 cap. */
  function ExtrapolateSmall(d: real): real
  {
    Min(MaxZoom, MonitorZoom - Slope * (MonitorDiagonal - d))
  }

  /** The reliable branch of `getDefaultZoom` exactly as written. */
  function ReliableZoomAsWritten(d: real): (r: real)
    ensures d <= MonitorDiagonal ==> r <= MonitorZoom
  {
    if d <= MonitorDiagonal then ExtrapolateSmallAsWritten(d)
    else if d >= LaptopDiagonal then ExtrapolateLarge(d)
    else Interpolate(d)
  }

  /** The reliable branch with the small-screen extrapolation corrected. */
  function ReliableZoom(d: real): (r: real)
    ensures MinZoom <= r <= MaxZoom
    ensures d <= MonitorDiagonal ==> MonitorZoom <= r
    ensures d >= LaptopDiagonal ==> r <= LaptopZoom
    ensures MonitorDiagonal < d < LaptopDiagonal ==> LaptopZoom < r < MonitorZoom
  {
    if d <= MonitorDiagonal then
      SlopeTimesDistance(MonitorDiagonal - d);
      ExtrapolateSmall(d)
    else if d >= LaptopDiagonal then
      SlopeTimesDistance(d - LaptopDiagonal);
      ExtrapolateLarge(d)
    else
      InterpolationStaysBetween(d);
      Interpolate(d)
  }

  /** Strictly between the references the interpolation lies strictly
      between their zooms. */
  lemma InterpolationStaysBetween(d: real)
    requires MonitorDiagonal < d < LaptopDiagonal
    ensures LaptopZoom < Interpolate(d) < MonitorZoom
  {
    var ratio := (d - MonitorDiagonal) / (LaptopDiagonal - MonitorDiagonal);
    assert ratio * 834.0 == d - MonitorDiagonal;
    assert 0.0 < ratio < 1.0;
  }

  /** The slope is negative: going further from a reference in pixels moves
      the zoom the other way. */
  lemma SlopeTimesDistance(k: real)
    requires k >= 0.0
    ensures Slope < 0.0
    ensures Slope * k <= 0.0
  {
    assert Slope == 0.55 / -834.0;
  }

  /** Corrected `getDefaultZoom`: the small-screen extrapolation raises the
      zoom, as its comment describes. This is not the source's result below
      2203 px; `DefaultZoomAsWritten` is. */
  function DefaultZoom(s: Screen, screenDiagonal: real, viewportDiagonal: real): (r: real)
    ensures MinZoom <= r <= MaxZoom
    ensures HasUnreliableScreenData(s) ==> r == ViewportZoom(viewportDiagonal)
    ensures !HasUnreliableScreenData(s) ==> r == ReliableZoom(screenDiagonal)
  {
    if HasUnreliableScreenData(s) then ViewportZoom(viewportDiagonal)
    else ReliableZoom(screenDiagonal)
  }

  /** `getDefaultZoom` as written. No input gets more than the monitor's
      zoom 4.95: the 5.5 cap is never reached. */
  function DefaultZoomAsWritten(s: Screen, screenDiagonal: real, viewportDiagonal: real): (r: real)
    ensures r <= MonitorZoom
    ensures HasUnreliableScreenData(s) ==> r == ViewportZoom(viewportDiagonal)
    ensures !HasUnreliableScreenData(s) && screenDiagonal > MonitorDiagonal ==> MinZoom <= r < MonitorZoom
  {
    if HasUnreliableScreenData(s) then ViewportZoom(viewportDiagonal)
    else
      ReliableAgreesAboveMonitor(screenDiagonal);
      ReliableZoomAsWritten(screenDiagonal)
  }

  /** Above the monitor reference the source's formula and the corrected one
      coincide: the reversal is confined to small screens. */
  lemma ReliableAgreesAboveMonitor(d: real)
    ensures d > MonitorDiagonal ==> ReliableZoomAsWritten(d) == ReliableZoom(d)
    ensures ReliableZoomAsWritten(d) <= MonitorZoom
  {
    if d >= LaptopDiagonal {
      SlopeTimesDistance(d - LaptopDiagonal);
    } else if d > MonitorDiagonal {
      InterpolationStaysBetween(d);
    }
  }

  /** The two versions of `getDefaultZoom` differ only on reliable screen
      data at or below the monitor reference. */
  lemma DefaultZoomDiffersOnlyOnSmallScreens(s: Screen, screenDiagonal: real, viewportDiagonal: real)
    requires HasUnreliableScreenData(s) || screenDiagonal > MonitorDiagonal
    ensures DefaultZoomAsWritten(s, screenDiagonal, viewportDiagonal) == DefaultZoom(s, screenDiagonal, viewportDiagonal)
  {
    ReliableAgreesAboveMonitor(screenDiagonal);
  }

  /** The interpolation hits both references, and the extrapolations agree
      with it there: no jump at either reference. */
  lemma ReferencesAreMet()
    ensures ReliableZoom(MonitorDiagonal) == MonitorZoom
    ensures ReliableZoom(LaptopDiagonal) == LaptopZoom
    ensures Interpolate(MonitorDiagonal) == MonitorZoom
    ensures Interpolate(LaptopDiagonal) == LaptopZoom
    ensures ReliableZoomAsWritten(MonitorDiagonal) == MonitorZoom
    ensures ReliableZoomAsWritten(LaptopDiagonal) == LaptopZoom
  {
  }

  /** A larger screen never gets a larger starting zoom. */
  lemma ReliableZoomIsMonotone(a: real, b: real)
    requires a <= b
    ensures ReliableZoom(b) <= ReliableZoom(a)
  {
  }

  /** The large-screen extrapolation of the source does fall to its floor. */
  lemma LargeScreensReachTheFloor()
    ensures ReliableZoomAsWritten(4000.0) == MinZoom
    ensures ReliableZoom(4000.0) == MinZoom
  {
  }

  /** As written, a screen smaller than the monitor reference (1403 px) gets
      a LOWER zoom than the monitor itself, and a 700 px screen gets a zoom
      below the 4.0 floor the other side keeps, while the 5.5 cap can never
      apply. The corrected curve gives the small screen the higher zoom. */
  lemma SmallScreenExtrapolationIsReversed()
    ensures ReliableZoomAsWritten(1403.0) < MonitorZoom
    ensures ReliableZoomAsWritten(700.0) < MinZoom
    ensures ReliableZoomAsWritten(1403.0) < ReliableZoomAsWritten(MonitorDiagonal)
    ensures ReliableZoom(1403.0) > ReliableZoom(MonitorDiagonal)
  {
  }
}
