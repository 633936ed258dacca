/** The table-driven synthesis of the atmosphere estimator
    (atmospherecontroller.js): sky colours (`calculateColors`, `adjustColor`),
    fog (`calculateFog`) and light (`calculateLight`).

    Periods and seasons arrive as the strings `getTimePeriod` and
    `getSeason` return, and every table is looked up by that string, with
    the source's fallback for a string the table does not hold. */
module Visuals {
  import opened JsValues
  import opened Periods
  import opened Solar

  // ---------------------------------------------------------------------------
  // Colours
  // ---------------------------------------------------------------------------

  /** The four colours of a scene, as CSS colour strings. */
  datatype Palette = Palette(sky: string, fog: string, ambient: string, horizon: string)

  /** The colours each period paints. */
  function PeriodPalette(p: Period): Palette
  {
    match p
    case Night => Palette("#0a1929", "rgba(15, 25, 45, 0.7)", "#1a2a3a", "#1c2e4a")
    case AstronomicalTwilight => Palette("#1a2a3f", "rgba(30, 40, 60, 0.6)", "#2a3a4a", "#2c3e5a")
    case NauticalTwilight => Palette("#2a3a5f", "rgba(50, 60, 80, 0.5)", "#3a4a5a", "#3c4e6a")
    case CivilTwilight => Palette("#4a5a7f", "rgba(100, 110, 130, 0.4)", "#5a6a7a", "#5c6e8a")
    case Sunrise => Palette("#ff6b35", "rgba(255, 150, 100, 0.3)", "#ffb88c", "#ffd4b8")
    case GoldenHour => Palette("#ffd700", "rgba(255, 215, 150, 0.25)", "#ffe14d", "#fff0c8")
    case Morning => Palette("#87ceeb", "rgba(200, 220, 255, 0.2)", "#b8e6ff", "#d8f0ff")
    case Midday => Palette("#4da6ff", "rgba(180, 210, 255, 0.15)", "#99ccff", "#c8e6ff")
    case Noon => Palette("#1e90ff", "rgba(160, 200, 255, 0.1)", "#6bb6ff", "#a8d8ff")
  }

  /** The colours `calculateColors` starts from, before a period's palette
      is copied over them. */
  const BasePalette := Palette("#87CEEB", "rgba(255, 255, 255, 0.4)", "#ffffff", "#E0F6FF")

  /** The palette `Object.assign(colors, periodColors[period] || periodColors.midday)`
      leaves: a period's own palette; for an inherited property name the
      found value has no own enumerable properties, so nothing is copied and
      the base colours stay; for any other string midday's. */
  function PaletteFor(period: string): (r: Palette)
    ensures forall p :: period == Label(p) ==> r == PeriodPalette(p)
    ensures IsInheritedName(period) ==> r == BasePalette
    ensures (forall p :: period != Label(p)) && !IsInheritedName(period) ==> r == PeriodPalette(Midday)
  {
    NoLabelIsInherited();
    PeriodLabelRoundTrip();
    if IsInheritedName(period) then BasePalette
    else match PeriodOfLabel(period)
      case Some(p) => PeriodPalette(p)
      case None => PeriodPalette(Midday)
  }

  /** No period is named like a property every object inherits. */
  lemma NoLabelIsInherited()
    ensures forall p :: !IsInheritedName(Label(p))
  {
    forall p ensures !IsInheritedName(Label(p)) {
      assert Label(p)[0] in "nacsgm" && Label(p) != "constructor";
    }
  }

  /** No two periods share a sky colour: the sky alone tells the period. */
  lemma SkyIdentifiesPeriod(p: Period, q: Period)
    ensures PeriodPalette(p).sky == PeriodPalette(q).sky <==> p == q
  {
  }

  /** A colour adjustment: saturation and brightness factors and an optional warmth. */
  datatype Adjustment = Adjustment(saturation: real, brightness: real, warmth: Option<real>)

  /** `seasonalAdjustments[season]`. */
  function SeasonalAdjustment(season: string): Option<Adjustment>
  {
    match SeasonOfLabel(season)
    case Some(Winter) => Some(Adjustment(0.8, 0.9, None))
    case Some(Spring) => Some(Adjustment(1.1, 1.05, None))
    case Some(Summer) => Some(Adjustment(1.2, 1.1, None))
    case Some(Autumn) => Some(Adjustment(1.15, 0.95, Some(1.2)))
    case None => None
  }

  /** `adjustColor(color, adjustment)`: a placeholder that leaves the colour as it is. */
  function AdjustColor(color: string, adjustment: Adjustment): string
  {
    color
  }

  /** `calculateColors(sunPos, period, season, elevationEffect)`: the period's
      palette, then a seasonal adjustment of sky and ambient (except at
      night) and an elevation adjustment of the sky above 1. The adjustments
      leave every colour unchanged, so the result is the period's palette. */
  function CalculateColors(sun: SunPosition, period: string, season: string, elevationEffect: real): (r: Palette)
    ensures r == PaletteFor(period)
  {
    var base := PaletteFor(period);
    var seasonal :=
      match SeasonalAdjustment(season)
      case Some(adjustment) =>
        if period != "night" then
          base.(sky := AdjustColor(base.sky, adjustment), ambient := AdjustColor(base.ambient, adjustment))
        else base
      case None => base;
    if elevationEffect > 1.0 then
      seasonal.(sky := AdjustColor(seasonal.sky, Adjustment(elevationEffect, elevationEffect * 0.5, None)))
    else seasonal
  }

  /** Neither the season nor the elevation changes the colours. */
  lemma ColorsIgnoreSeasonAndElevation(sun: SunPosition, period: string, s1: string, s2: string, e1: real, e2: real)
    ensures CalculateColors(sun, period, s1, e1) == CalculateColors(sun, period, s2, e2)
  {
  }

  // ---------------------------------------------------------------------------
  // Fog
  // ---------------------------------------------------------------------------

  /** The fog settings handed to the map. */
  datatype Fog = Fog(
    rangeNear: real, rangeFar: real, color: string, horizonBlend: real,
    highColor: string, spaceColor: string, starIntensity: real)

  /** What a period's fog profile overrides: range, horizon blend, stars. */
  datatype FogProfile = FogProfile(near: real, far: real, horizonBlend: real, starIntensity: real)

  /** `fogProfiles[period]`: the twilights have no profile of their own. */
  function FogProfileOf(period: string): Option<FogProfile>
  {
    match PeriodOfLabel(period)
    case Some(Night) => Some(FogProfile(0.5, 12.0, 0.05, 0.8))
    case Some(Sunrise) => Some(FogProfile(0.3, 8.0, 0.15, 0.2))
    case Some(GoldenHour) => Some(FogProfile(0.4, 9.0, 0.12, 0.0))
    case Some(Morning) => Some(FogProfile(0.5, 10.0, 0.1, 0.0))
    case Some(Midday) => Some(FogProfile(0.8, 12.0, 0.08, 0.0))
    case Some(Noon) => Some(FogProfile(1.0, 15.0, 0.05, 0.0))
    case _ => None
  }

  /** What the base fog carries before a profile is copied over it. */
  const BaseFogProfile := FogProfile(0.5, 10.0, 0.1, 0.0)

  /** The profile `Object.assign(baseFog, fogProfiles[period] || fogProfiles.midday)`
      leaves: the period's own; for an inherited property name nothing is
      copied and the base settings stay; for any other string midday's. */
  function FogProfileFor(period: string): (f: FogProfile)
    ensures FogProfileOf(period).Some? ==> f == FogProfileOf(period).value
    ensures IsInheritedName(period) ==> f == BaseFogProfile
    ensures FogProfileOf(period).None? && !IsInheritedName(period) ==> f == FogProfileOf("midday").value
  {
    NoLabelIsInherited();
    if IsInheritedName(period) then BaseFogProfile
    else match FogProfileOf(period)
      case Some(f) => f
      case None => FogProfile(0.8, 12.0, 0.08, 0.0)
  }

  /** `calculateFog(sunPos, period, elevationEffect)`: the base fog with the
      period's profile laid over it, both range ends scaled by the effect. */
  function CalculateFog(sun: SunPosition, period: string, elevationEffect: real): (r: Fog)
    ensures r.rangeNear == FogProfileFor(period).near * elevationEffect
    ensures r.rangeFar == FogProfileFor(period).far * elevationEffect
    ensures r.color == "white" && r.highColor == "#87CEEB" && r.spaceColor == "#000000"
    ensures r.starIntensity != 0.0 <==> period == "night" || period == "sunrise"
    ensures period == "night" ==> r.starIntensity == 0.8
    ensures period == "sunrise" ==> r.starIntensity == 0.2
  {
    var profile := FogProfileFor(period);
    Fog(profile.near * elevationEffect, profile.far * elevationEffect, "white", profile.horizonBlend,
        "#87CEEB", "#000000", profile.starIntensity)
  }

  /** Every twilight is fogged like midday. */
  lemma TwilightsFogLikeMidday(sun: SunPosition, p: Period, e: real)
    requires p == AstronomicalTwilight || p == NauticalTwilight || p == CivilTwilight
    ensures CalculateFog(sun, Label(p), e) == CalculateFog(sun, "midday", e)
  {
  }

  /** Clearer air pushes the fog back: a larger effect never brings either
      end of the fog range closer. */
  lemma FogRecedesWithElevation(sun: SunPosition, period: string, e1: real, e2: real)
    requires e1 <= e2
    ensures CalculateFog(sun, period, e1).rangeNear <= CalculateFog(sun, period, e2).rangeNear
    ensures CalculateFog(sun, period, e1).rangeFar <= CalculateFog(sun, period, e2).rangeFar
  {
    var f := FogProfileFor(period);
    assert f.near >= 0.0 && f.far >= 0.0;
    assert f.near * e1 <= f.near * e2;
    assert f.far * e1 <= f.far * e2;
  }

  // ---------------------------------------------------------------------------
  // Light
  // ---------------------------------------------------------------------------

  /** The light settings handed to the map; the position is radial distance,
      azimuth and altitude. */
  datatype Light = Light(anchor: string, color: string, intensity: real, position: (real, real, real))

  /** `seasonIntensity[season] || 1`, for a season label or a string that
      names no property of the table (an inherited name would make the
      product NaN, which a real cannot hold). */
  function SeasonIntensity(season: string): (f: real)
    ensures 0.8 <= f <= 1.1
  {
    match SeasonOfLabel(season)
    case Some(Winter) => 0.8
    case Some(Spring) => 0.95
    case Some(Summer) => 1.1
    case Some(Autumn) => 0.9
    case None => 1.0
  }

  /** The light the sun gives at an altitude before the seasonal factor:
      none at 10 degrees below the horizon, full at 60 above. */
  function BaseIntensity(altitude: real): (r: real)
    ensures 0.0 <= r <= 1.0
    ensures altitude <= -10.0 ==> r == 0.0
    ensures altitude >= 60.0 ==> r == 1.0
  {
    Max(0.0, Min(1.0, (altitude + 10.0) / 70.0))
  }

  /** `calculateLight(sunPos, period, season)`. */
  function CalculateLight(sun: SunPosition, period: string, season: string): (r: Light)
    ensures 0.0 <= r.intensity <= 1.1
    ensures r.intensity <= SeasonIntensity(season)
    ensures r.color == "#ffcc66" <==> period == "goldenHour" || period == "sunrise"
    ensures r.color != "#ffcc66" ==> r.color == "#ffffff"
    ensures r.position == (1.15, sun.azimuth, sun.altitude)
    ensures r.anchor == "viewport"
  {
    var intensity := BaseIntensity(sun.altitude) * SeasonIntensity(season);
    assert intensity <= 1.0 * SeasonIntensity(season);
    Light("viewport", if period == "goldenHour" || period == "sunrise" then "#ffcc66" else "#ffffff",
          intensity, (1.15, sun.azimuth, sun.altitude))
  }

  /** With the sun at or below civil dusk the light is at most 4/70 of full
      strength times the largest seasonal factor. */
  lemma DuskLightIsDim(sun: SunPosition, period: string, season: string)
    requires sun.altitude <= -6.0
    ensures CalculateLight(sun, period, season).intensity <= 4.0 / 70.0 * 1.1
  {
    var f := SeasonIntensity(season);
    var b := BaseIntensity(sun.altitude);
    assert b <= 4.0 / 70.0;
    assert b * f <= (4.0 / 70.0) * f;
  }

  /** A higher sun never gives less light, in the same season. */
  lemma LightGrowsWithAltitude(a: SunPosition, b: SunPosition, period: string, season: string)
    requires a.altitude <= b.altitude
    ensures CalculateLight(a, period, season).intensity <= CalculateLight(b, period, season).intensity
  {
    var f := SeasonIntensity(season);
    var x, y := BaseIntensity(a.altitude), BaseIntensity(b.altitude);
    assert x <= y;
    assert x * f <= y * f;
  }
}
