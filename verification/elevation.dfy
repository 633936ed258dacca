/** `getElevationEffect` (atmospherecontroller.js): a rough elevation profile
    of the Pacific Crest Trail by mile, turned into a factor for how clear
    the air is. Unlike the playlist, this reads the mile with a plain
    `parseFloat`, so an estimated mile `~n` counts as no mile at all. */
module Elevation {
  import opened JsValues

  /** Elevation (feet) assumed when the mile is missing or unreadable. */
  const DefaultElevation: int := 2500

  /** The profile: Campo, the desert and San Bernardinos, the Sierra Nevada,
      Northern California, the Oregon Cascades, the Washington Cascades, the
      Canadian border. */
  function ElevationAtMile(m: real): (feet: int)
    ensures DefaultElevation <= feet <= 8000
    ensures feet == 8000 <==> 700.0 <= m < 1100.0
  {
    if m < 100.0 then 2500
    else if m < 700.0 then 5500
    else if m < 1100.0 then 8000
    else if m < 1700.0 then 6500
    else if m < 2100.0 then 5000
    else if m < 2650.0 then 4500
    else 3800
  }

  /** The elevation `getElevationEffect` settles on for a mile field. */
  function ElevationOf(mile: MileField): (feet: int)
    ensures DefaultElevation <= feet <= 8000
    ensures !Truthy(mile) || ParseMile(mile).NaN? ==> feet == DefaultElevation
  {
    if Truthy(mile) && ParseMile(mile).Finite? then ElevationAtMile(ParseMile(mile).value)
    else DefaultElevation
  }

  /** `getElevationEffect(mile)`: 1 at 2500 ft, 0.1 more per 1000 ft,
      clamped to [0.8, 1.5]. No profile elevation lies below 2500 ft, so the
      effect never drops under 1; only the Sierra Nevada reaches the cap. */
  function ElevationEffect(mile: MileField): (r: real)
    ensures 0.8 <= r <= 1.5
    ensures 1.0 <= r
    ensures !Truthy(mile) || ParseMile(mile).NaN? ==> r == 1.0
    ensures r == 1.5 <==>
      Truthy(mile) && ParseMile(mile).Finite? && 700.0 <= ParseMile(mile).value < 1100.0
  {
    var elevation := ElevationOf(mile);
    var effect := 1.0 + (elevation - 2500) as real / 10000.0;
    Min(Max(effect, 0.8), 1.5)
  }

  /** An estimated mile `~n` gets the default effect, wherever it lies. */
  lemma EstimatedMileHasDefaultEffect(s: string)
    ensures ElevationEffect(Text("~" + s)) == 1.0
  {
    ParseFloatOfTildeIsNaN(s);
  }

  /** Effects along the profile, section by section. */
  lemma EffectTable()
    ensures ElevationEffect(Numeric(50.0)) == 1.0
    ensures ElevationEffect(Numeric(500.0)) == 1.3
    ensures ElevationEffect(Numeric(900.0)) == 1.5
    ensures ElevationEffect(Numeric(1500.0)) == 1.4
    ensures ElevationEffect(Numeric(2000.0)) == 1.25
    ensures ElevationEffect(Numeric(2400.0)) == 1.2
    ensures ElevationEffect(Numeric(2655.0)) == 1.13
  {
  }
}
