/** `getAtmosphericConditions` (atmospherecontroller.js): from a track to a
    description of the light and air at the moment and place it was
    recorded. The track's timestamp is turned into a `Date` object before
    the sun is placed, so the sun model reads the local clock fields; the
    UTC-text branch of the sun model is never taken on this path. */
module Atmosphere {
  import opened JsValues
  import opened Periods
  import opened Solar
  import opened Elevation
  import opened Visuals

  /** What the estimator reads from a track: the fields of
      `new Date(track.timestamp)` in UTC and local time, the parsed latitude
      and longitude, and the mile field. */
  datatype Track = Track(utc: Clock, local: Clock, lat: real, lng: real, mile: MileField)

  /** The estimator's result. */
  datatype Conditions = Conditions(
    sunPosition: SunPosition, period: string, season: string, elevationEffect: real,
    colors: Palette, fog: Fog, light: Light)

  /** `getAtmosphericConditions(track)`. */
  function GetAtmosphericConditions(sin: real -> real, track: Track): (c: Conditions)
    requires ValidClock(track.utc)
    ensures c.sunPosition == SunAt(sin, track.local.month, track.lat, TimeDecimal(track.local))
    ensures PeriodOfLabel(c.period) == Some(GetTimePeriod(c.sunPosition.altitude))
    ensures SeasonOfLabel(c.season) == Some(GetSeason(track.local.month, track.local.day))
    ensures 1.0 <= c.elevationEffect <= 1.5
    ensures c.colors == PeriodPalette(GetTimePeriod(c.sunPosition.altitude))
    ensures 0.0 <= c.light.intensity <= 1.1
  {
    var date := DateObject(track.utc, track.local);
    var sunPos := CalculateSunPosition(sin, date, track.lat, track.lng);
    var elevationEffect := ElevationEffect(track.mile);
    var period := Label(GetTimePeriod(sunPos.altitude));
    var season := SeasonLabel(GetSeason(track.local.month, track.local.day));
    PeriodLabelRoundTrip();
    SeasonLabelRoundTrip(GetSeason(track.local.month, track.local.day));
    Conditions(sunPos, period, season, elevationEffect,
               CalculateColors(sunPos, period, season, elevationEffect),
               CalculateFog(sunPos, period, elevationEffect),
               CalculateLight(sunPos, period, season))
  }

  /** The sun model only ever yields -6 or -20 at night and a non-negative
      altitude by day, so the estimator never reports nautical or
      astronomical twilight: after dark it is night or civil twilight. */
  lemma NoDeepTwilight(sin: real -> real, track: Track)
    requires ValidClock(track.utc)
    requires SineNonNegativeOnHalfTurn(sin)
    ensures var p := PeriodOfLabel(GetAtmosphericConditions(sin, track).period).value;
            p != NauticalTwilight && p != AstronomicalTwilight
    ensures var c := GetAtmosphericConditions(sin, track);
            c.sunPosition.altitude < 0.0 ==> c.period == "night" || c.period == "civilTwilight"
  {
    var c := GetAtmosphericConditions(sin, track);
    var alt := c.sunPosition.altitude;
    assert alt == CivilDusk || alt == DeepNight || alt >= 0.0;
  }

  /** Outside the daylight window the light is weak: at most 4/70 of full
      strength times the seasonal factor, and nothing in deep night. */
  lemma NightLightIsDim(sin: real -> real, track: Track)
    requires ValidClock(track.utc)
    requires !IsDaytime(sin, track.local.month, track.lat, TimeDecimal(track.local))
    ensures GetAtmosphericConditions(sin, track).light.intensity <= 4.0 / 70.0 * 1.1
  {
    var c := GetAtmosphericConditions(sin, track);
    assert c.light == CalculateLight(c.sunPosition, c.period, c.season);
    DuskLightIsDim(c.sunPosition, c.period, c.season);
  }
}
