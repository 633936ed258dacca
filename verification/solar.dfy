/** The sun model of the atmosphere estimator (atmospherecontroller.js):
    the Pacific wall-clock reading of a timestamp, the day length and the
    highest altitude of the sun by month and latitude, and the sun's
    altitude and azimuth at a time of day.

    `Math.sin` is a parameter `sin`: nothing is assumed about its values
    except where a contract says so, and the clamps hold whatever it returns. */
module Solar {
  import opened JsValues

  /** `Math.PI`. */
  const Pi: real := 3.141592653589793

  /** `toRad(deg)`. */
  function ToRad(deg: real): real
  {
    deg * Pi / 180.0
  }

  // ---------------------------------------------------------------------------
  // Wall-clock reading
  // ---------------------------------------------------------------------------

  /** The calendar fields a `Date` reports: month 1-12 (`getMonth() + 1`),
      day of the month, hour 0-23 and minute 0-59. */
  datatype Clock = Clock(month: int, day: int, hour: int, minute: int)

  predicate ValidClock(c: Clock)
  {
    1 <= c.month <= 12 && 1 <= c.day <= 31 && 0 <= c.hour < 24 && 0 <= c.minute < 60
  }

  /** What `calculateSunPosition` is given: a string (the ISO text of a
      timestamp) or a `Date` object. The date parser is not part of this
      model: both carry the fields the parsed `Date` reports in UTC and in
      the local time zone. */
  datatype DateInput =
    | Text(text: string, utc: Clock, local: Clock)
    | DateObject(utc: Clock, local: Clock)

  /** `typeof date === 'string' && date.endsWith('Z')`. */
  predicate IsUtcText(d: DateInput)
  {
    d.Text? && |d.text| > 0 && d.text[|d.text| - 1] == 'Z'
  }

  /** Hours behind UTC on the Pacific coast: daylight time (7) from March
      through November, standard time (8) otherwise. */
  function PacificOffset(month: int): (h: int)
    ensures h == 7 || h == 8
    ensures h == 7 <==> 3 <= month <= 11
  {
    if month >= 3 && month <= 11 then 7 else 8
  }

  /** The UTC branch of `calculateSunPosition`: subtract the Pacific offset
      from the UTC hour; when that goes below zero, add a day's hours and step
      the day back (without borrowing from the month, so day 0 can occur). */
  function PacificClock(utc: Clock): (c: Clock)
    requires 0 <= utc.hour < 24
    ensures 0 <= c.hour < 24
    ensures c.hour == (utc.hour - PacificOffset(utc.month)) % 24
    ensures c.day == utc.day - 1 <==> utc.hour < PacificOffset(utc.month)
    ensures c.day == utc.day || c.day == utc.day - 1
    ensures c.month == utc.month && c.minute == utc.minute
  {
    var hours := utc.hour - PacificOffset(utc.month);
    if hours < 0 then Clock(utc.month, utc.day - 1, hours + 24, utc.minute)
    else Clock(utc.month, utc.day, hours, utc.minute)
  }

  /** The fields `calculateSunPosition` works from: the Pacific reading of a
      `Z` string, the local fields of anything else. */
  function WallClock(d: DateInput): (c: Clock)
    requires 0 <= d.utc.hour < 24
    ensures IsUtcText(d) || ValidClock(d.local) ==> 0 <= c.hour < 24
    ensures IsUtcText(d) ==> (c.hour + PacificOffset(d.utc.month)) % 24 == d.utc.hour
    ensures IsUtcText(d) ==> c.month == d.utc.month && c.minute == d.utc.minute
    ensures IsUtcText(d) ==> (c.day == d.utc.day - 1 <==> d.utc.hour < PacificOffset(d.utc.month))
    ensures !IsUtcText(d) ==> c == d.local
  {
    if IsUtcText(d) then PacificClock(d.utc) else d.local
  }

  /** Adding the offset back recovers the UTC hour, modulo a day. */
  lemma PacificClockRoundTrip(utc: Clock)
    requires 0 <= utc.hour < 24
    ensures (PacificClock(utc).hour + PacificOffset(utc.month)) % 24 == utc.hour
  {
  }

  /** `hours + minutes / 60`. */
  function TimeDecimal(c: Clock): real
  {
    c.hour as real + c.minute as real / 60.0
  }

  // ---------------------------------------------------------------------------
  // Day length and highest altitude
  // ---------------------------------------------------------------------------

  /** `(month - 3) * PI / 6`: the phase of the seasonal swing, peaking in June. */
  function SeasonalFactor(sin: real -> real, month: int): real
  {
    sin((month - 3) as real * Pi / 6.0)
  }

  /** 0 on the Tropic of Cancer, 1 on the Arctic Circle. */
  function LatitudeFactor(lat: real): (f: real)
    ensures f >= 0.0
  {
    Abs(lat - 23.5) / 66.5
  }

  /** The day length before clamping: longer in May-August, shorter in
      November-February, a smaller swing in the months between. */
  function RawDayLength(sin: real -> real, month: int, lat: real): real
  {
    var seasonal := SeasonalFactor(sin, month);
    var latitude := LatitudeFactor(lat);
    if month >= 5 && month <= 8 then 12.0 + 4.0 * latitude * seasonal
    else if month >= 11 || month <= 2 then 12.0 - 3.0 * latitude * Abs(seasonal)
    else 12.0 + 2.0 * latitude * seasonal
  }

  /** `getDayLength(month, lat)`: hours of daylight, clamped to [9, 16]. A
      winter day never exceeds twelve hours, and a summer day at a month
      whose seasonal sine is non-negative never falls short of twelve. */
  function DayLength(sin: real -> real, month: int, lat: real): (r: real)
    ensures 9.0 <= r <= 16.0
    ensures 9.0 < RawDayLength(sin, month, lat) < 16.0 ==> r == RawDayLength(sin, month, lat)
    ensures (month >= 11 || month <= 2) ==> r <= 12.0
    ensures 5 <= month <= 8 && SeasonalFactor(sin, month) >= 0.0 ==> r >= 12.0
  {
    WinterIsShort(sin, month, lat);
    Max(9.0, Min(16.0, RawDayLength(sin, month, lat)))
  }

  lemma WinterIsShort(sin: real -> real, month: int, lat: real)
    ensures (month >= 11 || month <= 2) ==> RawDayLength(sin, month, lat) <= 12.0
    ensures 5 <= month <= 8 && SeasonalFactor(sin, month) >= 0.0 ==> RawDayLength(sin, month, lat) >= 12.0
  {
    var seasonal := SeasonalFactor(sin, month);
    var latitude := LatitudeFactor(lat);
    assert latitude * Abs(seasonal) >= 0.0;
    if seasonal >= 0.0 {
      assert latitude * seasonal >= 0.0;
    }
  }

  /** On the Tropic of Cancer every day lasts twelve hours. */
  lemma TropicDayIsTwelveHours(sin: real -> real, month: int)
    ensures DayLength(sin, month, 23.5) == 12.0
  {
  }

  /** The declination approximation of `getMaxSolarAltitude`, with
      `month * 30` standing in for the day of the year. */
  function Declination(sin: real -> real, month: int): real
  {
    var dayOfYear := month * 30;
    23.45 * sin(ToRad((360.0 * (284 + dayOfYear) as real) / 365.0))
  }

  /** `getMaxSolarAltitude(month, lat)`: `90 - |lat - declination|` clamped
      to [20, 90]. The upper clamp never binds, so the result is that value
      or the floor of 20. */
  function MaxSolarAltitude(sin: real -> real, month: int, lat: real): (r: real)
    ensures 20.0 <= r <= 90.0
    ensures r == 20.0 || r == 90.0 - Abs(lat - Declination(sin, month))
    ensures r >= 90.0 - Abs(lat - Declination(sin, month))
  {
    var maxAltitude := 90.0 - Abs(lat - Declination(sin, month));
    Min(90.0, Max(20.0, maxAltitude))
  }

  // ---------------------------------------------------------------------------
  // Sun position
  // ---------------------------------------------------------------------------

  /** Altitude and azimuth, in degrees. */
  datatype SunPosition = SunPosition(altitude: real, azimuth: real)

  /** The altitude the night branch gives within an hour of sunset or sunrise. */
  const CivilDusk: real := -6.0
  /** The altitude the night branch gives otherwise. */
  const DeepNight: real := -20.0

  function Sunrise(sin: real -> real, month: int, lat: real): real
  {
    12.0 - DayLength(sin, month, lat) / 2.0
  }

  function Sunset(sin: real -> real, month: int, lat: real): real
  {
    12.0 + DayLength(sin, month, lat) / 2.0
  }

  /** The daylight window: from sunrise to sunset, ends included. */
  predicate IsDaytime(sin: real -> real, month: int, lat: real, t: real)
  {
    Sunrise(sin, month, lat) <= t <= Sunset(sin, month, lat)
  }

  /** `sin` is non-negative on [0, PI], as the real sine is. */
  ghost predicate SineNonNegativeOnHalfTurn(sin: real -> real)
  {
    forall x :: 0.0 <= x <= Pi ==> sin(x) >= 0.0
  }

  /** The sun position at decimal hour `t` in month `month` at latitude `lat`. */
  function SunAt(sin: real -> real, month: int, lat: real, t: real): (p: SunPosition)
    ensures !IsDaytime(sin, month, lat, t) ==>
      p.azimuth == 0.0 && (p.altitude == CivilDusk || p.altitude == DeepNight)
    ensures !IsDaytime(sin, month, lat, t) ==>
      (p.altitude == CivilDusk <==>
         0.0 < t - Sunset(sin, month, lat) < 1.0 || 0.0 < Sunrise(sin, month, lat) - t < 1.0)
    ensures IsDaytime(sin, month, lat, t) ==> 90.0 <= p.azimuth <= 270.0
    ensures IsDaytime(sin, month, lat, t) && t == 12.0 ==> p.azimuth == 180.0
    ensures IsDaytime(sin, month, lat, t) && SineNonNegativeOnHalfTurn(sin) ==> p.altitude >= 0.0
  {
    var sunrise := Sunrise(sin, month, lat);
    var sunset := Sunset(sin, month, lat);
    if t < sunrise || t > sunset then SunPosition(NightAltitude(t, sunrise, sunset), 0.0)
    else DaySun(sin, month, lat, t)
  }

  /** The night branch: civil twilight within an hour after sunset or
      before sunrise, deep night otherwise. */
  function NightAltitude(t: real, sunrise: real, sunset: real): (a: real)
    ensures a == CivilDusk || a == DeepNight
    ensures a == CivilDusk <==> 0.0 < t - sunset < 1.0 || 0.0 < sunrise - t < 1.0
  {
    var hoursAfterSunset := t - sunset;
    var hoursBeforeSunrise := sunrise - t;
    if hoursAfterSunset > 0.0 && hoursAfterSunset < 1.0 then CivilDusk
    else if hoursBeforeSunrise > 0.0 && hoursBeforeSunrise < 1.0 then CivilDusk
    else DeepNight
  }

  /** The day branch: the sun climbs along `maxAltitude * sin(progress * PI)`
      while the azimuth turns from east (90) through south (180) to west (270). */
  function DaySun(sin: real -> real, month: int, lat: real, t: real): (p: SunPosition)
    requires IsDaytime(sin, month, lat, t)
    ensures 90.0 <= p.azimuth <= 270.0
    ensures t == 12.0 ==> p.azimuth == 180.0
    ensures SineNonNegativeOnHalfTurn(sin) ==> p.altitude >= 0.0
  {
    var progress := DayProgress(sin, month, lat, t);
    var maxAltitude := MaxSolarAltitude(sin, month, lat);
    ProgressScales(progress);
    AltitudeAboveHorizon(sin, maxAltitude, progress * Pi);
    SunPosition(maxAltitude * sin(progress * Pi), 90.0 + progress * 180.0)
  }

  lemma AltitudeAboveHorizon(sin: real -> real, maxAltitude: real, x: real)
    requires maxAltitude >= 0.0 && 0.0 <= x <= Pi
    ensures SineNonNegativeOnHalfTurn(sin) ==> maxAltitude * sin(x) >= 0.0
  {
  }

  /** How far through the daylight window `t` lies, from 0 at sunrise to 1 at sunset. */
  function DayProgress(sin: real -> real, month: int, lat: real, t: real): (f: real)
    requires IsDaytime(sin, month, lat, t)
    ensures 0.0 <= f <= 1.0
    ensures t == 12.0 ==> f == 0.5
  {
    var dayLength := DayLength(sin, month, lat);
    var sunrise := 12.0 - dayLength / 2.0;
    FractionOfWindow(t - sunrise, dayLength);
    (t - sunrise) / dayLength
  }

  lemma FractionOfWindow(a: real, length: real)
    requires 0.0 < length && 0.0 <= a <= length
    ensures 0.0 <= a / length <= 1.0
    ensures a == length / 2.0 ==> a / length == 0.5
  {
    var q := a / length;
    assert q * length == a;
    if q > 1.0 {
      assert q * length > length;
    }
    if a == length / 2.0 {
      var d := q - 0.5;
      assert d * length == 0.0;
      MulPositive(d, length);
    }
  }

  lemma MulPositive(d: real, length: real)
    requires length > 0.0 && d * length == 0.0
    ensures d == 0.0
  {
  }

  lemma ProgressScales(f: real)
    requires 0.0 <= f <= 1.0
    ensures 0.0 <= f * Pi <= Pi
  {
  }

  /** `calculateSunPosition(date, lat, lng)`; the longitude is not used. */
  function CalculateSunPosition(sin: real -> real, date: DateInput, lat: real, lng: real): (p: SunPosition)
    requires 0 <= date.utc.hour < 24
    ensures p == SunAt(sin, WallClock(date).month, lat, TimeDecimal(WallClock(date)))
    ensures var c := WallClock(date);
            !IsDaytime(sin, c.month, lat, TimeDecimal(c)) ==>
              p.azimuth == 0.0 && (p.altitude == CivilDusk || p.altitude == DeepNight)
    ensures var c := WallClock(date);
            IsDaytime(sin, c.month, lat, TimeDecimal(c)) ==> 90.0 <= p.azimuth <= 270.0
    ensures var c := WallClock(date);
            IsDaytime(sin, c.month, lat, TimeDecimal(c)) && c.hour == 12 && c.minute == 0 ==> p.azimuth == 180.0
    ensures IsUtcText(date) ==> p == SunAt(sin, date.utc.month, lat, TimeDecimal(PacificClock(date.utc)))
  {
    var c := WallClock(date);
    SunAt(sin, c.month, lat, TimeDecimal(c))
  }

  /** A `Z` string and a `Date` object whose local clock reads the same
      Pacific time place the sun identically: the UTC branch is the same
      computation on the converted clock. */
  lemma UtcTextMatchesPacificDate(sin: real -> real, text: string, utc: Clock, local: Clock, lat: real, lng: real)
    requires 0 <= utc.hour < 24
    requires |text| > 0 && text[|text| - 1] == 'Z'
    ensures CalculateSunPosition(sin, DateInput.Text(text, utc, local), lat, lng)
         == CalculateSunPosition(sin, DateObject(utc, PacificClock(utc)), lat, lng)
  {
  }

  /** Through the daylight window the azimuth sweeps from east to west: a
      later time of day never has the sun further east. */
  lemma AzimuthSweepsWest(sin: real -> real, month: int, lat: real, t1: real, t2: real)
    requires IsDaytime(sin, month, lat, t1) && IsDaytime(sin, month, lat, t2)
    requires t1 <= t2
    ensures SunAt(sin, month, lat, t1).azimuth <= SunAt(sin, month, lat, t2).azimuth
  {
    var L := DayLength(sin, month, lat);
    var s := Sunrise(sin, month, lat);
    DivisionIsMonotone(t1 - s, t2 - s, L);
    var p1, p2 := DayProgress(sin, month, lat, t1), DayProgress(sin, month, lat, t2);
    assert p1 <= p2;
    assert SunAt(sin, month, lat, t1).azimuth == 90.0 + p1 * 180.0;
    assert SunAt(sin, month, lat, t2).azimuth == 90.0 + p2 * 180.0;
  }

  lemma DivisionIsMonotone(a: real, b: real, length: real)
    requires 0.0 < length && a <= b
    ensures a / length <= b / length
  {
    var qa, qb := a / length, b / length;
    assert qa * length == a && qb * length == b;
    assert (qb - qa) * length == b - a;
  }

  /** The daylight window is symmetric about noon: sunrise is in the east
      (azimuth 90) and sunset in the west (270). */
  lemma SunriseEastSunsetWest(sin: real -> real, month: int, lat: real)
    ensures SunAt(sin, month, lat, Sunrise(sin, month, lat)).azimuth == 90.0
    ensures SunAt(sin, month, lat, Sunset(sin, month, lat)).azimuth == 270.0
  {
    var length := DayLength(sin, month, lat);
    assert Sunset(sin, month, lat) - Sunrise(sin, month, lat) == length;
    assert length / length == 1.0;
    assert DayProgress(sin, month, lat, Sunset(sin, month, lat)) == 1.0;
  }
}
