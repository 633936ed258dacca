/** The two classifiers of the atmosphere estimator (atmospherecontroller.js):
    the time-of-day period from the sun's altitude (`getTimePeriod`) and the
    season from the calendar date (`getSeason`). Both return strings in the
    source; here they return datatypes, with `Label` giving the string. */
module Periods {
  import opened JsValues

  /** The nine time-of-day periods, from darkest to brightest. */
  datatype Period =
    | Night | AstronomicalTwilight | NauticalTwilight | CivilTwilight
    | Sunrise | GoldenHour | Morning | Midday | Noon

  /** Position in the darkest-to-brightest order. */
  function Rank(p: Period): (k: nat)
    ensures k < 9
  {
    match p
    case Night => 0
    case AstronomicalTwilight => 1
    case NauticalTwilight => 2
    case CivilTwilight => 3
    case Sunrise => 4
    case GoldenHour => 5
    case Morning => 6
    case Midday => 7
    case Noon => 8
  }

  /** The altitude (degrees) at which a period begins; Night has no lower end. */
  function LowerBound(p: Period): Option<real>
  {
    match p
    case Night => None
    case AstronomicalTwilight => Some(-18.0)
    case NauticalTwilight => Some(-12.0)
    case CivilTwilight => Some(-6.0)
    case Sunrise => Some(-0.5)
    case GoldenHour => Some(6.0)
    case Morning => Some(15.0)
    case Midday => Some(30.0)
    case Noon => Some(60.0)
  }

  /** The altitude at which a period ends; Noon has no upper end. */
  function UpperBound(p: Period): Option<real>
  {
    match p
    case Night => Some(-18.0)
    case AstronomicalTwilight => Some(-12.0)
    case NauticalTwilight => Some(-6.0)
    case CivilTwilight => Some(-0.5)
    case Sunrise => Some(6.0)
    case GoldenHour => Some(15.0)
    case Morning => Some(30.0)
    case Midday => Some(60.0)
    case Noon => None
  }

  /** The altitude lies in the period's band: at or above its start, below its end. */
  predicate InBand(p: Period, altitude: real)
  {
    (LowerBound(p).None? || LowerBound(p).value <= altitude)
    && (UpperBound(p).None? || altitude < UpperBound(p).value)
  }

  /** `getTimePeriod(altitude)`: the first threshold the altitude lies below. */
  function GetTimePeriod(altitude: real): (p: Period)
    ensures InBand(p, altitude)
  {
    if altitude < -18.0 then Night
    else if altitude < -12.0 then AstronomicalTwilight
    else if altitude < -6.0 then NauticalTwilight
    else if altitude < -0.5 then CivilTwilight
    else if altitude < 6.0 then Sunrise
    else if altitude < 15.0 then GoldenHour
    else if altitude < 30.0 then Morning
    else if altitude < 60.0 then Midday
    else Noon
  }

  /** The bands do not overlap: an altitude lies in exactly one, which is
      the one `getTimePeriod` returns. */
  lemma BandsAreExclusive(p: Period, altitude: real)
    ensures InBand(p, altitude) <==> p == GetTimePeriod(altitude)
  {
  }

  /** Every period is reached: at the start of its band (or far below, for Night). */
  lemma EveryPeriodIsReached(p: Period)
    ensures GetTimePeriod(if LowerBound(p).Some? then LowerBound(p).value else -90.0) == p
  {
  }

  /** A higher sun never gives a darker period. */
  lemma TimePeriodIsMonotone(a: real, b: real)
    requires a <= b
    ensures Rank(GetTimePeriod(a)) <= Rank(GetTimePeriod(b))
  {
  }

  /** The name the source uses for a period. */
  function Label(p: Period): string
  {
    match p
    case Night => "night"
    case AstronomicalTwilight => "astronomicalTwilight"
    case NauticalTwilight => "nauticalTwilight"
    case CivilTwilight => "civilTwilight"
    case Sunrise => "sunrise"
    case GoldenHour => "goldenHour"
    case Morning => "morning"
    case Midday => "midday"
    case Noon => "noon"
  }

  /** Reading a period name back; None for any other string. */
  function PeriodOfLabel(s: string): (r: Option<Period>)
    ensures r.Some? ==> Label(r.value) == s
  {
    if s == "night" then Some(Night)
    else if s == "astronomicalTwilight" then Some(AstronomicalTwilight)
    else if s == "nauticalTwilight" then Some(NauticalTwilight)
    else if s == "civilTwilight" then Some(CivilTwilight)
    else if s == "sunrise" then Some(Sunrise)
    else if s == "goldenHour" then Some(GoldenHour)
    else if s == "morning" then Some(Morning)
    else if s == "midday" then Some(Midday)
    else if s == "noon" then Some(Noon)
    else None
  }

  /** Every period name reads back as its period, so the names are distinct. */
  lemma PeriodLabelRoundTrip()
    ensures forall p :: PeriodOfLabel(Label(p)) == Some(p)
  {
  }

  // ---------------------------------------------------------------------------
  // Seasons
  // ---------------------------------------------------------------------------

  datatype Season = Winter | Spring | Summer | Autumn

  function SeasonLabel(s: Season): string
  {
    match s
    case Winter => "winter"
    case Spring => "spring"
    case Summer => "summer"
    case Autumn => "autumn"
  }

  function SeasonOfLabel(s: string): (r: Option<Season>)
    ensures r.Some? ==> SeasonLabel(r.value) == s
  {
    if s == "winter" then Some(Winter)
    else if s == "spring" then Some(Spring)
    else if s == "summer" then Some(Summer)
    else if s == "autumn" then Some(Autumn)
    else None
  }

  lemma SeasonLabelRoundTrip(s: Season)
    ensures SeasonOfLabel(SeasonLabel(s)) == Some(s)
  {
  }

  /** A calendar date as `getMonth() + 1` and `getDate()` give it. */
  predicate ValidMonthDay(month: int, day: int)
  {
    1 <= month <= 12 && 1 <= day <= 31
  }

  /** The date as one number that sorts in calendar order: March 20 is 320. */
  function DayKey(month: int, day: int): int
  {
    100 * month + day
  }

  /** `getSeason(date)` on the date's month and day: fixed boundaries on
      March 20, June 21, September 23 and December 21. */
  function GetSeason(month: int, day: int): (s: Season)
    ensures ValidMonthDay(month, day) ==>
      (s == Winter <==> DayKey(month, day) >= 1221 || DayKey(month, day) < 320)
    ensures ValidMonthDay(month, day) ==>
      (s == Spring <==> 320 <= DayKey(month, day) < 621)
    ensures ValidMonthDay(month, day) ==>
      (s == Summer <==> 621 <= DayKey(month, day) < 923)
    ensures ValidMonthDay(month, day) ==>
      (s == Autumn <==> 923 <= DayKey(month, day) < 1221)
  {
    if (month == 12 && day >= 21) || month <= 2 || (month == 3 && day < 20) then Winter
    else if (month == 3 && day >= 20) || month <= 5 || (month == 6 && day < 21) then Spring
    else if (month == 6 && day >= 21) || month <= 8 || (month == 9 && day < 23) then Summer
    else Autumn
  }

  /** The first days of December fall in autumn, the last ones in winter. */
  lemma DecemberSplits(day: int)
    requires 1 <= day <= 31
    ensures GetSeason(12, day) == (if day < 21 then Autumn else Winter)
  {
  }
}
