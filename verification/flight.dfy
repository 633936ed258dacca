/** Map-flight arithmetic (mapcontroller.js): how long the camera flight to a
    track takes, from the distance to fly, and the easing curve the flight
    follows. The distance itself comes from the haversine formula, which is
    not part of this model: it is an input here, in metres. */
module Flight {
  import opened JsValues

  /** Shortest flight, for targets closer than 5 km (milliseconds). */
  const ShortFlight: real := 2200.0
  /** Flight length at 50 km, where the medium band ends. */
  const MediumFlight: real := 4000.0
  /** Longest flight. */
  const LongestFlight: real := 5000.0

  /** The distance-based duration of `positionMapForTrack`, repeated verbatim
      in `getMovementDuration`: 2.2 s below 5 km, rising linearly to 4 s at
      50 km, then 1 s more per 100 km up to 5 s. */
  function FlightDuration(distance: real): (r: real)
    ensures ShortFlight <= r <= LongestFlight
    ensures distance / 1000.0 < 5.0 ==> r == ShortFlight
    ensures distance / 1000.0 >= 150.0 ==> r == LongestFlight
  {
    var km := distance / 1000.0;
    if km < 5.0 then ShortFlight
    else if km < 50.0 then ShortFlight + ((km - 5.0) / 45.0) * 1800.0
    else Min(LongestFlight, MediumFlight + ((km - 50.0) / 100.0) * 1000.0)
  }

  /** A farther target never gets a shorter flight. */
  lemma FlightDurationIsMonotone(a: real, b: real)
    requires a <= b
    ensures FlightDuration(a) <= FlightDuration(b)
  {
  }

  /** The duration changes by at most 40 ms per km (0.04 ms per metre) of
      distance, so it has no jump at 5 km or at 50 km. */
  lemma FlightDurationIsContinuous(a: real, b: real)
    requires a <= b
    ensures FlightDuration(b) - FlightDuration(a) <= 0.04 * (b - a)
  {
    var ka, kb := a / 1000.0, b / 1000.0;
    assert kb - ka == (b - a) / 1000.0;
  }

  /** The medium band starts at the short flight and ends at the medium one. */
  lemma FlightBandsMeet()
    ensures FlightDuration(5000.0) == ShortFlight
    ensures FlightDuration(50000.0) == MediumFlight
    ensures FlightDuration(150000.0) == LongestFlight
  {
  }

  // ---------------------------------------------------------------------------
  // smoothLandingEasing
  // ---------------------------------------------------------------------------

  /** Gentle acceleration over the first 30% of the flight. */
  function Accelerate(t: real): real
  {
    2.0 * t * t
  }

  /** Steady cruise over the middle 40%. */
  function Cruise(t: real): real
  {
    0.18 + 0.64 * ((t - 0.3) / 0.4)
  }

  /** Slow landing over the last 30%: a cubic ease-out. */
  function Land(t: real): real
  {
    var u := (t - 0.7) / 0.3;
    0.82 + 0.18 * (1.0 - Cube(1.0 - u))
  }

  /** `Math.pow(x, 3)`. */
  function Cube(x: real): real
  {
    x * x * x
  }

  /** `smoothLandingEasing(t)`. */
  function SmoothLandingEasing(t: real): (r: real)
    ensures 0.0 <= t <= 1.0 ==> 0.0 <= r <= 1.0
  {
    if t < 0.3 then
      AccelerateGap(0.0, if t < 0.0 then 0.0 else t);
      Accelerate(t)
    else if t < 0.7 then Cruise(t)
    else
      CubeRange(1.0 - (t - 0.7) / 0.3);
      Land(t)
  }

  lemma CubeRange(x: real)
    ensures 0.0 <= x <= 1.0 ==> 0.0 <= Cube(x) <= 1.0
  {
    if 0.0 <= x <= 1.0 {
      MulLe(0.0, x, 0.0, x);
      MulLe(x, 1.0, x, 1.0);
      MulLe(0.0, x * x, 0.0, x);
      MulLe(x * x, 1.0, x, 1.0);
    }
  }

  /** The curve starts at rest and lands exactly, and its three pieces meet
      where they hand over: at 0.3 (0.18) and at 0.7 (0.82). */
  lemma EasingEndpointsAndJoins()
    ensures SmoothLandingEasing(0.0) == 0.0
    ensures SmoothLandingEasing(1.0) == 1.0
    ensures Accelerate(0.3) == 0.18 == Cruise(0.3) == SmoothLandingEasing(0.3)
    ensures Cruise(0.7) == 0.82 == Land(0.7) == SmoothLandingEasing(0.7)
  {
  }

  /** The cube is monotone on the non-negative reals, with the difference
      bounded by three times the gap on [0, 1]. */
  lemma CubeGap(x: real, y: real)
    requires 0.0 <= x <= y <= 1.0
    ensures 0.0 <= Cube(y) - Cube(x) <= 3.0 * (y - x)
  {
    var d := y - x;
    var s := y * y + x * y + x * x;
    assert Cube(y) - Cube(x) == d * s;
    assert 0.0 <= s <= 3.0 by {
      MulLe(0.0, x, 0.0, y);
      MulLe(0.0, x, 0.0, x);
      MulLe(0.0, y, 0.0, y);
      MulLe(x, 1.0, y, 1.0);
      MulLe(x, 1.0, x, 1.0);
      MulLe(y, 1.0, y, 1.0);
    }
    assert d * s <= d * 3.0 by { MulLe(d, d, s, 3.0); }
  }

  lemma MulLe(a: real, b: real, c: real, e: real)
    requires 0.0 <= a <= b && 0.0 <= c <= e
    ensures a * c <= b * e
  {
    assert a * c <= b * c;
    assert b * c <= b * e;
  }

  /** On [0, 1] the easing never goes backwards, and it rises by at most
      1.8 times the elapsed fraction: the motion is continuous, with the
      steepest slope at the start of the landing. */
  lemma EasingIsMonotoneAndContinuous(a: real, b: real)
    requires 0.0 <= a <= b <= 1.0
    ensures SmoothLandingEasing(a) <= SmoothLandingEasing(b)
    ensures SmoothLandingEasing(b) - SmoothLandingEasing(a) <= 1.8 * (b - a)
  {
    if b < 0.3 {
      AccelerateGap(a, b);
    } else if a < 0.3 && b < 0.7 {
      AccelerateGap(a, 0.3);
    } else if a < 0.3 {
      AccelerateGap(a, 0.3);
      LandGap(0.7, b);
    } else if b < 0.7 {
    } else if a < 0.7 {
      LandGap(0.7, b);
    } else {
      LandGap(a, b);
    }
  }

  lemma AccelerateGap(a: real, b: real)
    requires 0.0 <= a <= b <= 0.3
    ensures 0.0 <= Accelerate(b) - Accelerate(a) <= 1.2 * (b - a)
  {
    assert Accelerate(b) - Accelerate(a) == 2.0 * (b + a) * (b - a);
    MulLe(0.0, 2.0 * (b + a), b - a, b - a);
    MulLe(2.0 * (b + a), 1.2, b - a, b - a);
  }

  lemma LandGap(a: real, b: real)
    requires 0.7 <= a <= b <= 1.0
    ensures 0.0 <= Land(b) - Land(a) <= 1.8 * (b - a)
  {
    var x, y := 1.0 - (b - 0.7) / 0.3, 1.0 - (a - 0.7) / 0.3;
    assert y - x == (b - a) / 0.3;
    CubeGap(x, y);
    assert Land(b) - Land(a) == 0.18 * (Cube(y) - Cube(x));
  }
}
