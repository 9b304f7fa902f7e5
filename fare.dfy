/** The fare rule of a ride request: a distance from the two coordinates, then price and duration. */
module Fare {
  import opened Types

  /** The planar distance is scaled by this factor before it is used as kilometres. */
  const Scale: real := 100.0

  function Sq(x: real): real
  {
    x * x
  }

  function SquaredOffset(p: Location, q: Location): real
  {
    Sq(p.lat - q.lat) + Sq(p.lng - q.lng)
  }

  /**
   * `d` is Scale times the Euclidean distance between the (lat, lng) pairs of `p` and `q`:
   * the non-negative root of Scale^2 times the squared offset.
   */
  predicate IsScaledDistance(p: Location, q: Location, d: real)
  {
    d >= 0.0 && Sq(d) == Sq(Scale) * SquaredOffset(p, q)
  }

  function Price(rt: RideType, distance: real): real
  {
    rt.basePrice + distance * rt.pricePerKm
  }

  function Duration(distance: real): real
  {
    distance * 2.0
  }

  lemma SqPositive(x: real)
    requires x > 0.0
    ensures Sq(x) > 0.0
  {
    calc {
      Sq(x);
      x * x;
    >
      0.0 * x;
      0.0;
    }
  }

  lemma SqSign(x: real)
    ensures Sq(x) >= 0.0
    ensures Sq(x) == 0.0 <==> x == 0.0
  {
    if x > 0.0 {
      SqPositive(x);
    } else if x < 0.0 {
      SqPositive(-x);
      assert Sq(-x) == Sq(x);
    } else {
      assert Sq(x) == 0.0 * 0.0;
    }
  }

  lemma SqStrictlyIncreasing(x: real, y: real)
    requires 0.0 <= x < y
    ensures Sq(x) < Sq(y)
  {
    calc {
      Sq(x);
      x * x;
    <=
      x * y;
    <
      y * y;
      Sq(y);
    }
  }

  lemma SquaredOffsetZero(p: Location, q: Location)
    ensures SquaredOffset(p, q) >= 0.0
    ensures SquaredOffset(p, q) == 0.0 <==> p.lat == q.lat && p.lng == q.lng
  {
    SqSign(p.lat - q.lat);
    SqSign(p.lng - q.lng);
  }

  /** The distance is zero exactly when pickup and dropoff have the same coordinates. */
  lemma DistanceZeroIffSamePoint(p: Location, q: Location, d: real)
    requires IsScaledDistance(p, q, d)
    ensures d == 0.0 <==> p.lat == q.lat && p.lng == q.lng
  {
    SquaredOffsetZero(p, q);
    SqSign(d);
    SqPositive(Scale);
  }

  /** The distance is a function of the two points: at most one value satisfies the equation. */
  lemma DistanceDetermined(p: Location, q: Location, d1: real, d2: real)
    requires IsScaledDistance(p, q, d1) && IsScaledDistance(p, q, d2)
    ensures d1 == d2
  {
    if d1 < d2 {
      SqStrictlyIncreasing(d1, d2);
    } else if d2 < d1 {
      SqStrictlyIncreasing(d2, d1);
    }
  }

  lemma DistanceSymmetric(p: Location, q: Location, d: real)
    requires IsScaledDistance(p, q, d)
    ensures IsScaledDistance(q, p, d)
  {
  }

  /** A trip that does not move costs the base price and takes no time. */
  lemma SamePointCostsBasePrice(rt: RideType, p: Location, q: Location, d: real)
    requires IsScaledDistance(p, q, d)
    requires p.lat == q.lat && p.lng == q.lng
    ensures Price(rt, d) == rt.basePrice
    ensures Duration(d) == 0.0
  {
    DistanceZeroIffSamePoint(p, q, d);
  }

  /** With a non-negative rate, price and duration never decrease as the distance grows. */
  lemma FareMonotone(rt: RideType, d1: real, d2: real)
    requires rt.pricePerKm >= 0.0
    requires 0.0 <= d1 <= d2
    ensures rt.basePrice <= Price(rt, d1) <= Price(rt, d2)
    ensures 0.0 <= Duration(d1) <= Duration(d2)
  {
  }
}
