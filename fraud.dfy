/** The two fraud heuristics of utils/fraud.js: threshold predicates over a
    distance and two millisecond timestamps. */
module Fraud {
  import opened Common

  /** A user further than this from the delivery point is suspicious (km). */
  const GeoRadiusKm: real := 0.5
  /** The highest plausible speed inside a city (km/h). */
  const SpeedLimitKmh: real := 40.0
  const MillisPerHour: int := 1000 * 60 * 60

  /** `isFar`: the user is strictly more than 0.5 km from the delivery point. */
  function IsFar(dist: Distance, delivery: Coord, user: Coord): (r: bool)
    ensures Symmetric(dist) ==> (r <==> dist(user, delivery) > GeoRadiusKm)
  {
    dist(delivery, user) > GeoRadiusKm
  }

  /** `(newTime - prevTime) / (1000 * 60 * 60)`: elapsed time in hours. */
  function ElapsedHours(prevTime: int, newTime: int): (h: real)
    ensures h == 0.0 <==> newTime == prevTime
    ensures h > 0.0 <==> newTime > prevTime
  {
    (newTime - prevTime) as real / MillisPerHour as real
  }

  /** The speed `isImpossibleJump` compares with the limit, when it gets that far. */
  function JumpSpeed(dist: Distance, prevCoords: Coord, prevTime: int, newCoords: Coord, newTime: int): real
    requires newTime != prevTime
  {
    dist(prevCoords, newCoords) / ElapsedHours(prevTime, newTime)
  }

  /** `isImpossibleJump`, as written: equal timestamps always flag; otherwise
      the implied speed must exceed 40 km/h. The contract restates the speed
      test without division: more than 40 km covered per 3,600,000 ms. */
  function IsImpossibleJump(dist: Distance, prevCoords: Coord, prevTime: int, newCoords: Coord, newTime: int): (r: bool)
    ensures newTime == prevTime ==> r
    ensures newTime > prevTime ==>
              (r <==> dist(prevCoords, newCoords) * MillisPerHour as real > SpeedLimitKmh * (newTime - prevTime) as real)
    ensures newTime < prevTime && dist(prevCoords, newCoords) >= 0.0 ==> !r
  {
    var timeDiff := ElapsedHours(prevTime, newTime);
    if timeDiff == 0.0 then true
    else
      var speed := JumpSpeed(dist, prevCoords, prevTime, newCoords, newTime);
      assert speed * timeDiff == dist(prevCoords, newCoords);
      speed > SpeedLimitKmh
  }

  /** A device that has not moved never flags, whatever the (distinct) timestamps. */
  lemma StandingStillNeverFlags(dist: Distance, prevCoords: Coord, prevTime: int, newCoords: Coord, newTime: int)
    requires dist(prevCoords, newCoords) == 0.0
    requires newTime != prevTime
    ensures !IsImpossibleJump(dist, prevCoords, prevTime, newCoords, newTime)
  {
  }
}
