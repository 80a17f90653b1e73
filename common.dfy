/** Values shared by every part of the model: optional values, results,
    coordinates and the abstract great-circle distance. */
module Common {

  /** A value that may be absent (JavaScript `null` / `undefined`). */
  datatype Option<T> = None | Some(value: T)

  /** The outcome of an operation that can throw. */
  datatype Result<T, E> = Success(value: T) | Failure(error: E)

  /** A latitude/longitude pair in degrees; JavaScript numbers are modelled as reals. */
  datatype Coord = Coord(lat: real, lon: real)

  /** The haversine distance in km between two coordinates. Its trigonometry is
      not modelled: every operation that needs it takes it as a parameter. */
  type Distance = (Coord, Coord) -> real

  /** The one property of the haversine distance the model relies on. */
  ghost predicate NonNegative(dist: Distance)
  {
    forall a, b :: dist(a, b) >= 0.0
  }

  /** Symmetry of the haversine distance, used only where two call sites pass
      the coordinates in opposite orders. */
  ghost predicate Symmetric(dist: Distance)
  {
    forall a, b :: dist(a, b) == dist(b, a)
  }

  function Max(a: real, b: real): real
  {
    if a >= b then a else b
  }

  /** `Array.prototype.join(sep)`. */
  function Join(parts: seq<string>, sep: string): string
  {
    if |parts| == 0 then ""
    else if |parts| == 1 then parts[0]
    else parts[0] + sep + Join(parts[1..], sep)
  }
}
