/** utils/cityMapper.js: the city whose box around the query point comes
    first in the city list. The list itself (cities.json) is a parameter. */
module CityMapper {

  datatype City = City(city: string, lat: real, lon: real)

  /** Half the side of the box, in degrees (about 20 km). */
  const BoxHalfWidth: real := 0.2
  const Unknown: string := "Unknown"

  function Abs(x: real): real
  {
    if x < 0.0 then -x else x
  }

  /** The box test: both coordinates differ by strictly less than 0.2. */
  predicate Near(c: City, lat: real, lon: real)
  {
    Abs(c.lat - lat) < BoxHalfWidth && Abs(c.lon - lon) < BoxHalfWidth
  }

  /** Entry `i` is the first, in list order, that passes the box test. */
  ghost predicate FirstNear(cities: seq<City>, lat: real, lon: real, i: int)
  {
    0 <= i < |cities| && Near(cities[i], lat, lon) &&
    forall j :: 0 <= j < i ==> !Near(cities[j], lat, lon)
  }

  ghost predicate NoneNear(cities: seq<City>, lat: real, lon: real)
  {
    forall i :: 0 <= i < |cities| ==> !Near(cities[i], lat, lon)
  }

  /** `mapCity(lat, lon)` over the list `cities`. */
  function MapCity(cities: seq<City>, lat: real, lon: real): (r: string)
    ensures NoneNear(cities, lat, lon) ==> r == Unknown
    ensures !NoneNear(cities, lat, lon) ==>
              exists i :: FirstNear(cities, lat, lon, i) && r == cities[i].city
    ensures r == Unknown || exists i :: 0 <= i < |cities| && cities[i].city == r
  {
    if |cities| == 0 then Unknown
    else if Near(cities[0], lat, lon) then
      assert FirstNear(cities, lat, lon, 0);
      cities[0].city
    else
      var r := MapCity(cities[1..], lat, lon);
      assert !NoneNear(cities[1..], lat, lon) ==> exists i :: FirstNear(cities, lat, lon, i) && r == cities[i].city by {
        if !NoneNear(cities[1..], lat, lon) {
          var i :| FirstNear(cities[1..], lat, lon, i) && r == cities[1..][i].city;
          assert FirstNear(cities, lat, lon, i + 1);
        }
      }
      r
  }

  /** "Unknown" exactly when no entry passes the box test, provided no city in
      the list is itself called "Unknown". */
  lemma UnknownIffNoneNear(cities: seq<City>, lat: real, lon: real)
    requires forall i :: 0 <= i < |cities| ==> cities[i].city != Unknown
    ensures MapCity(cities, lat, lon) == Unknown <==> NoneNear(cities, lat, lon)
  {
  }

  /** Once some entry matches, entries appended after the list never change the result. */
  lemma {:induction false} LaterEntriesIgnored(cities: seq<City>, later: seq<City>, lat: real, lon: real)
    requires !NoneNear(cities, lat, lon)
    ensures MapCity(cities + later, lat, lon) == MapCity(cities, lat, lon)
  {
    assert (cities + later)[0] == cities[0];
    if !Near(cities[0], lat, lon) {
      assert cities[1..] + later == (cities + later)[1..];
      LaterEntriesIgnored(cities[1..], later, lat, lon);
    }
  }

  /** A difference of exactly 0.2 degrees in either coordinate is not a match. */
  lemma BoundaryIsOutside(name: string, lat: real, lon: real, dLat: real, dLon: real)
    requires Abs(dLat) == BoxHalfWidth || Abs(dLon) == BoxHalfWidth
    ensures !Near(City(name, lat + dLat, lon + dLon), lat, lon)
  {
  }
}
