/** The car records the booking pages look up and price. */
module Catalog {
  import opened Wrappers

  datatype Car = Car(
    id: int,
    brand: string,
    model: string,
    kind: string,
    year: int,
    seats: int,
    gear: string,
    color: string,
    price: string,      // the day rate as displayed, e.g. "$150/day"
    description: string,
    image: string)

  /**
   * The car lookup by id: the first car with the requested id,
   * or nothing when no car has it.
   */
  function FindCar(cars: seq<Car>, id: int): (r: Option<Car>)
    ensures r.None? <==> forall c :: c in cars ==> c.id != id
    ensures r.Some? ==> exists k :: 0 <= k < |cars| && cars[k] == r.value && cars[k].id == id &&
                                    forall j :: 0 <= j < k ==> cars[j].id != id
  {
    if cars == [] then None
    else if cars[0].id == id then Some(cars[0])
    else
      var r := FindCar(cars[1..], id);
      assert forall c :: c in cars[1..] ==> c in cars;
      assert forall c :: c in cars ==> c == cars[0] || c in cars[1..];
      if r.Some? then
        var k :| 0 <= k < |cars[1..]| && cars[1..][k] == r.value && cars[1..][k].id == id &&
                 forall j :: 0 <= j < k ==> cars[1..][j].id != id;
        assert cars[k + 1] == r.value;
        assert forall j :: 0 <= j < k + 1 ==> cars[j].id != id by {
          forall j | 0 <= j < k + 1 ensures cars[j].id != id {
            if j > 0 { assert cars[j] == cars[1..][j - 1]; }
          }
        }
        r
      else r
  }
}
