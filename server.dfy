/**
 * The request handlers of the car catalog and test-drive API, over an in-memory
 * picture of the two document collections they use.
 */
module Server {
  import opened Wrappers
  import opened Records
  import opened Query
  import opened Ordering

  /** An error response: its HTTP status code and detail text. */
  datatype HttpError = HttpError(status: int, detail: string)

  /** The response when no car has the requested id. */
  const CarNotFound: HttpError := HttpError(404, "Car not found")

  /**
   * The response when a booking's `user_email` is not a valid address. Only the status is
   * modelled; the detail text stands for the framework's list of validation errors.
   */
  const InvalidEmail: HttpError := HttpError(422, "user_email")

  /** The text fields whose distinct values the catalog lists. */
  datatype TextField = MakeField | TypeField

  function FieldOf(c: Car, field: TextField): string {
    match field
    case MakeField => c.make
    case TypeField => c.carType
  }

  /** The value of a field in each car, in store order, repeats included. */
  function FieldValues(cars: seq<Car>, field: TextField): (r: seq<string>)
    ensures |r| == |cars|
    ensures forall i :: 0 <= i < |cars| ==> r[i] == FieldOf(cars[i], field)
  {
    if cars == [] then [] else [FieldOf(cars[0], field)] + FieldValues(cars[1..], field)
  }

  /** The values a field takes across a collection, as a set. */
  lemma FieldValuesElems(cars: seq<Car>, field: TextField)
    ensures Elems(FieldValues(cars, field)) == set c | c in cars :: FieldOf(c, field)
  {
    var vs := FieldValues(cars, field);
    forall v | v in Elems(vs)
      ensures v in set c | c in cars :: FieldOf(c, field)
    {
      var i :| 0 <= i < |vs| && vs[i] == v;
      assert cars[i] in cars;
    }
    forall v | v in set c | c in cars :: FieldOf(c, field)
      ensures v in Elems(vs)
    {
      var c :| c in cars && FieldOf(c, field) == v;
      var i :| 0 <= i < |cars| && cars[i] == c;
      assert vs[i] == v;
    }
  }

  /** The fixed dealership locations, regenerated on every request. */
  function Locations(): (r: seq<Location>)
    ensures |r| == 4
    ensures r[0].id == "loc1" && r[1].id == "loc2" && r[2].id == "loc3" && r[3].id == "loc4"
    ensures forall i, j :: 0 <= i < j < |r| ==> r[i].id != r[j].id
  {
    [
      Location("loc1", "Downtown Showroom", "123 Main Street", "New York", "+1 (555) 123-4567"),
      Location("loc2", "Westside Auto Center", "456 West Avenue", "Los Angeles", "+1 (555) 234-5678"),
      Location("loc3", "North Point Dealership", "789 North Road", "Chicago", "+1 (555) 345-6789"),
      Location("loc4", "South Bay Motors", "321 South Boulevard", "Miami", "+1 (555) 456-7890")
    ]
  }

  /**
   * The `cars` and `test_drives` collections. Cars are kept in store order; bookings as
   * stored documents, their creation time held as ISO text.
   */
  class Store {
    var cars: seq<Car>
    var testDrives: seq<TestDrive>

    constructor (cars: seq<Car>, testDrives: seq<TestDrive>)
      ensures this.cars == cars && this.testDrives == testDrives
    {
      this.cars := cars;
      this.testDrives := testDrives;
    }

    /**
     * GET /api/cars: the first matching cars, at most `MaxResults`, in store order.
     * Every car returned satisfies every clause; when fewer than the cap match, every
     * matching car is returned, as often as it is stored.
     */
    method GetCars(make: Option<string>, carType: Option<string>, minPrice: Option<real>,
                   maxPrice: Option<real>, year: Option<int>) returns (result: seq<Car>)
      ensures |result| <= MaxResults
      ensures IsSubsequence(result, cars)
      ensures forall i :: 0 <= i < |result| ==> Matches(result[i], BuildFilter(make, carType, minPrice, maxPrice, year))
      ensures |result| < MaxResults ==> forall c :: Matches(c, BuildFilter(make, carType, minPrice, maxPrice, year)) ==>
                multiset(result)[c] == multiset(cars)[c]
      ensures result == FindCapped(cars, BuildFilter(make, carType, minPrice, maxPrice, year))
    {
      var query := BuildQuery(make, carType, minPrice, maxPrice, year);
      result := FindCapped(cars, query);
    }

    /** GET /api/cars/{car_id}: the first car with that id, or 404 when there is none. */
    method GetCar(carId: string) returns (r: Result<Car, HttpError>)
      ensures r.Ok? <==> exists i :: 0 <= i < |cars| && cars[i].id == carId
      ensures r.Ok? ==> r.value.id == carId && r.value in cars
      ensures r.Ok? ==> Some(r.value) == FindById(cars, carId)
      ensures r.Err? ==> r.error == CarNotFound
    {
      var car := FindById(cars, carId);
      if car.None? {
        return Err(CarNotFound);
      }
      r := Ok(car.value);
    }

    /** POST /api/cars: the input's fields under the generated id, appended to the cars. */
    method CreateCar(input: CarCreate, id: string) returns (car: Car)
      modifies this`cars
      ensures car.id == id && CarCreateOf(car) == input
      ensures cars == old(cars) + [car]
    {
      car := ToCar(input, id);
      cars := cars + [car];
    }

    /** The sorted distinct values a field takes across the stored cars. */
    method DistinctSorted(field: TextField) returns (values: seq<string>)
      ensures StrictlyAscending(values)
      ensures Elems(values) == set c | c in cars :: FieldOf(c, field)
    {
      FieldValuesElems(cars, field);
      values := SortedDistinct(FieldValues(cars, field));
    }

    /** GET /api/makes. */
    method GetMakes() returns (makes: seq<string>)
      ensures StrictlyAscending(makes)
      ensures Elems(makes) == set c | c in cars :: c.make
    {
      makes := DistinctSorted(MakeField);
    }

    /** GET /api/types. */
    method GetTypes() returns (types: seq<string>)
      ensures StrictlyAscending(types)
      ensures Elems(types) == set c | c in cars :: c.carType
    {
      types := DistinctSorted(TypeField);
    }

    /**
     * POST /api/test-drive. An invalid email is refused before the store is touched, an
     * unknown car id is refused after the lookup, and in neither case is anything stored.
     * Otherwise a pending booking copying the input is appended, in its stored form.
     */
    method BookTestDrive(input: TestDriveCreate, id: string, now: Instant) returns (r: Result<TestDrive, HttpError>)
      modifies this`testDrives
      ensures !PlausibleEmail(input.userEmail) ==> r == Err(InvalidEmail)
      ensures PlausibleEmail(input.userEmail) && FindById(cars, input.carId).None? ==> r == Err(CarNotFound)
      ensures r.Err? ==> testDrives == old(testDrives)
      ensures r.Ok? <==> PlausibleEmail(input.userEmail) && exists i :: 0 <= i < |cars| && cars[i].id == input.carId
      ensures r.Ok? ==> r.value == ToTestDrive(input, id, now) && testDrives == old(testDrives) + [StoredForm(r.value)]
    {
      if !PlausibleEmail(input.userEmail) {
        return Err(InvalidEmail);
      }
      var car := FindById(cars, input.carId);
      if car.None? {
        return Err(CarNotFound);
      }
      var booking := ToTestDrive(input, id, now);
      testDrives := testDrives + [StoredForm(booking)];
      r := Ok(booking);
    }

    /**
     * GET /api/test-drive: the first `MaxResults` stored bookings, in store order, each
     * with a creation time held as text parsed back into a timestamp.
     */
    method GetTestDrives() returns (bookings: seq<TestDrive>)
      ensures |bookings| == if |testDrives| < MaxResults then |testDrives| else MaxResults
      ensures forall i :: 0 <= i < |bookings| ==> bookings[i] == Rehydrate(testDrives[i])
    {
      var n := if |testDrives| < MaxResults then |testDrives| else MaxResults;
      bookings := testDrives[..n];
      var i := 0;
      while i < n
        invariant i <= n && |bookings| == n
        invariant forall k :: 0 <= k < i ==> bookings[k] == Rehydrate(testDrives[k])
        invariant forall k :: i <= k < n ==> bookings[k] == testDrives[k]
      {
        if bookings[i].createdAt.IsoText? {
          bookings := bookings[i := bookings[i].(createdAt := DateTime(Instant(bookings[i].createdAt.text)))];
        }
        i := i + 1;
      }
    }
  }

  /**
   * A client of the handlers: a car created under an id no stored car has is what a
   * lookup of that id then returns.
   */
  method CreateThenGet(store: Store, input: CarCreate, id: string) returns (car: Car, r: Result<Car, HttpError>)
    requires forall i :: 0 <= i < |store.cars| ==> store.cars[i].id != id
    modifies store`cars
    ensures r == Ok(car) && car.id == id && CarCreateOf(car) == input
    ensures store.cars == old(store.cars) + [car]
  {
    ghost var before := store.cars;
    car := store.CreateCar(input, id);
    FindAppendedById(before, car);
    r := store.GetCar(id);
  }

  /** The example of the catalog: one Tesla stored, a Tesla query returns it, a Toyota query nothing. */
  lemma TeslaExample(tesla: Car)
    requires tesla.make == "Tesla" && tesla.year == 2024 && tesla.price == 74990.0 && tesla.carType == "Sedan"
    ensures Find([tesla], BuildFilter(Some("Tesla"), None, None, None, None)) == [tesla]
    ensures Find([tesla], BuildFilter(Some("Toyota"), None, None, None, None)) == []
  {
  }

  /** A price bound of zero is honoured, while a year of zero or an empty make adds no clause. */
  lemma ZeroBoundIsHonoured(c: Car)
    requires c.price > 0.0
    ensures !Matches(c, BuildFilter(None, None, None, Some(0.0), None))
    ensures Matches(c, BuildFilter(Some(""), None, None, None, Some(0)))
  {
  }
}
