/**
 * The records the API exchanges: cars, car-creation input, test-drive bookings,
 * booking input and dealership locations, with the rules that turn an input
 * record into a stored one (a generated id, a default status, a timestamp).
 */
module Records {

  /**
   * A car of the catalog. The source's `type` field (body type such as "SUV")
   * is called `carType` here; `specs` is a free-form mapping, modelled as text to text.
   * Prices are compared only, so they are modelled as reals.
   */
  datatype Car = Car(
    id: string,
    make: string,
    model: string,
    year: int,
    price: real,
    carType: string,
    image: string,
    specs: map<string, string>,
    features: seq<string>,
    description: string)

  /** The body of a car-creation request: every field of a car except its id. */
  datatype CarCreate = CarCreate(
    make: string,
    model: string,
    year: int,
    price: real,
    carType: string,
    image: string,
    specs: map<string, string>,
    features: seq<string>,
    description: string)

  /** A car built from creation input, with the id the default factory supplies. */
  function ToCar(input: CarCreate, id: string): (c: Car)
    ensures c.id == id
    ensures CarCreateOf(c) == input
  {
    Car(id, input.make, input.model, input.year, input.price, input.carType,
        input.image, input.specs, input.features, input.description)
  }

  /** The creation input a car carries: the car without its id. */
  function CarCreateOf(c: Car): CarCreate {
    CarCreate(c.make, c.model, c.year, c.price, c.carType, c.image, c.specs, c.features, c.description)
  }

  /**
   * A point in time, identified by its ISO-8601 text: rendering it as text is reading
   * `iso`, and reading it back from that text is the constructor.
   */
  datatype Instant = Instant(iso: string)

  /**
   * The creation time of a booking as a document holds it: as ISO text (how a booking
   * is stored) or as a timestamp value (how it is returned).
   */
  datatype Stamp = IsoText(text: string) | DateTime(at: Instant)

  /** The status every new booking receives. */
  const Pending: string := "pending"

  /** A test-drive booking. */
  datatype TestDrive = TestDrive(
    id: string,
    carId: string,
    userName: string,
    userEmail: string,
    userPhone: string,
    preferredDate: string,
    preferredTime: string,
    location: string,
    status: string,
    createdAt: Stamp)

  /** The body of a booking request. */
  datatype TestDriveCreate = TestDriveCreate(
    carId: string,
    userName: string,
    userEmail: string,
    userPhone: string,
    preferredDate: string,
    preferredTime: string,
    location: string)

  /** A booking built from its input, a generated id and the current time. */
  function ToTestDrive(input: TestDriveCreate, id: string, now: Instant): (b: TestDrive)
    ensures b.id == id && b.status == Pending && b.createdAt == DateTime(now)
    ensures TestDriveCreateOf(b) == input
  {
    TestDrive(id, input.carId, input.userName, input.userEmail, input.userPhone,
              input.preferredDate, input.preferredTime, input.location, Pending, DateTime(now))
  }

  /** The input fields a booking carries. */
  function TestDriveCreateOf(b: TestDrive): TestDriveCreate {
    TestDriveCreate(b.carId, b.userName, b.userEmail, b.userPhone,
                    b.preferredDate, b.preferredTime, b.location)
  }

  /** The document stored for a booking: its creation time written out as ISO text. */
  function StoredForm(b: TestDrive): (d: TestDrive)
    ensures d.createdAt.IsoText?
    ensures b.createdAt.DateTime? ==> d.createdAt == IsoText(b.createdAt.at.iso)
    ensures b.createdAt.IsoText? ==> d == b
    ensures d.(createdAt := b.createdAt) == b
  {
    match b.createdAt
    case IsoText(_) => b
    case DateTime(t) => b.(createdAt := IsoText(t.iso))
  }

  /** A stored booking as it is listed: a creation time held as text is parsed back. */
  function Rehydrate(d: TestDrive): (b: TestDrive)
    ensures b.createdAt.DateTime?
    ensures d.createdAt.IsoText? ==> b.createdAt == DateTime(Instant(d.createdAt.text))
    ensures b.(createdAt := d.createdAt) == d
    ensures d.createdAt.DateTime? ==> b == d
  {
    match d.createdAt
    case IsoText(s) => d.(createdAt := DateTime(Instant(s)))
    case DateTime(_) => d
  }

  /** A booking returned at creation comes back unchanged when its stored form is listed. */
  lemma RehydrateStoredForm(b: TestDrive)
    requires b.createdAt.DateTime?
    ensures Rehydrate(StoredForm(b)) == b
  {
  }

  /**
   * An approximation of the address check the booking schema applies to `user_email`:
   * a non-empty local part, exactly one '@', and a domain with a dot that is neither
   * its first nor its last character.
   */
  predicate PlausibleEmail(s: string)
    ensures PlausibleEmail(s) ==> '@' in s && s[0] != '@'
  {
    exists k | 0 < k < |s| :: s[k] == '@' && '@' !in s[..k] && DomainPart(s[k + 1..])
  }

  /** An address with no '@' is refused. */
  lemma NoAtIsRefused(s: string)
    requires '@' !in s
    ensures !PlausibleEmail(s)
  {
  }

  /** The domain part of an address: no '@', and an inner dot. */
  predicate DomainPart(d: string) {
    '@' !in d && exists j | 0 < j < |d| - 1 :: d[j] == '.'
  }

  /** A fixed dealership location. */
  datatype Location = Location(id: string, name: string, address: string, city: string, phone: string)
}
