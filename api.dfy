/**
 * The in-memory mock backend: five module-level arrays (users, ride types, drivers, rides,
 * payments) and the calls over them, grouped as auth, rides, drivers and payments.
 * Read-only calls are functions of the array contents; the three calls that push onto an
 * array are methods of the store object.
 */
module Api {
  import opened Types
  import opened Collections
  import opened Ids
  import opened Fare

  // ----- Seed data the module starts with -----

  function SeedUsers(loadedAt: Instant): seq<User>
  {
    [User("user1", "user@example.com", "John Doe", "+1234567890", loadedAt)]
  }

  const Economy: RideType := RideType("economy", "Economy", "Affordable rides", 5.0, 1.5, "\U{1F696}")
  const Premium: RideType := RideType("premium", "Premium", "Comfortable rides", 10.0, 2.5, "\U{1F695}")
  const Xl: RideType := RideType("xl", "XL", "Spacious rides", 15.0, 3.5, "\U{1F699}")

  const SeedRideTypes: seq<RideType> := [Economy, Premium, Xl]

  const SeedDriver: Driver := Driver(
    "driver1", "Jane Smith", "Toyota Camry", 4.8,
    Location(37.7749, -122.4194, "San Francisco, CA", None),
    true)

  const SeedDrivers: seq<Driver> := [SeedDriver]

  /** Every requested ride is given this driver. */
  const AssignedDriverId: string := "driver1"

  // ----- Ids generated from the length of an array -----

  function UserId(n: nat): string { MakeId("user", n) }
  function RideId(n: nat): string { MakeId("ride", n) }
  function PaymentId(n: nat): string { MakeId("payment", n) }

  /** The element at position i carries the id numbered i + 1, as `${prefix}${length + 1}` gives at push time. */
  ghost predicate UserIdsPositional(users: seq<User>)
  {
    forall i :: 0 <= i < |users| ==> users[i].id == UserId(i + 1)
  }

  ghost predicate RideIdsPositional(rides: seq<Ride>)
  {
    forall i :: 0 <= i < |rides| ==> rides[i].id == RideId(i + 1)
  }

  ghost predicate PaymentIdsPositional(payments: seq<Payment>)
  {
    forall i :: 0 <= i < |payments| ==> payments[i].id == PaymentId(i + 1)
  }

  ghost predicate EmailsDistinct(users: seq<User>)
  {
    forall i, j :: 0 <= i < j < |users| ==> users[i].email != users[j].email
  }

  ghost predicate Registered(users: seq<User>, email: string)
  {
    exists i :: 0 <= i < |users| && users[i].email == email
  }

  /** What every stored ride looks like: nothing in the backend ever changes a ride after the push. */
  ghost predicate RideAsRequested(ride: Ride, catalog: seq<RideType>)
  {
    && ride.driverId == AssignedDriverId
    && ride.status == Requested
    && ride.rideType in catalog
    && ride.distance >= 0.0
    && ride.price == Price(ride.rideType, ride.distance)
    && ride.duration == Duration(ride.distance)
  }

  // ----- The predicates handed to find and filter -----

  function HasEmail(email: string): User -> bool { (u: User) => u.email == email }
  function HasRideTypeId(id: string): RideType -> bool { (rt: RideType) => rt.id == id }
  function HasRideId(id: string): Ride -> bool { (r: Ride) => r.id == id }
  function RideOfUser(userId: string): Ride -> bool { (r: Ride) => r.userId == userId }
  function HasDriverId(id: string): Driver -> bool { (d: Driver) => d.id == id }
  function IsAvailable(d: Driver): bool { d.isAvailable }

  // ----- auth -----

  /** The first user with this email; the password is never looked at. */
  function Login(users: seq<User>, email: string, password: string): (r: Result<User>)
    ensures r.Err? <==> !Registered(users, email)
    ensures r.Err? ==> r.message == "Invalid credentials"
    ensures r.Ok? ==> r.value.email == email
    ensures r.Ok? ==> exists i :: 0 <= i < |users| && users[i] == r.value &&
                                  forall j :: 0 <= j < i ==> users[j].email != email
  {
    match FirstIndex(users, HasEmail(email))
    case Some(i) => Ok(users[i])
    case None => Err("Invalid credentials")
  }

  /** When emails are distinct, logging in with a stored user's email answers that user. */
  lemma LoginFindsOwner(users: seq<User>, k: nat, password: string)
    requires EmailsDistinct(users)
    requires k < |users|
    ensures Login(users, users[k].email, password) == Ok(users[k])
  {
    var r := Login(users, users[k].email, password);
    assert Registered(users, users[k].email);
    var i :| 0 <= i < |users| && users[i] == r.value &&
             forall j :: 0 <= j < i ==> users[j].email != users[k].email;
    assert !(k < i);
    assert !(i < k);
  }

  /** Appending a user whose email is not registered keeps the emails distinct. */
  lemma AppendFreshEmailKeepsDistinct(users: seq<User>, u: User)
    requires EmailsDistinct(users)
    requires !Registered(users, u.email)
    ensures EmailsDistinct(users + [u])
  {
    var s := users + [u];
    forall i, j | 0 <= i < j < |s|
      ensures s[i].email != s[j].email
    {
      if j == |users| {
        assert s[i] == users[i];
      }
    }
  }

  // ----- rides -----

  /** The catalog entry with this id, as the lookup at the start of requestRide finds it. */
  function LookupRideType(catalog: seq<RideType>, rideTypeId: string): (r: Option<RideType>)
    ensures r.None? <==> forall i :: 0 <= i < |catalog| ==> catalog[i].id != rideTypeId
    ensures r.Some? ==> r.value in catalog && r.value.id == rideTypeId
    ensures r.Some? ==> exists i :: 0 <= i < |catalog| && catalog[i] == r.value &&
                                    forall j :: 0 <= j < i ==> catalog[j].id != rideTypeId
  {
    match FirstIndex(catalog, HasRideTypeId(rideTypeId))
    case Some(i) => Some(catalog[i])
    case None => None
  }

  ghost predicate RideTypeIdsDistinct(catalog: seq<RideType>)
  {
    forall i, j :: 0 <= i < j < |catalog| ==> catalog[i].id != catalog[j].id
  }

  /** In a catalog with distinct ids, every entry is found under its own id. */
  lemma LookupFindsEntry(catalog: seq<RideType>, k: nat)
    requires RideTypeIdsDistinct(catalog)
    requires k < |catalog|
    ensures LookupRideType(catalog, catalog[k].id) == Some(catalog[k])
  {
    var i := FirstIndex(catalog, HasRideTypeId(catalog[k].id));
    assert i.Some?;
    assert !(k < i.value);
    assert !(i.value < k);
  }

  /** The seeded catalog has distinct ids, so each of its entries is found, and none has a negative price. */
  lemma SeedCatalogWellFormed()
    ensures forall k :: 0 <= k < |SeedRideTypes| ==>
              LookupRideType(SeedRideTypes, SeedRideTypes[k].id) == Some(SeedRideTypes[k])
    ensures forall rt :: rt in SeedRideTypes ==> rt.basePrice >= 0.0 && rt.pricePerKm >= 0.0
  {
    assert RideTypeIdsDistinct(SeedRideTypes);
    forall k | 0 <= k < |SeedRideTypes|
      ensures LookupRideType(SeedRideTypes, SeedRideTypes[k].id) == Some(SeedRideTypes[k])
    {
      LookupFindsEntry(SeedRideTypes, k);
    }
  }

  /** The rides of one user, in the order they were requested. */
  function GetRides(rides: seq<Ride>, userId: string): (r: seq<Ride>)
    ensures forall x :: x in r <==> x in rides && x.userId == userId
    ensures forall x :: multiset(r)[x] == (if x.userId == userId then multiset(rides)[x] else 0)
    ensures IsSubsequence(r, rides)
  {
    Filter(rides, RideOfUser(userId))
  }

  /** After a ride is appended, its user's history gains it at the end and nobody else's changes. */
  lemma GetRidesAfterAppend(rides: seq<Ride>, ride: Ride, userId: string)
    ensures GetRides(rides + [ride], userId) ==
            GetRides(rides, userId) + (if ride.userId == userId then [ride] else [])
  {
    FilterAppend(rides, [ride], RideOfUser(userId));
    FilterSingleton(ride, RideOfUser(userId));
  }

  function GetRide(rides: seq<Ride>, rideId: string): (r: Result<Ride>)
    ensures r.Err? <==> forall i :: 0 <= i < |rides| ==> rides[i].id != rideId
    ensures r.Err? ==> r.message == "Ride not found"
    ensures r.Ok? ==> r.value in rides && r.value.id == rideId
    ensures r.Ok? ==> exists i :: 0 <= i < |rides| && rides[i] == r.value &&
                                  forall j :: 0 <= j < i ==> rides[j].id != rideId
  {
    match FirstIndex(rides, HasRideId(rideId))
    case Some(i) => Ok(rides[i])
    case None => Err("Ride not found")
  }

  /** Ride ids generated from positions never repeat. */
  lemma RideIdsUnique(rides: seq<Ride>)
    requires RideIdsPositional(rides)
    ensures forall i, j :: 0 <= i < |rides| && 0 <= j < |rides| && rides[i].id == rides[j].id ==> i == j
  {
    PositionalIdsUnique(rides, (r: Ride) => r.id, "ride");
  }

  /** User ids generated from positions never repeat. */
  lemma UserIdsUnique(users: seq<User>)
    requires UserIdsPositional(users)
    ensures forall i, j :: 0 <= i < |users| && 0 <= j < |users| && users[i].id == users[j].id ==> i == j
  {
    PositionalIdsUnique(users, (u: User) => u.id, "user");
  }

  /** Payment ids generated from positions never repeat. */
  lemma PaymentIdsUnique(payments: seq<Payment>)
    requires PaymentIdsPositional(payments)
    ensures forall i, j :: 0 <= i < |payments| && 0 <= j < |payments| && payments[i].id == payments[j].id ==> i == j
  {
    PositionalIdsUnique(payments, (p: Payment) => p.id, "payment");
  }

  /** The ride numbered k is found under its id, and an id numbered past the end is not found. */
  lemma GetRideByNumber(rides: seq<Ride>, k: nat)
    requires RideIdsPositional(rides)
    ensures 1 <= k <= |rides| ==> GetRide(rides, RideId(k)) == Ok(rides[k - 1])
    ensures k == 0 || |rides| < k ==> GetRide(rides, RideId(k)) == Err("Ride not found")
  {
    RideIdsUnique(rides);
    forall i | 0 <= i < |rides| && rides[i].id == RideId(k)
      ensures i + 1 == k
    {
      MakeIdInjective("ride", i + 1, k);
    }
  }

  /** Pushing a ride numbered after the last keeps the numbering, and the new ride is found under its id. */
  lemma AppendRideKeepsIds(rides: seq<Ride>, ride: Ride)
    requires RideIdsPositional(rides)
    requires ride.id == RideId(|rides| + 1)
    ensures RideIdsPositional(rides + [ride])
    ensures GetRide(rides + [ride], ride.id) == Ok(ride)
  {
    var s := rides + [ride];
    assert forall i :: 0 <= i < |rides| ==> s[i] == rides[i];
    GetRideByNumber(s, |s|);
  }

  /** Pushing a ride shaped as requestRide shapes it keeps every stored ride in that shape. */
  lemma AppendRideKeepsShape(rides: seq<Ride>, ride: Ride, catalog: seq<RideType>)
    requires forall i :: 0 <= i < |rides| ==> RideAsRequested(rides[i], catalog)
    requires RideAsRequested(ride, catalog)
    ensures forall i :: 0 <= i < |rides + [ride]| ==> RideAsRequested((rides + [ride])[i], catalog)
  {
    var s := rides + [ride];
    forall i | 0 <= i < |s|
      ensures RideAsRequested(s[i], catalog)
    {
      if i < |rides| {
        assert s[i] == rides[i];
      }
    }
  }

  // ----- drivers -----

  /** The drivers flagged available, in store order; the location is not used. */
  function GetAvailableDrivers(drivers: seq<Driver>, location: Location): (r: seq<Driver>)
    ensures forall d :: d in r <==> d in drivers && d.isAvailable
    ensures forall d :: multiset(r)[d] == (if d.isAvailable then multiset(drivers)[d] else 0)
    ensures IsSubsequence(r, drivers)
  {
    Filter(drivers, IsAvailable)
  }

  function TrackDriver(drivers: seq<Driver>, driverId: string): (r: Result<Driver>)
    ensures r.Err? <==> forall i :: 0 <= i < |drivers| ==> drivers[i].id != driverId
    ensures r.Err? ==> r.message == "Driver not found"
    ensures r.Ok? ==> r.value in drivers && r.value.id == driverId
    ensures r.Ok? ==> exists i :: 0 <= i < |drivers| && drivers[i] == r.value &&
                                  forall j :: 0 <= j < i ==> drivers[j].id != driverId
  {
    match FirstIndex(drivers, HasDriverId(driverId))
    case Some(i) => Ok(drivers[i])
    case None => Err("Driver not found")
  }

  /** The driver every ride is given is in the seeded store, so tracking a stored ride's driver succeeds. */
  lemma AssignedDriverTrackable(location: Location)
    ensures TrackDriver(SeedDrivers, AssignedDriverId) == Ok(SeedDriver)
    ensures GetAvailableDrivers(SeedDrivers, location) == [SeedDriver]
  {
    assert SeedDrivers[0].id == AssignedDriverId;
    assert Filter(SeedDrivers[1..], IsAvailable) == [];
  }

  // ----- The store -----

  class MockBackend {
    var users: seq<User>
    var rideTypes: seq<RideType>
    var drivers: seq<Driver>
    var rides: seq<Ride>
    var payments: seq<Payment>

    ghost predicate Valid()
      reads this
    {
      && UserIdsPositional(users)
      && EmailsDistinct(users)
      && RideIdsPositional(rides)
      && (forall i :: 0 <= i < |rides| ==> RideAsRequested(rides[i], rideTypes))
      && PaymentIdsPositional(payments)
    }

    /** The arrays as the module initialises them; `loadedAt` is the clock reading of the seeded user. */
    constructor (loadedAt: Instant)
      ensures Valid()
      ensures users == SeedUsers(loadedAt)
      ensures rideTypes == SeedRideTypes && drivers == SeedDrivers
      ensures rides == [] && payments == []
    {
      users := SeedUsers(loadedAt);
      rideTypes := SeedRideTypes;
      drivers := SeedDrivers;
      rides := [];
      payments := [];
      assert Decimal(1) == "1";
    }

    method Signup(email: string, password: string, name: string, phone: string, now: Instant)
      returns (r: Result<User>)
      requires Valid()
      modifies this
      ensures Valid()
      ensures rideTypes == old(rideTypes) && drivers == old(drivers)
      ensures rides == old(rides) && payments == old(payments)
      ensures Registered(old(users), email) ==> r == Err("User already exists") && users == old(users)
      ensures !Registered(old(users), email) ==>
                r == Ok(User(UserId(|old(users)| + 1), email, name, phone, now)) &&
                users == old(users) + [r.value]
      ensures r.Ok? ==> forall pw :: Login(users, email, pw) == Ok(r.value)
    {
      if FirstIndex(users, HasEmail(email)).Some? {
        return Err("User already exists");
      }
      var u := User(UserId(|users| + 1), email, name, phone, now);
      AppendFreshEmailKeepsDistinct(users, u);
      users := users + [u];
      r := Ok(u);
      forall pw
        ensures Login(users, email, pw) == Ok(u)
      {
        LoginFindsOwner(users, |users| - 1, pw);
      }
    }

    method RequestRide(
      userId: string,
      pickupLocation: Location,
      dropoffLocation: Location,
      rideTypeId: string,
      distance: real,
      createdAt: Instant,
      updatedAt: Instant)
      returns (r: Result<Ride>)
      requires Valid()
      requires IsScaledDistance(pickupLocation, dropoffLocation, distance)
      modifies this
      ensures Valid()
      ensures users == old(users) && rideTypes == old(rideTypes)
      ensures drivers == old(drivers) && payments == old(payments)
      ensures LookupRideType(rideTypes, rideTypeId).None? ==>
                r == Err("Invalid ride type") && rides == old(rides)
      ensures LookupRideType(rideTypes, rideTypeId).Some? ==>
                var rt := LookupRideType(rideTypes, rideTypeId).value;
                && r.Ok?
                && r.value == Ride(
                     RideId(|old(rides)| + 1), userId, AssignedDriverId, pickupLocation, dropoffLocation,
                     rt, Requested, createdAt, updatedAt,
                     Price(rt, distance), distance, Duration(distance))
                && rides == old(rides) + [r.value]
      ensures r.Ok? ==> GetRide(rides, r.value.id) == Ok(r.value)
      ensures r.Ok? ==> GetRides(rides, userId) == GetRides(old(rides), userId) + [r.value]
    {
      var found := LookupRideType(rideTypes, rideTypeId);
      if found.None? {
        return Err("Invalid ride type");
      }
      var rideType := found.value;
      var ride := Ride(
        RideId(|rides| + 1), userId, AssignedDriverId, pickupLocation, dropoffLocation,
        rideType, Requested, createdAt, updatedAt,
        Price(rideType, distance), distance, Duration(distance));
      GetRidesAfterAppend(rides, ride, userId);
      AppendRideKeepsIds(rides, ride);
      AppendRideKeepsShape(rides, ride, rideTypes);
      rides := rides + [ride];
      r := Ok(ride);
    }

    method CreatePayment(rideId: string, amount: real, paymentMethod: PaymentMethod, createdAt: Instant)
      returns (p: Payment)
      requires Valid()
      modifies this
      ensures Valid()
      ensures users == old(users) && rideTypes == old(rideTypes)
      ensures drivers == old(drivers) && rides == old(rides)
      ensures p == Payment(PaymentId(|old(payments)| + 1), rideId, amount, PaymentStatus.Completed, paymentMethod, createdAt)
      ensures payments == old(payments) + [p]
    {
      p := Payment(PaymentId(|payments| + 1), rideId, amount, PaymentStatus.Completed, paymentMethod, createdAt);
      payments := payments + [p];
    }
  }
}
