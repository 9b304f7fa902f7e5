/** Clients of the backend: what a caller can conclude from the contracts alone. */
module Scenario {
  import opened Types
  import opened Collections
  import opened Ids
  import opened Fare
  import opened Api

  const Pickup: Location := Location(37.7749, -122.4194, "Market St", None)
  const Dropoff: Location := Location(37.7779, -122.4154, "Mission St", None)

  /** A 0.003 by 0.004 degree offset is 0.5 km once scaled. */
  lemma TripDistance()
    ensures IsScaledDistance(Pickup, Dropoff, 0.5)
  {
    assert Sq(Pickup.lat - Dropoff.lat) == 0.000009;
    assert Sq(Pickup.lng - Dropoff.lng) == 0.000016;
    assert Sq(Scale) == 10000.0;
    assert Sq(0.5) == 0.25;
  }

  /** The first generated ids of each kind, as the template literal prints them. */
  lemma FirstIds()
    ensures UserId(2) == "user2" && RideId(1) == "ride1" && PaymentId(1) == "payment1"
  {
    assert Decimal(1) == "1";
    assert Decimal(2) == "2";
  }

  /** The economy fare for the 0.5 km trip. */
  lemma EconomyFare()
    ensures Price(Economy, 0.5) == 5.75 && Duration(0.5) == 1.0
  {
  }

  /** A new rider signs up, a second signup with the same email is refused, and login ignores the password. */
  method SignUpAndLogIn() returns (user: User, again: Result<User>, login: Result<User>)
    ensures user.id == "user2" && user.email == "rider@example.com"
    ensures again == Err("User already exists")
    ensures login == Ok(user)
  {
    var api := new MockBackend(0);
    assert !Registered(api.users, "rider@example.com");
    var signed := api.Signup("rider@example.com", "secret", "Rider", "+15550100", 1);
    FirstIds();
    assert signed.Ok?;
    user := signed.value;

    assert api.users[1].email == "rider@example.com";
    again := api.Signup("rider@example.com", "other", "Someone", "+15550101", 2);
    login := Login(api.users, "rider@example.com", "not-the-password");
  }

  /** A ride type missing from the catalog is refused and no ride is stored. */
  method RefuseUnknownRideType() returns (refused: Result<Ride>, stored: seq<Ride>)
    ensures refused == Err("Invalid ride type") && stored == []
  {
    var api := new MockBackend(0);
    TripDistance();
    assert LookupRideType(api.rideTypes, "bike").None?;
    refused := api.RequestRide("user1", Pickup, Dropoff, "bike", 0.5, 3, 3);
    stored := api.rides;
  }

  /** In a store holding a single ride, that ride is its user's whole history and is found by its id. */
  lemma SingleRideStore(ride: Ride)
    ensures GetRides([ride], ride.userId) == [ride]
    ensures GetRide([ride], ride.id) == Ok(ride)
  {
    FilterSingleton(ride, RideOfUser(ride.userId));
  }

  /** The seeded user books an economy ride of 0.5 km and finds it in the history and by id. */
  method BookEconomyRide() returns (ride: Ride, history: seq<Ride>, found: Result<Ride>)
    ensures ride.id == "ride1" && ride.userId == "user1" && ride.driverId == "driver1"
    ensures ride.status == Requested && ride.price == 5.75 && ride.duration == 1.0
    ensures history == [ride] && found == Ok(ride)
  {
    var api := new MockBackend(0);
    TripDistance();
    assert LookupRideType(api.rideTypes, "economy") == Some(Economy);
    var requested := api.RequestRide("user1", Pickup, Dropoff, "economy", 0.5, 4, 4);
    ride := requested.value;
    FirstIds();
    EconomyFare();
    assert api.rides == [ride];
    SingleRideStore(ride);
    history := GetRides(api.rides, "user1");
    found := GetRide(api.rides, ride.id);
  }

  /** After a booking, the ride's driver can be tracked and the ride paid for. */
  method TrackAndPay() returns (driver: Driver, payment: Payment)
    ensures driver == SeedDriver
    ensures payment.id == "payment1" && payment.amount == 5.75
    ensures payment.status == PaymentStatus.Completed && payment.paymentMethod == Card
  {
    var api := new MockBackend(0);
    TripDistance();
    assert LookupRideType(api.rideTypes, "economy") == Some(Economy);
    var requested := api.RequestRide("user1", Pickup, Dropoff, "economy", 0.5, 4, 4);
    var ride := requested.value;
    AssignedDriverTrackable(Pickup);
    var tracked := TrackDriver(api.drivers, ride.driverId);
    driver := tracked.value;
    FirstIds();
    EconomyFare();
    payment := api.CreatePayment(ride.id, ride.price, Card, 5);
  }
}
