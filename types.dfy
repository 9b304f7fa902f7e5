/** Record shapes of the ride-hailing backend, and the wrappers used for its answers. */
module Types {

  /** A point in time as given by the JavaScript clock (milliseconds); the model never inspects it. */
  type Instant = int

  datatype Option<T> = None | Some(value: T)

  /** The answer of an API call: a value, or the message of the Error the call throws. */
  datatype Result<T> = Ok(value: T) | Err(message: string)

  /** `placeLabel` is the optional field the source calls `label`, a reserved word in Dafny. */
  datatype Location = Location(lat: real, lng: real, address: string, placeLabel: Option<string>)

  datatype User = User(id: string, email: string, name: string, phone: string, createdAt: Instant)

  datatype RideType = RideType(
    id: string,
    name: string,
    description: string,
    basePrice: real,
    pricePerKm: real,
    icon: string)

  datatype RideStatus = Requested | Accepted | InProgress | Completed | Cancelled

  datatype Ride = Ride(
    id: string,
    userId: string,
    driverId: string,
    pickupLocation: Location,
    dropoffLocation: Location,
    rideType: RideType,
    status: RideStatus,
    createdAt: Instant,
    updatedAt: Instant,
    price: real,
    distance: real,
    duration: real)

  datatype Driver = Driver(
    id: string,
    name: string,
    vehicle: string,
    rating: real,
    location: Location,
    isAvailable: bool)

  datatype PaymentStatus = Pending | Completed | Failed

  datatype PaymentMethod = Card | Wallet | Cash

  /** `paymentMethod` is the field the source calls `method`, a reserved word in Dafny. */
  datatype Payment = Payment(
    id: string,
    rideId: string,
    amount: real,
    status: PaymentStatus,
    paymentMethod: PaymentMethod,
    createdAt: Instant)
}
