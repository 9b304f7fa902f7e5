# Ride-hailing mock backend, modelled in Dafny

The repository is a ride-hailing demo client. Its only deterministic domain logic is the in-memory
mock backend in `src/services/api.ts`. That backend keeps five module-level arrays: users, ride
types, drivers, rides and payments. It offers these calls:

- **auth**: `login` finds a user by email. `signup` refuses an email that is already stored, and
  otherwise pushes a new user whose id is `user<n+1>`.
- **rides**: `getRideTypes` returns the catalog. `requestRide` looks up the ride type, computes
  distance, price and duration, and pushes a new ride `ride<n+1>`. `getRides` filters the rides by
  user. `getRide` finds a ride by id.
- **drivers**: `getAvailableDrivers` filters on the availability flag. `trackDriver` finds a driver
  by id.
- **payments**: `createPayment` pushes a completed payment `payment<n+1>`.

The model is laid out like this:

- `types.dfy` (module `Types`) holds the record shapes of `src/types/index.ts`, plus `Option` and
  `Result`. `Result.Err` carries the message of the `Error` a call throws.
- `collections.dfy` (module `Collections`) holds `Array.prototype.find` as `FirstIndex` and
  `Array.prototype.filter` as `Filter`. Both are generic over a total predicate.
- `ids.dfy` (module `Ids`) holds the ids built from a template literal: a prefix followed by the
  decimal digits of a number. `DecimalValue` reads the digits back.
- `fare.dfy` (module `Fare`) holds the distance, price and duration rule of `requestRide`.
- `api.dfy` (module `Api`) holds the seed data and the read-only calls. The read-only calls are
  functions of the array contents they read. The same module holds the class `MockBackend`: its
  five `seq` fields are the five arrays, and its methods `Signup`, `RequestRide` and `CreatePayment`
  push onto them. `Valid()` is the invariant that every method keeps:
  - the id of the element at position i is numbered i + 1;
  - user emails are pairwise distinct;
  - every stored ride still looks exactly as `requestRide` built it.
- `scenario.dfy` (module `Scenario`) holds client methods. They use only the contracts: sign up
  and log in, refuse an unknown ride type, book a 0.5 km economy ride for 5.75, then track its
  driver and pay.

`getRideTypes` (`src/services/api.ts:91-93`) returns the catalog array itself. In the model that is
the `rideTypes` field, which every method leaves unchanged.

The code does not do the following, and neither does the model:

- Drivers are not ranked by distance or rating. The `location` argument of `getAvailableDrivers` is
  ignored.
- Every ride is given the driver `driver1`, whether or not that driver is available. No driver is
  ever marked unavailable or released.
- There is no ride-status transition. Every stored ride stays `requested`, and `Valid()` states this.
- `createPayment` cannot fail. It does not check that the ride exists or that the amount is
  positive.
- Coordinates are not checked for being finite.

## Model

| member | source | states |
|---|---|---|
| `Collections.FirstIndex` | src/services/api.ts:64 | the position `find` stops at: the first element satisfying the predicate, and none exactly when no element satisfies it |
| `Collections.Filter` | src/services/api.ts:132 | `filter` keeps every occurrence of each element satisfying the predicate and none of the others (equal multisets), as a subsequence of the input (order kept) |
| `Collections.FilterSingleton` | src/services/api.ts:132 | a one-element array is kept exactly when its element satisfies the predicate |
| `Collections.FilterAppend` | src/services/api.ts:132 | filtering a concatenation is the concatenation of the filtered parts, so the original order is kept |
| `Ids.Decimal` | src/services/api.ts:78 | the canonical decimal form a template literal prints: non-empty, only the digits 0-9, and no leading zero except for 0 itself |
| `Ids.DecimalRoundTrip` | src/services/api.ts:78 | reading the printed digits back gives the number again |
| `Ids.MakeIdInjective` | src/services/api.ts:113 | two ids with the same prefix are equal exactly when their numbers are |
| `Ids.PositionalIdsUnique` | src/services/api.ts:78 | in any array whose element at position i carries `prefix` + (i + 1), no two positions share an id |
| `Fare.SquaredOffsetZero` | src/services/api.ts:107-110 | the sum of the squared coordinate differences is non-negative, and zero exactly when both coordinates agree |
| `Fare.DistanceZeroIffSamePoint` | src/services/api.ts:107-110 | the distance (100 times the Euclidean distance) is zero exactly when pickup and dropoff have the same lat and lng |
| `Fare.DistanceDetermined` | src/services/api.ts:107-110 | at most one non-negative value satisfies the distance equation, so the distance is a function of the two points |
| `Fare.DistanceSymmetric` | src/services/api.ts:107-110 | swapping pickup and dropoff gives the same distance |
| `Fare.SamePointCostsBasePrice` | src/services/api.ts:122-124 | a ride whose pickup and dropoff coordinates agree costs exactly the base price and has zero duration |
| `Fare.FareMonotone` | src/services/api.ts:122-124 | with a non-negative per-km rate, the price is at least the base price, and price and duration do not decrease as the distance grows |
| `Api.Login` | src/services/api.ts:63-69 | answers the first user whose email matches; fails with "Invalid credentials" exactly when no user has that email; the password plays no part |
| `Api.LoginFindsOwner` | src/services/api.ts:64-68 | when emails are distinct, logging in with a stored user's email answers that very user, whatever the password |
| `Api.AppendFreshEmailKeepsDistinct` | src/services/api.ts:72-85 | pushing a user whose email is not yet stored keeps the emails pairwise distinct |
| `Api.LookupRideType` | src/services/api.ts:101-104 | the first catalog entry with the requested id; none exactly when no entry has that id |
| `Api.LookupFindsEntry` | src/services/api.ts:101 | in a catalog with distinct ids, each entry is found under its own id |
| `Api.SeedCatalogWellFormed` | src/services/api.ts:14-39 | the seeded catalog (economy, premium, xl) finds each entry under its id, and no price in it is negative |
| `Api.GetRides` | src/services/api.ts:131-133 | the result holds every stored ride of that user, as often as it is stored, and no other ride, in insertion order |
| `Api.GetRidesAfterAppend` | src/services/api.ts:127-132 | after a push, the pushing user's history gains the new ride at the end, and every other user's history is unchanged |
| `Api.GetRide` | src/services/api.ts:135-141 | answers the first ride with that id; fails with "Ride not found" exactly when no stored ride has it |
| `Api.RideIdsUnique` | src/services/api.ts:113 | ride ids numbered by position never repeat |
| `Api.UserIdsUnique` | src/services/api.ts:78 | user ids numbered by position never repeat |
| `Api.PaymentIdsUnique` | src/services/api.ts:162 | payment ids numbered by position never repeat |
| `Api.GetRideByNumber` | src/services/api.ts:135-141 | with positional ids, id `ride<k>` finds the k-th ride, and a number outside 1..n is not found |
| `Api.AppendRideKeepsIds` | src/services/api.ts:113-127 | pushing the ride numbered n + 1 keeps the numbering, and the new ride is then found under its id |
| `Api.AppendRideKeepsShape` | src/services/api.ts:112-127 | pushing a ride built the way `requestRide` builds it keeps every stored ride in that shape |
| `Api.GetAvailableDrivers` | src/services/api.ts:145-148 | the result holds every driver flagged available, as often as it is stored, and no other driver, in store order; the location is ignored |
| `Api.TrackDriver` | src/services/api.ts:150-156 | answers the first driver with that id; fails with "Driver not found" exactly when no driver has it |
| `Api.AssignedDriverTrackable` | src/services/api.ts:41-54 | the hard-wired `driver1` is the seeded driver, so tracking a stored ride's driver succeeds; that driver is the only available one |
| `Api.MockBackend.constructor` | src/services/api.ts:4-58 | the five arrays hold the seed data (one user, three ride types, one driver, no rides, no payments), and the invariant holds |
| `Api.MockBackend.Signup` | src/services/api.ts:71-87 | for a stored email: fails with "User already exists" and changes nothing. Otherwise: pushes exactly one user `user<n+1>` with the given email, name and phone, keeps earlier users and the other arrays, keeps emails distinct, and `login` with that email and any password then answers the new user |
| `Api.MockBackend.RequestRide` | src/services/api.ts:95-129 | for an unknown ride type: fails with "Invalid ride type" and changes nothing. Otherwise: pushes exactly one ride `ride<n+1>` with status requested, driver `driver1`, the catalog entry, price = basePrice + distance * pricePerKm and duration = 2 * distance. The new ride is then found by `getRide` and ends its user's `getRides`; the other arrays are unchanged |
| `Api.MockBackend.CreatePayment` | src/services/api.ts:160-172 | never fails; pushes exactly one payment `payment<n+1>` with status completed and the given ride id, amount and method; nothing else changes |
| `Scenario.TripDistance` | src/services/api.ts:107-110 | a 0.003 by 0.004 degree offset gives a distance of 0.5 |
| `Scenario.SignUpAndLogIn` | src/services/api.ts:63-87 | on the seeded store, a new rider becomes `user2`. A second signup with that email is refused, and login with another password answers the rider |
| `Scenario.RefuseUnknownRideType` | src/services/api.ts:101-104 | requesting ride type "bike" fails with "Invalid ride type" and stores no ride |
| `Scenario.SingleRideStore` | src/services/api.ts:131-141 | in a store holding one ride, that ride is its user's whole history and is found by its id |
| `Scenario.BookEconomyRide` | src/services/api.ts:112-141 | a 0.5 km economy ride becomes `ride1`: requested, driver `driver1`, price 5.75, duration 1. It is the user's whole history and is found by id |
| `Scenario.TrackAndPay` | src/services/api.ts:150-172 | the booked ride's driver tracks to the seeded driver, and paying its price by card gives the completed payment `payment1` |

## Left out

- `Math.sqrt` and `Math.pow` (src/services/api.ts:107-110) are floating point. `RequestRide` takes the distance as a parameter instead. Its precondition `IsScaledDistance` is the defining equation: a non-negative number whose square is 100² times the sum of the squared coordinate differences. IEEE rounding is not modelled; coordinates and money are reals.
- `new Date()` is a clock read. Every timestamp is a parameter of type `Instant`. `requestRide` reads the clock twice, so `RequestRide` takes `createdAt` and `updatedAt` separately.
- `async`/`Promise` are left out. No call awaits anything, so each call is modelled as one synchronous step.
- Aliasing is left out. The source returns the stored objects themselves, and `getRideTypes` returns the catalog array itself, so a caller could mutate the store through them. The model returns values.
- Two fields are renamed because their names are reserved words in Dafny. `Location.label` is `placeLabel`, and `Payment.method` is `paymentMethod`.
- `AuthError` and `ApiError` (src/types/index.ts:58-68) are never constructed by the backend, so they are not modelled. Errors are `Err(message)` with the source's exact messages.
- The page and component code, the `useRides`/`useDrivers`/`usePayments`/`useAuth` hooks, `localStorage`, the timers, the styling and `tailwind.config.js` are not part of this model.
