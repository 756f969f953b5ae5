# Vehicle rental booking service, modelled in Dafny

This project models the booking service of a vehicle rental backend. The service has three operations:

- `createBooking` refuses a missing or unavailable vehicle. Otherwise it prices the rental window in whole days, rounded up, and inserts one `active` booking.
- `getAllBookings` returns every booking to an admin. Any other caller gets only the bookings where they are the customer, and those rows carry no customer data.
- `updateBooking` lets a customer cancel their own booking before the rental starts, and lets an admin mark any booking returned. On success it writes the booking's status and then sets the booking's vehicle to `available`.

The SQL store is modelled as two in-memory tables held by the class `Store`:

- `vehicles`: vehicle id → daily price, availability status and display fields.
- `bookings`: booking id → customer, vehicle, start and end in milliseconds, total price, status.

The bookings id sequence is the field `nextBookingId`. `CreateBooking` and `UpdateBooking` are methods that change these fields. `GetAllBookings` is a function that only reads them. Errors are the `Error` datatype, one variant per message the service throws, returned in a `Result`.

Files:

- `wrappers.dfy`: `Option` and `Result`.
- `booking_service.dfy`: module `BookingService`, which holds the rows, the pricing, the listings, the update decision and the `Store`.

Behaviour of the code worth knowing:

- `updateBooking` never reads the booking's current status. A returned booking can still be cancelled, and a cancelled one can still be returned (`ClosedBookingsReopenable`). So `cancelled` and `returned` are not terminal states here.
- `createBooking` never marks the vehicle unavailable: `vehicles` is unchanged on every path.
- Nothing requires the end date to come after the start date. The day count and the price can therefore be zero or negative.
- The admin listing is an inner join with `users` and `vehicles`, and the customer listing an inner join with `vehicles`. A booking whose customer or vehicle row is missing is left out of the listing. With intact references nothing is left out (`AdminSeesEveryBooking`, `CustomerSeesAllOwn`).
- Any role other than `admin` gets the customer listing in `getAllBookings`. In `updateBooking`, any role other than `customer` or `admin` gets `Unauthorized`.

The method `ForeignCancelScenario` is a client of `Store`. Customer 7 asks to cancel booking 12, which belongs to customer 9. From the contracts alone it proves that the answer is `AccessForbidden` and that both tables stay as they were.

## Model

| member | source | states |
|---|---|---|
| `BookingService.RentDays` | src/modules/bookings/booking.service.ts:21-26 | the day count is the ceiling of the window over 86 400 000 ms: `(days-1)·DAY < end-start ≤ days·DAY`, for any sign of the window |
| `BookingService.TotalPrice` | src/modules/bookings/booking.service.ts:29 | at a non-negative daily price, the price times one day covers the window at the daily rate: `(end-start)·rate ≤ price·DAY`; at a positive daily price it overshoots by less than one day's rent: `price·DAY < (end-start)·rate + rate·DAY` |
| `BookingService.PartialDayBilledInFull` | src/modules/bookings/booking.service.ts:21-29 | every window of more than `k-1` and at most `k` days counts as `k` days and costs `k` times the daily price, so a partial day is billed as a whole one |
| `BookingService.PriceExamples` | src/modules/bookings/booking.service.ts:21-29 | 3 days at 100 cost 300; 2.5 days cost 300; an empty window costs 0; an end one day before the start costs -100 |
| `BookingService.PriceMonotone` | src/modules/bookings/booking.service.ts:21-29 | at a non-negative daily price, moving the end later never lowers the total price |
| `BookingService.AdminBookings` | src/modules/bookings/booking.service.ts:60-83 | the admin rows are exactly the bookings whose customer and vehicle rows exist; each row holds the whole booking, the customer's name and email, and the vehicle's name and registration |
| `BookingService.CustomerBookings` | src/modules/bookings/booking.service.ts:87-105 | the customer rows are exactly the bookings of that customer whose vehicle exists; each row holds the booking's columns except the customer id, plus the vehicle's name, registration and type |
| `BookingService.AdminSeesEveryBooking` | src/modules/bookings/booking.service.ts:78-80 | when every booking's customer and vehicle exist, the admin listing holds every booking id |
| `BookingService.CustomerSeesAllOwn` | src/modules/bookings/booking.service.ts:100-103 | when every booking's vehicle exists (part of `PricesAgree`, which both store methods preserve), the customer listing's ids are exactly the ids of that customer's bookings |
| `BookingService.InsertInvisibleToOthers` | src/modules/bookings/booking.service.ts:100-103 | inserting a booking for one customer under a fresh id leaves every other customer's listing equal to what it was |
| `BookingService.InsertVisibleToOwner` | src/modules/bookings/booking.service.ts:33-41 | a new booking of an existing vehicle is added to its customer's listing, and the rows already there stay the same |
| `BookingService.MarkAvailable` | src/modules/bookings/booking.service.ts:171-176 | the vehicles write keeps the same set of ids; only the named vehicle (if it exists) changes, and only its availability, which becomes `available` |
| `BookingService.Refusal` | src/modules/bookings/booking.service.ts:143-208 | for each error, the exact condition under which it is raised: a customer is checked for ownership, then for status `cancelled`, then for a start strictly after now; an admin only for status `returned`; any other role gets `Unauthorized`; there is no error exactly when one of the two permitted cases holds |
| `BookingService.RefusalIgnoresCurrentStatus` | src/modules/bookings/booking.service.ts:136-159 | the decision does not depend on the booking's stored status |
| `BookingService.ClosedBookingsReopenable` | src/modules/bookings/booking.service.ts:143-198 | a returned booking can be cancelled by its owner before the start, and a cancelled booking can be returned by an admin |
| `BookingService.UpdateVisibleAsStatusOnly` | src/modules/bookings/booking.service.ts:162-176 | after a successful update's two writes, each customer listing differs from before at most in the status of the updated row |
| `BookingService.Store.CreateBooking` | src/modules/bookings/booking.service.ts:5-53 | a missing vehicle gives `VehicleNotFound` and an unavailable one gives `VehicleNotAvailable`, both with no change; otherwise exactly one new row is added under a fresh id, holding the given customer, vehicle and dates, the `TotalPrice` of the window and status `active`; the existing bookings stay the same; the created row and the vehicle's name and price are returned; `vehicles` never changes; `PricesAgree` (every booking priced at its vehicle's rate) is preserved |
| `BookingService.Store.GetAllBookings` | src/modules/bookings/booking.service.ts:58-106 | an admin gets the admin listing of the whole store; any other caller gets their own customer listing, and every row in it is a booking of theirs |
| `BookingService.Store.UpdateBooking` | src/modules/bookings/booking.service.ts:114-209 | an id that does not parse gives `InvalidBookingId`, and a missing booking gives `BookingNotFound`; otherwise the error is `Refusal`'s; every error leaves both tables unchanged; a success sets only that booking's status to the requested one and only its vehicle to available; it returns the updated row, and on the admin path also the inline availability `available` |

## Left out

- The connection pool, the SQL text and the `json_build_object` projections are not modelled. Queries are map lookups and map updates, and projections are record constructors.
- The users table belongs to the authentication subsystem. The admin listing takes it as a parameter, and only the name and email it joins in are modelled.
- Parsing dates with JavaScript `Date` is not modelled; dates are integer milliseconds. NaN from an invalid date is not modelled either.
- `Date.now()`: the clock is the `nowMs` parameter.
- The conversion of a booking id with `Number(...)` and its `isNaN` test are not modelled. The parse is the parameter `parseId`, which returns an `Option<int>`. A string that `Number` turns into a non-integer, an infinity or a value outside the integer column's range is not represented. For such an id the database rejects the query's parameter with an error, and that database error is not modelled.
- `Math.ceil` is applied to a floating-point quotient in the source. The model uses exact integer ceiling division instead, so floating-point rounding of that quotient is not modelled.
- The daily price is an integer, and decimal prices are not modelled.
- Any role string other than `customer` or `admin` is one value, `OtherRole`.
- A requested status outside `"cancelled" | "returned"` is excluded by the parameter's type, as the TypeScript type excludes it.
- The two writes of an update are not wrapped in a transaction, and concurrent requests can race. The model treats each call as atomic and sequential, so neither the gap between the writes nor races are modelled.
- `src/modules/auth/auth.routes.ts` only binds two routes to a controller, and the controller is not part of this model.
