/**
 * The booking service of a vehicle rental backend: creating a booking,
 * listing bookings by role, and cancelling or returning a booking.
 *
 * The SQL store is modelled as two in-memory tables held by `Store`:
 * `vehicles` (id to vehicle row) and `bookings` (id to booking row), with
 * the id sequence of the bookings table as a counter. Dates are integer
 * milliseconds since the epoch, the clock is a parameter, and the parse
 * of a booking id from its request string is a parameter too.
 */
module BookingService {
  import opened Wrappers

  /** Length of one rental day in milliseconds: 1000 * 60 * 60 * 24. */
  const DAY_MS: int := 86400000

  /** The `availability_status` value that lets a vehicle be booked. */
  const AVAILABLE: string := "available"

  // ---------------------------------------------------------------------
  // Rows and values
  // ---------------------------------------------------------------------

  /** The `status` column of a booking row. */
  datatype Status = Active | Cancelled | Returned

  /** The statuses a caller may ask `UpdateBooking` for: "cancelled" | "returned". */
  type BookingStatus = s: Status | s != Active witness Cancelled

  /** The role of the authenticated caller; `OtherRole` is any role string but "customer" and "admin". */
  datatype Role = Customer | Admin | OtherRole

  /** The authenticated caller, as the session layer hands it over: `{ id, role }`. */
  datatype User = User(id: int, role: Role)

  /** A row of the `vehicles` table, without its id (the table's key). */
  datatype Vehicle = Vehicle(
    vehicleName: string,
    registrationNumber: string,
    vehicleType: string,
    dailyRentPrice: int,
    availabilityStatus: string)

  /** A row of the `bookings` table, without its id (the table's key). */
  datatype Booking = Booking(
    customerId: int,
    vehicleId: int,
    rentStartMs: int,
    rentEndMs: int,
    totalPrice: int,
    status: Status)

  /** The columns of a `users` row that the admin listing joins in. */
  datatype Account = Account(name: string, email: string)

  /** One variant per error message the service throws. */
  datatype Error =
    | VehicleNotFound        // "Vehicle not found"
    | VehicleNotAvailable    // "Vehicle not available"
    | InvalidBookingId       // "Invalid booking ID"
    | BookingNotFound        // "Booking not found"
    | AccessForbidden        // "Access forbidden"
    | InvalidStatus          // "Invalid status"
    | CannotCancelAfterStart // "Cannot cancel after rental start"
    | Unauthorized           // "Unauthorized"

  /** The `vehicle` field of the created booking: name and daily price. */
  datatype VehicleSummary = VehicleSummary(vehicleName: string, dailyRentPrice: int)

  /** What `CreateBooking` returns: the inserted row and its vehicle summary. */
  datatype CreatedBooking = CreatedBooking(id: int, booking: Booking, vehicle: VehicleSummary)

  /** The `vehicle` object of an admin listing row. */
  datatype VehicleLabel = VehicleLabel(vehicleName: string, registrationNumber: string)

  /** An admin listing row: every booking column, the customer and the vehicle. */
  datatype AdminRow = AdminRow(booking: Booking, customer: Account, vehicle: VehicleLabel)

  /** The `vehicle` object of a customer listing row. */
  datatype VehicleDetails = VehicleDetails(vehicleName: string, registrationNumber: string, vehicleType: string)

  /** A customer listing row: no customer id and no customer object. */
  datatype CustomerRow = CustomerRow(
    vehicleId: int,
    rentStartMs: int,
    rentEndMs: int,
    totalPrice: int,
    status: Status,
    vehicle: VehicleDetails)

  /**
   * The result of `GetAllBookings`, keyed by booking id (the queries have
   * no ORDER BY, so the rows come in no promised order).
   */
  datatype BookingList =
    | AllBookings(adminRows: map<int, AdminRow>)
    | OwnBookings(customerRows: map<int, CustomerRow>)

  /**
   * What a successful `UpdateBooking` returns: the updated row, and on the
   * admin path also the inline vehicle availability of the response.
   */
  datatype Updated =
    | Cancellation(id: int, booking: Booking)
    | Return(id: int, booking: Booking, vehicleAvailability: string)

  // ---------------------------------------------------------------------
  // Pricing
  // ---------------------------------------------------------------------

  /**
   * The number of rental days between two instants, rounded up: a partial
   * day counts as a whole one. Nothing makes the end come after the start,
   * so the count may be zero or negative.
   */
  function RentDays(rentStartMs: int, rentEndMs: int): (days: int)
    ensures (days - 1) * DAY_MS < rentEndMs - rentStartMs <= days * DAY_MS
  {
    (rentEndMs - rentStartMs + DAY_MS - 1) / DAY_MS
  }

  /**
   * The price stored with a new booking: rental days times the daily price.
   * At a non-negative daily price it covers the window at that rate pro rata,
   * and at a positive one it overshoots by less than one day's rent.
   */
  function TotalPrice(rentStartMs: int, rentEndMs: int, dailyRentPrice: int): (price: int)
    ensures 0 <= dailyRentPrice ==> (rentEndMs - rentStartMs) * dailyRentPrice <= price * DAY_MS
    ensures 0 < dailyRentPrice ==> price * DAY_MS < (rentEndMs - rentStartMs) * dailyRentPrice + dailyRentPrice * DAY_MS
  {
    var days := RentDays(rentStartMs, rentEndMs);
    ScaleDayBounds(days, rentEndMs - rentStartMs, dailyRentPrice);
    days * dailyRentPrice
  }

  /** Multiplies the day bounds of a window by a daily price. */
  lemma ScaleDayBounds(days: int, windowMs: int, dailyRentPrice: int)
    requires (days - 1) * DAY_MS < windowMs <= days * DAY_MS
    ensures 0 <= dailyRentPrice ==> windowMs * dailyRentPrice <= days * dailyRentPrice * DAY_MS
    ensures 0 < dailyRentPrice ==> days * dailyRentPrice * DAY_MS < windowMs * dailyRentPrice + dailyRentPrice * DAY_MS
  {
    if 0 <= dailyRentPrice {
      assert (days * DAY_MS - windowMs) * dailyRentPrice >= 0;
    }
    if 0 < dailyRentPrice {
      assert (windowMs - (days - 1) * DAY_MS) * dailyRentPrice > 0;
    }
  }

  /** Any window longer than `days - 1` and at most `days` whole days is billed as `days` days. */
  lemma PartialDayBilledInFull(rentStartMs: int, rentEndMs: int, dailyRentPrice: int, days: int)
    requires (days - 1) * DAY_MS < rentEndMs - rentStartMs <= days * DAY_MS
    ensures RentDays(rentStartMs, rentEndMs) == days
    ensures TotalPrice(rentStartMs, rentEndMs, dailyRentPrice) == days * dailyRentPrice
  {
  }

  /** Three whole days at 100 cost 300; two and a half days round up to the same 300. */
  lemma PriceExamples()
    ensures TotalPrice(0, 3 * DAY_MS, 100) == 300
    ensures TotalPrice(0, 5 * DAY_MS / 2, 100) == 300
    ensures TotalPrice(0, 0, 100) == 0
    ensures TotalPrice(DAY_MS, 0, 100) == -100
  {
  }

  /** At a non-negative daily price, a later end never lowers the price. */
  lemma PriceMonotone(rentStartMs: int, rentEndMs: int, laterEndMs: int, dailyRentPrice: int)
    requires rentEndMs <= laterEndMs && 0 <= dailyRentPrice
    ensures TotalPrice(rentStartMs, rentEndMs, dailyRentPrice) <= TotalPrice(rentStartMs, laterEndMs, dailyRentPrice)
  {
  }

  /**
   * Every booking refers to a vehicle that exists and carries the price of
   * its window at that vehicle's daily rate.
   */
  ghost predicate PricesAgree(bookings: map<int, Booking>, vehicles: map<int, Vehicle>)
  {
    forall id :: id in bookings ==>
      && bookings[id].vehicleId in vehicles
      && bookings[id].totalPrice
         == TotalPrice(bookings[id].rentStartMs, bookings[id].rentEndMs, vehicles[bookings[id].vehicleId].dailyRentPrice)
  }

  // ---------------------------------------------------------------------
  // Listing
  // ---------------------------------------------------------------------

  function AdminRowOf(b: Booking, customer: Account, v: Vehicle): (row: AdminRow)
  {
    AdminRow(b, customer, VehicleLabel(v.vehicleName, v.registrationNumber))
  }

  function CustomerRowOf(b: Booking, v: Vehicle): (row: CustomerRow)
  {
    CustomerRow(b.vehicleId, b.rentStartMs, b.rentEndMs, b.totalPrice, b.status,
                VehicleDetails(v.vehicleName, v.registrationNumber, v.vehicleType))
  }

  /**
   * The admin listing: every booking joined (inner join) with its customer's
   * account and its vehicle.
   */
  function AdminBookings(bookings: map<int, Booking>, vehicles: map<int, Vehicle>, users: map<int, Account>)
    : (rows: map<int, AdminRow>)
    ensures forall id :: id in rows <==>
      id in bookings && bookings[id].customerId in users && bookings[id].vehicleId in vehicles
    ensures forall id :: id in rows ==>
      && rows[id].booking == bookings[id]
      && rows[id].customer == users[bookings[id].customerId]
      && rows[id].vehicle.vehicleName == vehicles[bookings[id].vehicleId].vehicleName
      && rows[id].vehicle.registrationNumber == vehicles[bookings[id].vehicleId].registrationNumber
  {
    map id | id in bookings && bookings[id].customerId in users && bookings[id].vehicleId in vehicles
      :: AdminRowOf(bookings[id], users[bookings[id].customerId], vehicles[bookings[id].vehicleId])
  }

  /**
   * The customer listing: the bookings whose customer is `customerId`,
   * joined (inner join) with their vehicle.
   */
  function CustomerBookings(bookings: map<int, Booking>, vehicles: map<int, Vehicle>, customerId: int)
    : (rows: map<int, CustomerRow>)
    ensures forall id :: id in rows <==>
      id in bookings && bookings[id].customerId == customerId && bookings[id].vehicleId in vehicles
    ensures forall id :: id in rows ==>
      var b, v := bookings[id], vehicles[bookings[id].vehicleId];
      && rows[id].vehicleId == b.vehicleId
      && rows[id].rentStartMs == b.rentStartMs && rows[id].rentEndMs == b.rentEndMs
      && rows[id].totalPrice == b.totalPrice && rows[id].status == b.status
      && rows[id].vehicle == VehicleDetails(v.vehicleName, v.registrationNumber, v.vehicleType)
  {
    map id | id in bookings && bookings[id].customerId == customerId && bookings[id].vehicleId in vehicles
      :: CustomerRowOf(bookings[id], vehicles[bookings[id].vehicleId])
  }

  /** Every booking names an existing customer account and an existing vehicle. */
  ghost predicate References(bookings: map<int, Booking>, vehicles: map<int, Vehicle>, users: map<int, Account>)
  {
    forall id :: id in bookings ==> bookings[id].customerId in users && bookings[id].vehicleId in vehicles
  }

  /** With intact references the admin listing drops no booking. */
  lemma AdminSeesEveryBooking(bookings: map<int, Booking>, vehicles: map<int, Vehicle>, users: map<int, Account>)
    requires References(bookings, vehicles, users)
    ensures AdminBookings(bookings, vehicles, users).Keys == bookings.Keys
  {
    var rows := AdminBookings(bookings, vehicles, users);
    forall id | id in bookings ensures id in rows {
    }
  }

  /**
   * When every booking's vehicle exists (as `PricesAgree` guarantees), a
   * customer sees every booking of theirs.
   */
  lemma CustomerSeesAllOwn(bookings: map<int, Booking>, vehicles: map<int, Vehicle>, customerId: int)
    requires forall id :: id in bookings ==> bookings[id].vehicleId in vehicles
    ensures CustomerBookings(bookings, vehicles, customerId).Keys
         == set id | id in bookings && bookings[id].customerId == customerId
  {
    var rows := CustomerBookings(bookings, vehicles, customerId);
    forall id | id in bookings && bookings[id].customerId == customerId ensures id in rows {
    }
  }

  /** Inserting a booking of one customer under a fresh id leaves every other customer's listing as it was. */
  lemma InsertInvisibleToOthers(bookings: map<int, Booking>, vehicles: map<int, Vehicle>, id: int, b: Booking, customerId: int)
    requires id !in bookings && b.customerId != customerId
    ensures CustomerBookings(bookings[id := b], vehicles, customerId)
         == CustomerBookings(bookings, vehicles, customerId)
  {
    var after, before := CustomerBookings(bookings[id := b], vehicles, customerId), CustomerBookings(bookings, vehicles, customerId);
    assert after.Keys == before.Keys;
  }

  /** A fresh booking of an existing vehicle appears in its customer's listing, next to the rows already there. */
  lemma InsertVisibleToOwner(bookings: map<int, Booking>, vehicles: map<int, Vehicle>, id: int, b: Booking)
    requires id !in bookings && b.vehicleId in vehicles
    ensures CustomerBookings(bookings[id := b], vehicles, b.customerId)
         == CustomerBookings(bookings, vehicles, b.customerId)[id := CustomerRowOf(b, vehicles[b.vehicleId])]
  {
  }

  // ---------------------------------------------------------------------
  // Updating
  // ---------------------------------------------------------------------

  /** The vehicles write of `UpdateBooking`: one vehicle made available, if it exists. */
  function MarkAvailable(vehicles: map<int, Vehicle>, vehicleId: int): (r: map<int, Vehicle>)
    ensures r.Keys == vehicles.Keys
    ensures vehicleId in r ==> r[vehicleId] == vehicles[vehicleId].(availabilityStatus := AVAILABLE)
    ensures forall id :: id in r && id != vehicleId ==> r[id] == vehicles[id]
  {
    if vehicleId in vehicles then vehicles[vehicleId := vehicles[vehicleId].(availabilityStatus := AVAILABLE)]
    else vehicles
  }

  /**
   * Which error, if any, `UpdateBooking` raises for an existing booking row:
   * a customer is checked for ownership, then for the status "cancelled",
   * then for a rental start still in the future; an admin only for the
   * status "returned"; any other role is refused. The booking's current
   * status is never consulted.
   */
  function Refusal(b: Booking, status: BookingStatus, user: User, nowMs: int): (e: Option<Error>)
    ensures e == Some(Unauthorized) <==> user.role == OtherRole
    ensures e == Some(AccessForbidden) <==> user.role == Customer && b.customerId != user.id
    ensures e == Some(InvalidStatus) <==>
      || (user.role == Customer && b.customerId == user.id && status != Cancelled)
      || (user.role == Admin && status != Returned)
    ensures e == Some(CannotCancelAfterStart) <==>
      user.role == Customer && b.customerId == user.id && status == Cancelled && b.rentStartMs <= nowMs
    ensures e == None <==>
      || (user.role == Customer && b.customerId == user.id && status == Cancelled && nowMs < b.rentStartMs)
      || (user.role == Admin && status == Returned)
  {
    match user.role
    case Customer =>
      if b.customerId != user.id then Some(AccessForbidden)
      else if status != Cancelled then Some(InvalidStatus)
      else if b.rentStartMs <= nowMs then Some(CannotCancelAfterStart)
      else None
    case Admin =>
      if status != Returned then Some(InvalidStatus) else None
    case OtherRole =>
      Some(Unauthorized)
  }

  /** The decision does not depend on the booking's current status. */
  lemma RefusalIgnoresCurrentStatus(b: Booking, current: Status, status: BookingStatus, user: User, nowMs: int)
    ensures Refusal(b.(status := current), status, user, nowMs) == Refusal(b, status, user, nowMs)
  {
  }

  /**
   * So a booking already returned may still be cancelled by its customer,
   * and one already cancelled may still be returned by an admin.
   */
  lemma ClosedBookingsReopenable(b: Booking, nowMs: int)
    requires nowMs < b.rentStartMs
    ensures Refusal(b.(status := Returned), Cancelled, User(b.customerId, Customer), nowMs) == None
    ensures Refusal(b.(status := Cancelled), Returned, User(b.customerId + 1, Admin), nowMs) == None
  {
  }

  /**
   * A successful update changes, in every customer's listing, at most the
   * status of the updated row: the vehicle write touches a column no
   * listing shows.
   */
  lemma UpdateVisibleAsStatusOnly(bookings: map<int, Booking>, vehicles: map<int, Vehicle>, id: int, status: BookingStatus, customerId: int)
    requires id in bookings
    ensures var before := CustomerBookings(bookings, vehicles, customerId);
      CustomerBookings(bookings[id := bookings[id].(status := status)], MarkAvailable(vehicles, bookings[id].vehicleId), customerId)
      == if id in before then before[id := before[id].(status := status)] else before
  {
  }

  // ---------------------------------------------------------------------
  // The store
  // ---------------------------------------------------------------------

  /** The two tables the service reads and writes, and the bookings id sequence. */
  class Store {
    var vehicles: map<int, Vehicle>
    var bookings: map<int, Booking>
    /** The id the next inserted booking receives (a SERIAL column's sequence). */
    var nextBookingId: int

    /** Booking ids are positive and below the sequence's next value. */
    ghost predicate Valid()
      reads this
    {
      1 <= nextBookingId && forall id :: id in bookings ==> 1 <= id < nextBookingId
    }

    constructor (vehicles0: map<int, Vehicle>, bookings0: map<int, Booking>, nextBookingId0: int)
      requires 1 <= nextBookingId0
      requires forall id :: id in bookings0 ==> 1 <= id < nextBookingId0
      ensures Valid()
      ensures vehicles == vehicles0 && bookings == bookings0 && nextBookingId == nextBookingId0
    {
      vehicles, bookings, nextBookingId := vehicles0, bookings0, nextBookingId0;
    }

    /**
     * createBooking: look the vehicle up, refuse a missing or unavailable
     * one, price the window and insert one active booking. The vehicle is
     * not marked unavailable.
     */
    method CreateBooking(customerId: int, vehicleId: int, rentStartMs: int, rentEndMs: int)
      returns (r: Result<CreatedBooking, Error>)
      requires Valid()
      modifies this
      ensures Valid()
      ensures vehicles == old(vehicles)
      ensures vehicleId !in old(vehicles) ==> r == Err(VehicleNotFound)
      ensures vehicleId in old(vehicles) && old(vehicles)[vehicleId].availabilityStatus != AVAILABLE ==>
        r == Err(VehicleNotAvailable)
      ensures r.Err? ==> bookings == old(bookings) && nextBookingId == old(nextBookingId)
      ensures vehicleId in old(vehicles) && old(vehicles)[vehicleId].availabilityStatus == AVAILABLE ==>
        var v := old(vehicles)[vehicleId];
        var id := old(nextBookingId);
        var b := Booking(customerId, vehicleId, rentStartMs, rentEndMs,
                         TotalPrice(rentStartMs, rentEndMs, v.dailyRentPrice), Active);
        && id !in old(bookings)
        && bookings == old(bookings)[id := b]
        && nextBookingId == id + 1
        && r == Ok(CreatedBooking(id, b, VehicleSummary(v.vehicleName, v.dailyRentPrice)))
      ensures old(PricesAgree(bookings, vehicles)) ==> PricesAgree(bookings, vehicles)
    {
      if vehicleId !in vehicles {
        return Err(VehicleNotFound);
      }
      var found := vehicles[vehicleId];
      if found.availabilityStatus != AVAILABLE {
        return Err(VehicleNotAvailable);
      }
      var totalPrice := TotalPrice(rentStartMs, rentEndMs, found.dailyRentPrice);
      var id := nextBookingId;
      var row := Booking(customerId, vehicleId, rentStartMs, rentEndMs, totalPrice, Active);
      bookings := bookings[id := row];
      nextBookingId := nextBookingId + 1;
      var info := vehicles[vehicleId];
      r := Ok(CreatedBooking(id, row, VehicleSummary(info.vehicleName, info.dailyRentPrice)));
    }

    /**
     * getAllBookings: an admin gets every booking with customer and vehicle;
     * any other caller gets the bookings whose customer is the caller.
     */
    function GetAllBookings(user: User, users: map<int, Account>): (r: BookingList)
      reads this
      ensures r.AllBookings? <==> user.role == Admin
      ensures r.AllBookings? ==> r.adminRows == AdminBookings(bookings, vehicles, users)
      ensures r.OwnBookings? ==> r.customerRows == CustomerBookings(bookings, vehicles, user.id)
      ensures r.OwnBookings? ==> forall id :: id in r.customerRows ==> id in bookings && bookings[id].customerId == user.id
    {
      if user.role == Admin then AllBookings(AdminBookings(bookings, vehicles, users))
      else OwnBookings(CustomerBookings(bookings, vehicles, user.id))
    }

    /**
     * updateBooking: parse the id, look the booking up, apply the role's
     * checks in order, then write the booking's status and make its
     * vehicle available.
     */
    method UpdateBooking(bookingId: string, parseId: string -> Option<int>, status: BookingStatus, user: User, nowMs: int)
      returns (r: Result<Updated, Error>)
      requires Valid()
      modifies this
      ensures Valid() && nextBookingId == old(nextBookingId)
      ensures parseId(bookingId).None? ==> r == Err(InvalidBookingId)
      ensures parseId(bookingId).Some? && parseId(bookingId).value !in old(bookings) ==> r == Err(BookingNotFound)
      ensures parseId(bookingId).Some? && parseId(bookingId).value in old(bookings) ==>
        var id := parseId(bookingId).value;
        var b := old(bookings)[id];
        var refusal := Refusal(b, status, user, nowMs);
        && (refusal.Some? ==> r == Err(refusal.value))
        && (refusal.None? ==>
              && bookings == old(bookings)[id := b.(status := status)]
              && vehicles == MarkAvailable(old(vehicles), b.vehicleId)
              && r == Ok(if user.role == Customer then Cancellation(id, b.(status := status))
                         else Return(id, b.(status := status), AVAILABLE)))
      ensures r.Err? ==> bookings == old(bookings) && vehicles == old(vehicles)
      ensures old(PricesAgree(bookings, vehicles)) ==> PricesAgree(bookings, vehicles)
    {
      var parsed := parseId(bookingId);
      if parsed.None? {
        return Err(InvalidBookingId);
      }
      var id := parsed.value;
      if id !in bookings {
        return Err(BookingNotFound);
      }
      var booking := bookings[id];

      if user.role == Customer {
        if booking.customerId != user.id {
          return Err(AccessForbidden);
        }
        if status != Cancelled {
          return Err(InvalidStatus);
        }
        if booking.rentStartMs <= nowMs {
          return Err(CannotCancelAfterStart);
        }
        bookings := bookings[id := booking.(status := Cancelled)];
        var row := bookings[id];
        vehicles := MarkAvailable(vehicles, booking.vehicleId);
        return Ok(Cancellation(id, row));
      }

      if user.role == Admin {
        if status != Returned {
          return Err(InvalidStatus);
        }
        bookings := bookings[id := booking.(status := Returned)];
        var row := bookings[id];
        vehicles := MarkAvailable(vehicles, booking.vehicleId);
        return Ok(Return(id, row, AVAILABLE));
      }

      return Err(Unauthorized);
    }
  }

  /**
   * A customer who asks to cancel another customer's booking is refused
   * with "Access forbidden" and nothing changes.
   */
  method ForeignCancelScenario(nowMs: int)
  {
    var vehicles := map[3 := Vehicle("Corolla", "DHA-1234", "car", 50, "booked")];
    var theirs := Booking(9, 3, nowMs + DAY_MS, nowMs + 3 * DAY_MS, 100, Active);
    var store := new Store(vehicles, map[12 := theirs], 13);
    var r := store.UpdateBooking("12", s => if s == "12" then Some(12) else None, Cancelled, User(7, Customer), nowMs);
    assert r == Err(AccessForbidden);
    assert store.bookings == map[12 := theirs] && store.vehicles == vehicles;
  }
}
