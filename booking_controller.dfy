/** The booking controller (controllers/bookingController.js): creating a
    booking priced from the cafe's current rates, the owner's list of a
    cafe's bookings, and the owner-only status update and extension. */
module BookingController {
  import opened Common
  import opened BookingModel
  import opened Venue
  import opened Store
  import opened SessionLedger
  import opened SystemController

  // ---------------------------------------------------------------------------
  // createBooking

  /** The booking `createBooking` builds for `customer`, or why it refuses:
      the cafe, then a room of `roomType`, then a system of `systemType` in
      that room must exist. The price is the duration times that system's rate. */
  function BuildBooking(cafes: map<CafeId, Cafe>, customer: UserId, cafeId: CafeId, roomType: string, systemType: string,
                        bookingDate: int, startTime: string, duration: real): (r: Outcome<Booking>)
    ensures cafeId !in cafes ==> r == Fail(NotFound(CafeDoc))
    ensures cafeId in cafes && RoomOfType(cafes[cafeId].rooms, roomType).None? ==> r == Fail(NotFound(RoomDoc))
    ensures cafeId in cafes && RoomOfType(cafes[cafeId].rooms, roomType).Some?
            && PriceOf(cafes[cafeId].rooms, roomType, systemType).None?
            ==> r == Fail(NotFound(SystemDoc))
    ensures r.Ok? <==> cafeId in cafes && PriceOf(cafes[cafeId].rooms, roomType, systemType).Some?
    ensures r.Fail? ==> r.failure in {NotFound(CafeDoc), NotFound(RoomDoc), NotFound(SystemDoc)}
    ensures r.Ok? ==>
              var price := PriceOf(cafes[cafeId].rooms, roomType, systemType).value;
              r.value.totalPrice == duration * price
              && r.value.owner == cafes[cafeId].owner && r.value.cafe == cafeId && r.value.customer == Some(customer)
              && r.value.roomType == Some(roomType) && r.value.systemType == Some(systemType)
              && r.value.bookingDate == bookingDate && r.value.startTime == startTime && r.value.duration == duration
              && r.value.status == PendingPayment && r.value.systemsBooked == []
  {
    if cafeId !in cafes then Fail(NotFound(CafeDoc))
    else
      var cafe := cafes[cafeId];
      match RoomOfType(cafe.rooms, roomType)
      case None => Fail(NotFound(RoomDoc))
      case Some(i) =>
        match SystemOfType(cafe.rooms[i].systems, systemType)
        case None => Fail(NotFound(SystemDoc))
        case Some(k) =>
          var pricePerHour := cafe.rooms[i].systems[k].pricePerHour;
          Ok(NewBooking(customer, cafeId, cafe.owner, roomType, systemType, bookingDate, startTime, duration,
                        duration * pricePerHour))
  }

  /** `createBooking`: stores the built booking under `newId`, the fresh id the store
      assigns. Nothing is stored when the lookup fails. */
  method CreateBooking(db: Db, customer: UserId, cafeId: CafeId, roomType: string, systemType: string,
                       bookingDate: int, startTime: string, duration: real, newId: BookingId)
    returns (r: Outcome<BookingId>)
    requires newId !in db.bookings
    modifies db
    ensures var built := BuildBooking(old(db.cafes), customer, cafeId, roomType, systemType, bookingDate, startTime, duration);
            (built.Fail? ==> r == Fail(built.failure) && unchanged(db))
            && (built.Ok? ==> r == Ok(newId) && db.bookings == old(db.bookings)[newId := built.value])
    ensures db.cafes == old(db.cafes) && db.wallets == old(db.wallets) && db.payments == old(db.payments)
  {
    var built := BuildBooking(db.cafes, customer, cafeId, roomType, systemType, bookingDate, startTime, duration);
    if built.Fail? {
      return Fail(built.failure);
    }
    db.bookings := db.bookings[newId := built.value];
    return Ok(newId);
  }

  /** A booking made by `createBooking` lists no line items, so `startSession`,
      which requires as many system ids as the line items ask for (none) and at
      least one id, refuses it whatever its status. */
  lemma CreatedBookingNeverStarts(bookings: map<BookingId, Booking>, cafes: map<CafeId, Cafe>, ownerId: UserId,
                                  id: BookingId, systemIds: Option<seq<string>>)
    requires id in bookings && bookings[id].systemsBooked == []
    ensures StartRefusal(bookings, cafes, ownerId, Some(id), systemIds).Some?
    ensures systemIds.Some? && systemIds.value != [] && ManagesCafe(cafes, ownerId, bookings[id].cafe)
            && bookings[id].status in {PendingAssignment, Booked} ==>
              StartRefusal(bookings, cafes, ownerId, Some(id), systemIds) == Some(CountMismatch(0, |systemIds.value|))
  {
    assert TotalSystems([]) == 0;
  }

  // ---------------------------------------------------------------------------
  // getOwnerBookings

  /** `getOwnerBookings`: the cafe must exist and belong to the requester; the
      answer is every booking of that cafe and no other. */
  function OwnerBookings(cafes: map<CafeId, Cafe>, bookings: map<BookingId, Booking>, requester: UserId, cafeId: CafeId)
    : (r: Outcome<map<BookingId, Booking>>)
    ensures cafeId !in cafes ==> r == Fail(NotFound(CafeDoc))
    ensures cafeId in cafes && cafes[cafeId].owner != requester ==> r == Fail(NotAuthorized)
    ensures r.Ok? <==> ManagesCafe(cafes, requester, cafeId)
    ensures r.Ok? ==> forall id :: id in r.value <==> id in bookings && bookings[id].cafe == cafeId
    ensures r.Ok? ==> forall id :: id in r.value ==> r.value[id] == bookings[id]
  {
    if cafeId !in cafes then Fail(NotFound(CafeDoc))
    else if cafes[cafeId].owner != requester then Fail(NotAuthorized)
    else Ok(map id | id in bookings && bookings[id].cafe == cafeId :: bookings[id])
  }

  // ---------------------------------------------------------------------------
  // updateBookingStatus

  /** `updateBookingStatus`: only the booking's owner may set its status, to any
      value; no other field changes. */
  method UpdateBookingStatus(db: Db, requester: UserId, id: BookingId, status: string) returns (r: Outcome<BookingId>)
    modifies db
    ensures id !in old(db.bookings) ==> r == Fail(NotFound(BookingDoc))
    ensures id in old(db.bookings) && old(db.bookings)[id].owner != requester ==> r == Fail(NotAuthorized)
    ensures r.Fail? ==> unchanged(db)
    ensures r.Ok? <==> id in old(db.bookings) && old(db.bookings)[id].owner == requester
    ensures r.Ok? ==> r.value == id && db.bookings == old(db.bookings)[id := old(db.bookings)[id].(status := status)]
    ensures db.cafes == old(db.cafes) && db.wallets == old(db.wallets) && db.payments == old(db.payments)
  {
    if id !in db.bookings {
      return Fail(NotFound(BookingDoc));
    }
    var booking := db.bookings[id];
    if booking.owner != requester {
      return Fail(NotAuthorized);
    }
    db.bookings := db.bookings[id := booking.(status := status)];
    return Ok(id);
  }

  // ---------------------------------------------------------------------------
  // extendBooking

  /** The hourly rate `extendBooking` charges: the system of the booking's own
      (single-item) room and system type. A booking without those fields
      matches no room. */
  function LegacyRate(rooms: seq<Room>, b: Booking): (p: Option<real>)
    ensures b.roomType.None? || b.systemType.None? ==> p.None?
    ensures b.roomType.Some? && b.systemType.Some? ==> p == PriceOf(rooms, b.roomType.value, b.systemType.value)
  {
    if b.roomType.None? || b.systemType.None? then None
    else PriceOf(rooms, b.roomType.value, b.systemType.value)
  }

  /** The booking after `extendBooking` adds `hours` at `rate`. */
  function ExtendedBy(b: Booking, rate: real, hours: real): (e: Booking)
    ensures e.duration - b.duration == hours
    ensures e.totalPrice - b.totalPrice == hours * rate
    ensures e.(duration := b.duration, totalPrice := b.totalPrice) == b
  {
    b.(duration := b.duration + hours, totalPrice := b.totalPrice + hours * rate)
  }

  /** The extension is not checked for sign: extending by `-hours` exactly
      undoes extending by `hours`. */
  lemma ExtendByNegativeUndoes(b: Booking, rate: real, hours: real)
    ensures ExtendedBy(ExtendedBy(b, rate, hours), rate, -hours) == b
  {
  }

  /** `extendBooking`: only the booking's owner may extend it; the cafe must
      exist and the booking's room and system type must still price. No check
      is made on `hoursToAdd`. */
  method ExtendBooking(db: Db, requester: UserId, id: BookingId, hoursToAdd: real) returns (r: Outcome<BookingId>)
    modifies db
    ensures id !in old(db.bookings) ==> r == Fail(NotFound(BookingDoc))
    ensures id in old(db.bookings) && old(db.bookings)[id].owner != requester ==> r == Fail(NotAuthorized)
    ensures id in old(db.bookings) && old(db.bookings)[id].owner == requester
            && old(db.bookings)[id].cafe !in old(db.cafes)
            ==> r == Fail(NotFound(CafeDoc))
    ensures id in old(db.bookings) && old(db.bookings)[id].owner == requester
            && old(db.bookings)[id].cafe in old(db.cafes)
            && LegacyRate(old(db.cafes)[old(db.bookings)[id].cafe].rooms, old(db.bookings)[id]).None?
            ==> r == Fail(NotFound(SystemDoc))
    ensures r.Fail? ==> unchanged(db)
    ensures r.Ok? <==> id in old(db.bookings) && old(db.bookings)[id].owner == requester
                       && old(db.bookings)[id].cafe in old(db.cafes)
                       && LegacyRate(old(db.cafes)[old(db.bookings)[id].cafe].rooms, old(db.bookings)[id]).Some?
    ensures r.Ok? ==>
              var b := old(db.bookings)[id];
              var rate := LegacyRate(old(db.cafes)[b.cafe].rooms, b).value;
              r.value == id && db.bookings == old(db.bookings)[id := ExtendedBy(b, rate, hoursToAdd)]
    ensures db.cafes == old(db.cafes) && db.wallets == old(db.wallets) && db.payments == old(db.payments)
  {
    if id !in db.bookings {
      return Fail(NotFound(BookingDoc));
    }
    var booking := db.bookings[id];
    if booking.owner != requester {
      return Fail(NotAuthorized);
    }
    if booking.cafe !in db.cafes {
      return Fail(NotFound(CafeDoc));
    }
    var rate := LegacyRate(db.cafes[booking.cafe].rooms, booking);
    if rate.None? {
      return Fail(NotFound(SystemDoc));
    }
    db.bookings := db.bookings[id := ExtendedBy(booking, rate.value, hoursToAdd)];
    return Ok(id);
  }
}
