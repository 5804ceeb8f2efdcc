/** The owner-facing session controller (controllers/systemController.js):
    starting and ending sessions on concrete systems, the maintenance
    toggle, extending a running session, and the read-only availability
    view. Each handler loads documents from the store, checks the request in
    the order the source does, and saves only on success. */
module SystemController {
  import opened Common
  import opened BookingModel
  import opened Venue
  import opened Store
  import opened SessionLedger
  import opened TimeLabel

  /** `Cafe.findOne({ owner: ownerId, _id: booking.cafe })` finds a cafe. */
  predicate ManagesCafe(cafes: map<CafeId, Cafe>, ownerId: UserId, cafe: CafeId) {
    cafe in cafes && cafes[cafe].owner == ownerId
  }

  /** `systemIds.map(id => ({ systemId: id }))`: the room type is left out. */
  function AssignedFrom(ids: seq<string>): seq<AssignedSystem> {
    seq(|ids|, i requires 0 <= i < |ids| => AssignedSystem(ids[i], None))
  }

  /** `booking.assignedSystems.map(s => s.systemId)`. */
  function AssignedIds(entries: seq<AssignedSystem>): seq<string> {
    seq(|entries|, i requires 0 <= i < |entries| => entries[i].systemId)
  }

  /** The assignment `startSession` records lists the requested ids, in order. */
  lemma AssignedIdsFrom(ids: seq<string>)
    ensures AssignedIds(AssignedFrom(ids)) == ids
    ensures forall a :: a in AssignedFrom(ids) ==> a.roomType.None?
  {
  }

  // ---------------------------------------------------------------------------
  // startSession

  /** Why `startSession` refuses a request, in the order it checks; `None` when it
      goes ahead. */
  function StartRefusal(bookings: map<BookingId, Booking>, cafes: map<CafeId, Cafe>, ownerId: UserId,
                        bookingId: Option<BookingId>, systemIds: Option<seq<string>>): Option<Failure>
  {
    if bookingId.None? || systemIds.None? || systemIds.value == [] then Some(MissingInput)
    else if bookingId.value !in bookings then Some(NotFound(BookingDoc))
    else
      var b := bookings[bookingId.value];
      if !ManagesCafe(cafes, ownerId, b.cafe) then Some(NotAuthorized)
      else if b.status != PendingAssignment && b.status != Booked then Some(WrongStatus(b.status))
      else if |systemIds.value| != TotalSystems(b.systemsBooked) then
        Some(CountMismatch(TotalSystems(b.systemsBooked), |systemIds.value|))
      else match LastOf(UnavailableInRooms(cafes[b.cafe].rooms, systemIds.value))
           case Some(x) => Some(SystemUnavailable(x))
           case None => None
  }

  /** A start goes ahead only for a booking awaiting assignment or booked, with as
      many ids as its line items ask for, all of them naming available systems. */
  lemma StartGuards(bookings: map<BookingId, Booking>, cafes: map<CafeId, Cafe>, ownerId: UserId,
                    bookingId: Option<BookingId>, systemIds: Option<seq<string>>)
    ensures StartRefusal(bookings, cafes, ownerId, bookingId, systemIds).None? <==>
              bookingId.Some? && systemIds.Some? && systemIds.value != [] && bookingId.value in bookings
              && ManagesCafe(cafes, ownerId, bookings[bookingId.value].cafe)
              && bookings[bookingId.value].status in {PendingAssignment, Booked}
              && |systemIds.value| == TotalSystems(bookings[bookingId.value].systemsBooked)
              && AllAvailable(cafes[bookings[bookingId.value].cafe].rooms, systemIds.value)
  {
    if bookingId.Some? && systemIds.Some? && bookingId.value in bookings {
      var b := bookings[bookingId.value];
      if b.cafe in cafes {
        NoneUnavailable(cafes[b.cafe].rooms, systemIds.value);
      }
    }
  }

  method StartSession(db: Db, ownerId: UserId, bookingId: Option<BookingId>, systemIds: Option<seq<string>>)
    returns (r: Outcome<BookingId>)
    modifies db
    ensures var refusal := StartRefusal(old(db.bookings), old(db.cafes), ownerId, bookingId, systemIds);
            (refusal.Some? ==> r == Fail(refusal.value)) && (refusal.None? ==> r.Ok?)
    ensures r.Fail? ==> unchanged(db)
    ensures r.Ok? ==>
              var id := bookingId.value;
              var b := old(db.bookings)[id];
              var cafe := old(db.cafes)[b.cafe];
              r.value == id
              && db.bookings == old(db.bookings)[id := b.(status := Active, assignedSystems := AssignedFrom(systemIds.value))]
              && db.cafes == old(db.cafes)[b.cafe := cafe.(rooms := OccupyRooms(cafe.rooms, systemIds.value, id))]
              && db.wallets == old(db.wallets) && db.payments == old(db.payments)
  {
    if bookingId.None? || systemIds.None? || systemIds.value == [] {
      return Fail(MissingInput);
    }
    var id := bookingId.value;
    var ids := systemIds.value;
    if id !in db.bookings {
      return Fail(NotFound(BookingDoc));
    }
    var booking := db.bookings[id];
    if !(booking.cafe in db.cafes && db.cafes[booking.cafe].owner == ownerId) {
      return Fail(NotAuthorized);
    }
    var cafe := db.cafes[booking.cafe];
    if booking.status != PendingAssignment && booking.status != Booked {
      return Fail(WrongStatus(booking.status));
    }
    var required := TotalSystems(booking.systemsBooked);
    if |ids| != required {
      return Fail(CountMismatch(required, |ids|));
    }
    var rooms, validationError := OccupySystems(cafe.rooms, ids, id);
    if validationError.Some? {
      // The flipped rooms are discarded: nothing is saved.
      return Fail(SystemUnavailable(validationError.value));
    }
    db.bookings := db.bookings[id := booking.(status := Active, assignedSystems := AssignedFrom(ids))];
    db.cafes := db.cafes[booking.cafe := cafe.(rooms := rooms)];
    return Ok(id);
  }

  // ---------------------------------------------------------------------------
  // endSession

  function EndRefusal(bookings: map<BookingId, Booking>, cafes: map<CafeId, Cafe>, ownerId: UserId,
                      bookingId: Option<BookingId>): Option<Failure>
  {
    if bookingId.None? then Some(MissingInput)
    else if bookingId.value !in bookings then Some(NotFound(BookingDoc))
    else if !ManagesCafe(cafes, ownerId, bookings[bookingId.value].cafe) then Some(NotAuthorized)
    else if bookings[bookingId.value].status != Active then Some(WrongStatus(bookings[bookingId.value].status))
    else None
  }

  /** The rooms after `endSession` releases a booking's assigned systems. */
  function EndedRooms(rooms: seq<Room>, b: Booking): seq<Room> {
    if |b.assignedSystems| > 0 then ReleaseRooms(rooms, AssignedIds(b.assignedSystems)) else rooms
  }

  method EndSession(db: Db, ownerId: UserId, bookingId: Option<BookingId>) returns (r: Outcome<BookingId>)
    modifies db
    ensures var refusal := EndRefusal(old(db.bookings), old(db.cafes), ownerId, bookingId);
            (refusal.Some? ==> r == Fail(refusal.value)) && (refusal.None? ==> r.Ok?)
    ensures r.Fail? ==> unchanged(db)
    ensures r.Ok? ==>
              var id := bookingId.value;
              var b := old(db.bookings)[id];
              var cafe := old(db.cafes)[b.cafe];
              r.value == id
              && db.bookings == old(db.bookings)[id := b.(status := Completed)]
              && db.cafes == old(db.cafes)[b.cafe := cafe.(rooms := EndedRooms(cafe.rooms, b))]
              && db.wallets == old(db.wallets) && db.payments == old(db.payments)
  {
    if bookingId.None? {
      return Fail(MissingInput);
    }
    var id := bookingId.value;
    if id !in db.bookings {
      return Fail(NotFound(BookingDoc));
    }
    var booking := db.bookings[id];
    if !(booking.cafe in db.cafes && db.cafes[booking.cafe].owner == ownerId) {
      return Fail(NotAuthorized);
    }
    var cafe := db.cafes[booking.cafe];
    if booking.status != Active {
      return Fail(WrongStatus(booking.status));
    }
    if |booking.assignedSystems| > 0 {
      var freed := ReleaseSystems(cafe.rooms, AssignedIds(booking.assignedSystems));
      cafe := cafe.(rooms := freed);
    }
    db.bookings := db.bookings[id := booking.(status := Completed)];
    db.cafes := db.cafes[booking.cafe := cafe];
    return Ok(id);
  }

  /** Ending a session that was started on free systems puts the cafe's rooms back
      exactly as they were before the start. */
  lemma EndUndoesStart(rooms: seq<Room>, b: Booking, ids: seq<string>, id: BookingId)
    requires ids != []
    requires forall i, k :: 0 <= i < |rooms| && 0 <= k < |rooms[i].systems| && rooms[i].systems[k].systemId in ids ==>
               rooms[i].systems[k].status == Available && rooms[i].systems[k].activeBooking.None?
    ensures EndedRooms(OccupyRooms(rooms, ids, id), b.(status := Active, assignedSystems := AssignedFrom(ids))) == rooms
  {
    AssignedIdsFrom(ids);
    ReleaseUndoesOccupy(rooms, ids, id);
  }

  // ---------------------------------------------------------------------------
  // updateSystemMaintenanceStatus

  predicate MaintenanceStatus(status: Option<string>) {
    status.Some? && (status.value == UnderMaintenance || status.value == Available)
  }

  /** `Cafe.findOne({ owner: ownerId })` picks one of the owner's cafes; which
      one is up to the store. The result names the cafe that was updated. */
  method UpdateSystemMaintenanceStatus(db: Db, ownerId: UserId, systemId: string, status: Option<string>)
    returns (r: Outcome<CafeId>)
    modifies db
    ensures r == Fail(InvalidStatusValue) <==> !MaintenanceStatus(status)
    ensures r == Fail(NotFound(CafeDoc)) <==>
              MaintenanceStatus(status) && forall c :: c in old(db.cafes) ==> old(db.cafes)[c].owner != ownerId
    ensures MaintenanceStatus(status) && (exists c :: ManagesCafe(old(db.cafes), ownerId, c)) ==>
              exists c :: ManagesCafe(old(db.cafes), ownerId, c)
                          && var m := Maintain(old(db.cafes)[c].rooms, systemId, status.value);
                             r == (if m.Ok? then Ok(c) else Fail(m.failure))
    ensures r.Fail? ==> unchanged(db)
    ensures r.Fail? && r.failure !in {InvalidStatusValue, NotFound(CafeDoc)} ==>
              exists c :: ManagesCafe(old(db.cafes), ownerId, c)
                          && Maintain(old(db.cafes)[c].rooms, systemId, status.value) == Fail(r.failure)
    ensures r.Ok? ==>
              var c := r.value;
              MaintenanceStatus(status) && ManagesCafe(old(db.cafes), ownerId, c)
              && Maintain(old(db.cafes)[c].rooms, systemId, status.value).Ok?
              && db.cafes == old(db.cafes)[c := old(db.cafes)[c].(rooms := Maintain(old(db.cafes)[c].rooms, systemId, status.value).value)]
              && db.bookings == old(db.bookings) && db.wallets == old(db.wallets) && db.payments == old(db.payments)
  {
    if !MaintenanceStatus(status) {
      return Fail(InvalidStatusValue);
    }
    if !exists c :: c in db.cafes && db.cafes[c].owner == ownerId {
      return Fail(NotFound(CafeDoc));
    }
    var c :| c in db.cafes && db.cafes[c].owner == ownerId;
    var cafe := db.cafes[c];
    var at := LocateSystem(cafe.rooms, systemId);
    if at.None? {
      return Fail(NotFound(SystemDoc));
    }
    if SystemAt(cafe.rooms, at.value).status == InSession {
      return Fail(SessionInProgress);
    }
    db.cafes := db.cafes[c := cafe.(rooms := SetStatus(cafe.rooms, at.value, status.value))];
    return Ok(c);
  }

  // ---------------------------------------------------------------------------
  // extendSystemSession

  function ExtendRefusal(bookings: map<BookingId, Booking>, cafes: map<CafeId, Cafe>, ownerId: UserId,
                         bookingId: Option<BookingId>, hoursToAdd: Option<real>): Option<Failure>
  {
    if bookingId.None? || hoursToAdd.None? || hoursToAdd.value <= 0.0 then Some(MissingInput)
    else if bookingId.value !in bookings then Some(NotFound(BookingDoc))
    else
      var b := bookings[bookingId.value];
      if b.owner != ownerId then Some(NotAuthorized)
      else if b.status != Active then Some(WrongStatus(b.status))
      else if b.cafe !in cafes then Some(NotFound(CafeDoc))
      else None
  }

  /** The booking after an extension by `hours` at the prices of `rooms`. */
  function Extended(b: Booking, rooms: seq<Room>, hours: real): Booking {
    b.(duration := b.duration + hours, totalPrice := b.totalPrice + ExtensionPrice(b.systemsBooked, rooms, hours))
  }

  /** Extending twice is extending once by the sum: duration and price both add up. */
  lemma ExtendTwice(b: Booking, rooms: seq<Room>, h1: real, h2: real)
    ensures Extended(Extended(b, rooms, h1), rooms, h2) == Extended(b, rooms, h1 + h2)
  {
    ExtensionPriceAdds(b.systemsBooked, rooms, h1, h2);
  }

  method ExtendSystemSession(db: Db, ownerId: UserId, bookingId: Option<BookingId>, hoursToAdd: Option<real>)
    returns (r: Outcome<BookingId>)
    modifies db
    ensures var refusal := ExtendRefusal(old(db.bookings), old(db.cafes), ownerId, bookingId, hoursToAdd);
            (refusal.Some? ==> r == Fail(refusal.value)) && (refusal.None? ==> r.Ok?)
    ensures r.Fail? ==> unchanged(db)
    ensures r.Ok? ==>
              var id := bookingId.value;
              var b := old(db.bookings)[id];
              r.value == id && hoursToAdd.value > 0.0
              && db.bookings == old(db.bookings)[id := Extended(b, old(db.cafes)[b.cafe].rooms, hoursToAdd.value)]
              && db.cafes == old(db.cafes) && db.wallets == old(db.wallets) && db.payments == old(db.payments)
  {
    if bookingId.None? || hoursToAdd.None? || hoursToAdd.value <= 0.0 {
      return Fail(MissingInput);
    }
    var id := bookingId.value;
    var hours := hoursToAdd.value;
    if id !in db.bookings {
      return Fail(NotFound(BookingDoc));
    }
    var booking := db.bookings[id];
    if booking.owner != ownerId {
      return Fail(NotAuthorized);
    }
    if booking.status != Active {
      return Fail(WrongStatus(booking.status));
    }
    if booking.cafe !in db.cafes {
      return Fail(NotFound(CafeDoc));
    }
    var cafe := db.cafes[booking.cafe];
    var priceToAdd := PriceToAdd(booking.systemsBooked, cafe.rooms, hours);
    db.bookings := db.bookings[id := booking.(duration := booking.duration + hours,
                                              totalPrice := booking.totalPrice + priceToAdd)];
    return Ok(id);
  }

  // ---------------------------------------------------------------------------
  // getSystemAvailability: the projection of a cafe's rooms for the owner.

  /** One system as the owner's dashboard sees it. Times are milliseconds; the
      end instant is reported as a number rather than an ISO date string. */
  datatype SystemView = SystemView(
    systemId: string, systemType: string, status: string,
    activeBookingId: Option<BookingId>, customerName: Option<string>,
    endTime: Option<real>, remainingTime: Option<real>)

  datatype RoomView = RoomView(roomType: string, systems: seq<SystemView>)

  datatype Availability = Availability(rooms: seq<RoomView>, activeSessions: seq<SystemView>)

  /** The local calendar: `new Date(bookingDate)` moved to `hour` and to the minutes
      of the start label by `setHours`, as milliseconds; `None` is an invalid date. */
  type Calendar = (int, int, string) -> Option<int>

  /** The instant a booking's session starts, from its date and its start label. */
  function SessionStart(b: Booking, calendar: Calendar): Option<int> {
    match TimeToHour(Some(b.startTime))
    case None => None
    case Some(h) => calendar(b.bookingDate, h, b.startTime)
  }

  /** `start + duration * 60 * 60 * 1000`. */
  function SessionEnd(start: int, duration: real): (end: real)
    ensures duration >= 0.0 ==> end >= start as real
    ensures end - start as real == duration * 3600000.0
  {
    start as real + duration * 60.0 * 60.0 * 1000.0
  }

  /** `Math.max(0, end - now)`: never negative, zero exactly once the end has
      passed, and otherwise the time left until the end. */
  function RemainingTime(end: real, now: int): (left: real)
    ensures left >= 0.0
    ensures left == 0.0 <==> end <= now as real
    ensures left > 0.0 ==> now as real + left == end
  {
    if end - now as real > 0.0 then end - now as real else 0.0
  }

  /** The remaining time never grows as the clock advances. */
  lemma RemainingShrinks(end: real, now1: int, now2: int)
    requires now1 <= now2
    ensures RemainingTime(end, now2) <= RemainingTime(end, now1)
    ensures RemainingTime(end, now1) - RemainingTime(end, now2) <= (now2 - now1) as real
  {
  }

  /** `walkInCustomerName || (customer ? customer.name : 'Customer')`. The
      customer reference is not populated, so a registered customer's name
      reads as `undefined`. */
  function CustomerName(b: Booking): (name: Option<string>)
    ensures b.walkInCustomerName.Some? && b.walkInCustomerName.value != "" ==> name == b.walkInCustomerName
    ensures (b.walkInCustomerName.None? || b.walkInCustomerName.value == "") ==>
              (name.None? <==> b.customer.Some?) && (name.Some? ==> name.value == "Customer")
  {
    if b.walkInCustomerName.Some? && b.walkInCustomerName.value != "" then b.walkInCustomerName
    else if b.customer.Some? then None
    else Some("Customer")
  }

  /** The system is shown as a running session: 'In Session' with a back-reference
      that still resolves to a booking. */
  predicate ShowsSession(s: System, bookings: map<BookingId, Booking>) {
    s.status == InSession && s.activeBooking.Some? && s.activeBooking.value in bookings
  }

  /** The view of one system; `None` when its session start is not a valid date,
      which makes the whole request fail. */
  function ViewOf(s: System, bookings: map<BookingId, Booking>, now: int, calendar: Calendar): (v: Option<SystemView>)
    ensures !ShowsSession(s, bookings) ==> v == Some(SystemView(s.systemId, s.systemType, s.status, None, None, None, None))
    ensures v.Some? ==> v.value.systemId == s.systemId && v.value.systemType == s.systemType && v.value.status == s.status
    ensures v.Some? && ShowsSession(s, bookings) ==>
              var b := bookings[s.activeBooking.value];
              SessionStart(b, calendar).Some?
              && v.value.activeBookingId == s.activeBooking
              && v.value.customerName == CustomerName(b)
              && v.value.endTime == Some(SessionEnd(SessionStart(b, calendar).value, b.duration))
              && v.value.remainingTime == Some(RemainingTime(v.value.endTime.value, now))
    ensures v.None? <==> ShowsSession(s, bookings) && SessionStart(bookings[s.activeBooking.value], calendar).None?
  {
    if ShowsSession(s, bookings) then
      var b := bookings[s.activeBooking.value];
      match SessionStart(b, calendar)
      case None => None
      case Some(start) =>
        var end := SessionEnd(start, b.duration);
        Some(SystemView(s.systemId, s.systemType, s.status, s.activeBooking, CustomerName(b), Some(end), Some(RemainingTime(end, now))))
    else
      Some(SystemView(s.systemId, s.systemType, s.status, None, None, None, None))
  }

  /** The session entries among some views, in order. */
  function Sessions(views: seq<SystemView>): seq<SystemView> {
    if views == [] then []
    else Sessions(views[..|views| - 1]) + (if views[|views| - 1].activeBookingId.Some? then [views[|views| - 1]] else [])
  }

  function SessionsIn(rooms: seq<RoomView>): seq<SystemView> {
    if rooms == [] then [] else SessionsIn(rooms[..|rooms| - 1]) + Sessions(rooms[|rooms| - 1].systems)
  }

  /** The views of one room, built by `push` in order. */
  method ViewRoom(room: Room, bookings: map<BookingId, Booking>, now: int, calendar: Calendar)
    returns (views: Option<seq<SystemView>>)
    ensures views.None? <==> exists k :: 0 <= k < |room.systems| && ViewOf(room.systems[k], bookings, now, calendar).None?
    ensures views.Some? ==> |views.value| == |room.systems|
    ensures views.Some? ==>
              forall k :: 0 <= k < |room.systems| ==> ViewOf(room.systems[k], bookings, now, calendar) == Some(views.value[k])
  {
    var out: seq<SystemView> := [];
    var k := 0;
    while k < |room.systems|
      invariant 0 <= k <= |room.systems| && |out| == k
      invariant forall j :: 0 <= j < k ==> ViewOf(room.systems[j], bookings, now, calendar) == Some(out[j])
    {
      var v := ViewOf(room.systems[k], bookings, now, calendar);
      if v.None? {
        return None;
      }
      out := out + [v.value];
      k := k + 1;
    }
    return Some(out);
  }

  /** `getSystemAvailability`: for the owner's cafe, every room and system in
      order, and the running sessions among them in the same order. */
  method GetSystemAvailability(db: Db, ownerId: UserId, cafeId: CafeId, now: int, calendar: Calendar)
    returns (r: Outcome<Availability>)
    ensures !ManagesCafe(db.cafes, ownerId, cafeId) ==> r == Fail(NotFound(CafeDoc))
    ensures ManagesCafe(db.cafes, ownerId, cafeId) ==>
              var rooms := db.cafes[cafeId].rooms;
              (r.Fail? <==> exists i, k :: 0 <= i < |rooms| && 0 <= k < |rooms[i].systems|
                                           && ViewOf(rooms[i].systems[k], db.bookings, now, calendar).None?)
              && (r.Fail? ==> r.failure == InvalidDate)
    ensures r.Ok? ==>
              var rooms := db.cafes[cafeId].rooms;
              |r.value.rooms| == |rooms|
              && (forall i :: 0 <= i < |rooms| ==>
                    r.value.rooms[i].roomType == rooms[i].roomType && |r.value.rooms[i].systems| == |rooms[i].systems|)
              && (forall i, k :: 0 <= i < |rooms| && 0 <= k < |rooms[i].systems| ==>
                    ViewOf(rooms[i].systems[k], db.bookings, now, calendar) == Some(r.value.rooms[i].systems[k]))
              && r.value.activeSessions == SessionsIn(r.value.rooms)
  {
    if !(cafeId in db.cafes && db.cafes[cafeId].owner == ownerId) {
      return Fail(NotFound(CafeDoc));
    }
    var rooms := db.cafes[cafeId].rooms;
    var roomViews: seq<RoomView> := [];
    var active: seq<SystemView> := [];
    var i := 0;
    while i < |rooms|
      invariant 0 <= i <= |rooms| && |roomViews| == i
      invariant forall j :: 0 <= j < i ==>
                  roomViews[j].roomType == rooms[j].roomType && |roomViews[j].systems| == |rooms[j].systems|
      invariant forall j, k :: 0 <= j < i && 0 <= k < |rooms[j].systems| ==>
                  ViewOf(rooms[j].systems[k], db.bookings, now, calendar) == Some(roomViews[j].systems[k])
      invariant active == SessionsIn(roomViews)
    {
      var views := ViewRoom(rooms[i], db.bookings, now, calendar);
      if views.None? {
        return Fail(InvalidDate);
      }
      var next := roomViews + [RoomView(rooms[i].roomType, views.value)];
      assert next[..i] == roomViews;
      SessionsOrder(views.value);
      active := active + Sessions(views.value);
      roomViews := next;
      i := i + 1;
    }
    return Ok(Availability(roomViews, active));
  }

  /** The session list of a room keeps exactly its running sessions, in order. */
  lemma {:induction false} SessionsOrder(views: seq<SystemView>)
    ensures forall v :: v in Sessions(views) <==> v in views && v.activeBookingId.Some?
  {
    if views != [] {
      SessionsOrder(views[..|views| - 1]);
      assert views == views[..|views| - 1] + [views[|views| - 1]];
    }
  }
}
