/** The passes the session controller makes over a cafe's rooms
    (controllers/systemController.js): occupying the named systems when a
    session starts, releasing them when it ends, locating one system for a
    maintenance change, and pricing an extension. Each loop of the source is
    a method proved against the function that specifies it. */
module SessionLedger {
  import opened Common
  import opened BookingModel
  import opened Venue

  // ---------------------------------------------------------------------------
  // Starting a session: every system whose id is named becomes 'In Session'.

  /** A system as `startSession` leaves it: named systems are occupied by `b`. */
  function Occupy(s: System, ids: seq<string>, b: BookingId): System {
    if s.systemId in ids then s.(status := InSession, activeBooking := Some(b)) else s
  }

  function OccupyRoom(room: Room, ids: seq<string>, b: BookingId): Room {
    room.(systems := seq(|room.systems|, k requires 0 <= k < |room.systems| => Occupy(room.systems[k], ids, b)))
  }

  /** The rooms after the occupying pass of `startSession`: the named systems are
      'In Session' and point back at `b`; no other system and no layout changes. */
  function OccupyRooms(rooms: seq<Room>, ids: seq<string>, b: BookingId): (r: seq<Room>)
    ensures SameLayout(rooms, r)
    ensures forall i, k :: 0 <= i < |rooms| && 0 <= k < |rooms[i].systems| && rooms[i].systems[k].systemId in ids ==>
              r[i].systems[k].status == InSession && r[i].systems[k].activeBooking == Some(b)
    ensures forall i, k :: 0 <= i < |rooms| && 0 <= k < |rooms[i].systems| && rooms[i].systems[k].systemId !in ids ==>
              r[i].systems[k] == rooms[i].systems[k]
  {
    seq(|rooms|, i requires 0 <= i < |rooms| => OccupyRoom(rooms[i], ids, b))
  }

  /** Every system the request names is currently 'Available'. */
  predicate AllAvailable(rooms: seq<Room>, ids: seq<string>) {
    forall i, k :: 0 <= i < |rooms| && 0 <= k < |rooms[i].systems| && rooms[i].systems[k].systemId in ids ==>
      rooms[i].systems[k].status == Available
  }

  /** The ids of the named systems that are not 'Available', in visiting order. */
  function UnavailableSystems(systems: seq<System>, ids: seq<string>): seq<string> {
    if systems == [] then []
    else
      var s := systems[|systems| - 1];
      UnavailableSystems(systems[..|systems| - 1], ids)
        + (if s.systemId in ids && s.status != Available then [s.systemId] else [])
  }

  function UnavailableInRooms(rooms: seq<Room>, ids: seq<string>): seq<string> {
    if rooms == [] then []
    else UnavailableInRooms(rooms[..|rooms| - 1], ids) + UnavailableSystems(rooms[|rooms| - 1].systems, ids)
  }

  function LastOf(s: seq<string>): (r: Option<string>)
    ensures r.None? <==> s == []
    ensures r.Some? ==> r.value == s[|s| - 1]
  {
    if s == [] then None else Some(s[|s| - 1])
  }

  lemma {:induction false} UnavailableSystemsMembers(systems: seq<System>, ids: seq<string>, x: string)
    ensures x in UnavailableSystems(systems, ids) <==>
              exists k :: 0 <= k < |systems| && systems[k].systemId == x && x in ids && systems[k].status != Available
  {
    if systems != [] {
      var n := |systems| - 1;
      UnavailableSystemsMembers(systems[..n], ids, x);
      if exists k :: 0 <= k < |systems| && systems[k].systemId == x && x in ids && systems[k].status != Available {
        var k :| 0 <= k < |systems| && systems[k].systemId == x && x in ids && systems[k].status != Available;
        if k < n {
          assert systems[..n][k] == systems[k];
        }
      }
    }
  }

  /** A system id is reported unavailable exactly when some named system with that
      id is not 'Available'. */
  lemma {:induction false} UnavailableMembers(rooms: seq<Room>, ids: seq<string>, x: string)
    ensures x in UnavailableInRooms(rooms, ids) <==>
              exists i, k :: 0 <= i < |rooms| && 0 <= k < |rooms[i].systems|
                && rooms[i].systems[k].systemId == x && x in ids && rooms[i].systems[k].status != Available
  {
    if rooms != [] {
      var n := |rooms| - 1;
      UnavailableMembers(rooms[..n], ids, x);
      UnavailableSystemsMembers(rooms[n].systems, ids, x);
      if exists i, k :: 0 <= i < |rooms| && 0 <= k < |rooms[i].systems|
           && rooms[i].systems[k].systemId == x && x in ids && rooms[i].systems[k].status != Available {
        var i, k :| 0 <= i < |rooms| && 0 <= k < |rooms[i].systems|
           && rooms[i].systems[k].systemId == x && x in ids && rooms[i].systems[k].status != Available;
        if i < n {
          assert rooms[..n][i] == rooms[i];
        }
      }
    }
  }

  /** No system is reported unavailable exactly when every named system is 'Available'. */
  lemma NoneUnavailable(rooms: seq<Room>, ids: seq<string>)
    ensures UnavailableInRooms(rooms, ids) == [] <==> AllAvailable(rooms, ids)
  {
    var u := UnavailableInRooms(rooms, ids);
    if u != [] {
      UnavailableMembers(rooms, ids, u[0]);
    }
    if !AllAvailable(rooms, ids) {
      var i, k :| 0 <= i < |rooms| && 0 <= k < |rooms[i].systems| && rooms[i].systems[k].systemId in ids
                  && rooms[i].systems[k].status != Available;
      UnavailableMembers(rooms, ids, rooms[i].systems[k].systemId);
    }
  }

  /** The inner `forEach` of `startSession` over one room's systems. */
  method OccupyInRoom(systems: seq<System>, ids: seq<string>, b: BookingId) returns (marked: seq<System>, error: Option<string>)
    ensures marked == OccupyRoom(Room("", None, systems), ids, b).systems
    ensures error == LastOf(UnavailableSystems(systems, ids))
  {
    marked := [];
    error := None;
    var k := 0;
    while k < |systems|
      invariant 0 <= k <= |systems| && |marked| == k
      invariant forall j :: 0 <= j < k ==> marked[j] == Occupy(systems[j], ids, b)
      invariant error == LastOf(UnavailableSystems(systems[..k], ids))
    {
      var s := systems[k];
      assert systems[..k + 1][..k] == systems[..k];
      if s.systemId in ids {
        if s.status != Available {
          error := Some(s.systemId);
        }
        marked := marked + [s.(status := InSession, activeBooking := Some(b))];
      } else {
        marked := marked + [s];
      }
      k := k + 1;
    }
    assert systems[..k] == systems;
  }

  /** The nested `forEach` of `startSession`: flips every named system and
      remembers the last named system that was not 'Available'. */
  method OccupySystems(rooms: seq<Room>, ids: seq<string>, b: BookingId) returns (marked: seq<Room>, error: Option<string>)
    ensures marked == OccupyRooms(rooms, ids, b)
    ensures error == LastOf(UnavailableInRooms(rooms, ids))
  {
    marked := [];
    error := None;
    var i := 0;
    while i < |rooms|
      invariant 0 <= i <= |rooms| && |marked| == i
      invariant forall j :: 0 <= j < i ==> marked[j] == OccupyRoom(rooms[j], ids, b)
      invariant error == LastOf(UnavailableInRooms(rooms[..i], ids))
    {
      var room := rooms[i];
      var systems, roomError := OccupyInRoom(room.systems, ids, b);
      if roomError.Some? {
        error := roomError;
      }
      assert rooms[..i + 1][..i] == rooms[..i];
      marked := marked + [room.(systems := systems)];
      i := i + 1;
    }
    assert rooms[..i] == rooms;
  }

  // ---------------------------------------------------------------------------
  // Ending a session: every system whose id is assigned becomes 'Available'.

  function Free(s: System, ids: seq<string>): System {
    if s.systemId in ids then s.(status := Available, activeBooking := None) else s
  }

  function FreeRoom(room: Room, ids: seq<string>): Room {
    room.(systems := seq(|room.systems|, k requires 0 <= k < |room.systems| => Free(room.systems[k], ids)))
  }

  /** The rooms after the releasing pass of `endSession`: the assigned systems
      are 'Available' with no back-reference; nothing else changes. */
  function ReleaseRooms(rooms: seq<Room>, ids: seq<string>): (r: seq<Room>)
    ensures SameLayout(rooms, r)
    ensures forall i, k :: 0 <= i < |rooms| && 0 <= k < |rooms[i].systems| && rooms[i].systems[k].systemId in ids ==>
              r[i].systems[k].status == Available && r[i].systems[k].activeBooking.None?
    ensures forall i, k :: 0 <= i < |rooms| && 0 <= k < |rooms[i].systems| && rooms[i].systems[k].systemId !in ids ==>
              r[i].systems[k] == rooms[i].systems[k]
  {
    seq(|rooms|, i requires 0 <= i < |rooms| => FreeRoom(rooms[i], ids))
  }

  /** The nested `forEach` of `endSession`. */
  method ReleaseSystems(rooms: seq<Room>, ids: seq<string>) returns (freed: seq<Room>)
    ensures freed == ReleaseRooms(rooms, ids)
  {
    freed := [];
    var i := 0;
    while i < |rooms|
      invariant 0 <= i <= |rooms| && |freed| == i
      invariant forall j :: 0 <= j < i ==> freed[j] == FreeRoom(rooms[j], ids)
    {
      var room := rooms[i];
      var systems: seq<System> := [];
      var k := 0;
      while k < |room.systems|
        invariant 0 <= k <= |room.systems| && |systems| == k
        invariant forall j :: 0 <= j < k ==> systems[j] == Free(room.systems[j], ids)
      {
        var s := room.systems[k];
        if s.systemId in ids {
          systems := systems + [s.(status := Available, activeBooking := None)];
        } else {
          systems := systems + [s];
        }
        k := k + 1;
      }
      assert systems == FreeRoom(room, ids).systems;
      freed := freed + [room.(systems := systems)];
      i := i + 1;
    }
  }

  /** Ending a session undoes starting it: when every named system was free
      ('Available', no back-reference), releasing the same ids restores the rooms. */
  lemma ReleaseUndoesOccupy(rooms: seq<Room>, ids: seq<string>, b: BookingId)
    requires forall i, k :: 0 <= i < |rooms| && 0 <= k < |rooms[i].systems| && rooms[i].systems[k].systemId in ids ==>
               rooms[i].systems[k].status == Available && rooms[i].systems[k].activeBooking.None?
    ensures ReleaseRooms(OccupyRooms(rooms, ids, b), ids) == rooms
  {
    var r := ReleaseRooms(OccupyRooms(rooms, ids, b), ids);
    forall i | 0 <= i < |rooms| ensures r[i] == rooms[i] {
      assert r[i].systems == rooms[i].systems;
    }
  }

  // ---------------------------------------------------------------------------
  // Maintenance: the first system with the id, searched room by room.

  function SystemWithId(systems: seq<System>, id: string): Option<nat> {
    FirstWhere(systems, (s: System) => s.systemId == id)
  }

  /** The first slot holding `id`, searching the rooms from index `from` on. */
  function FindFrom(rooms: seq<Room>, id: string, from: nat): (r: Option<Slot>)
    requires from <= |rooms|
    ensures r.Some? ==> ValidSlot(rooms, r.value) && from <= r.value.room && SystemAt(rooms, r.value).systemId == id
    ensures r.Some? ==> forall i, k :: from <= i < r.value.room && 0 <= k < |rooms[i].systems| ==> rooms[i].systems[k].systemId != id
    ensures r.Some? ==> forall k :: 0 <= k < r.value.index ==> rooms[r.value.room].systems[k].systemId != id
    ensures r.None? ==> forall i, k :: from <= i < |rooms| && 0 <= k < |rooms[i].systems| ==> rooms[i].systems[k].systemId != id
    decreases |rooms| - from
  {
    if from == |rooms| then None
    else match SystemWithId(rooms[from].systems, id)
         case Some(k) => Some(Slot(from, k))
         case None => FindFrom(rooms, id, from + 1)
  }

  function FindSystem(rooms: seq<Room>, id: string): Option<Slot> {
    FindFrom(rooms, id, 0)
  }

  /** The `for ... of` loop with `break` of `updateSystemMaintenanceStatus`. */
  method LocateSystem(rooms: seq<Room>, id: string) returns (found: Option<Slot>)
    ensures found == FindSystem(rooms, id)
  {
    var i := 0;
    while i < |rooms|
      invariant 0 <= i <= |rooms|
      invariant FindFrom(rooms, id, i) == FindSystem(rooms, id)
    {
      var k := SystemWithId(rooms[i].systems, id);
      if k.Some? {
        return Some(Slot(i, k.value));
      }
      i := i + 1;
    }
    return None;
  }

  /** Rooms with the same layout locate every id at the same slot. */
  lemma {:induction false} FindFromLayout(a: seq<Room>, b: seq<Room>, id: string, from: nat)
    requires SameLayout(a, b) && from <= |a|
    ensures FindFrom(a, id, from) == FindFrom(b, id, from)
    decreases |a| - from
  {
    if from < |a| {
      FirstWhereCongruent(a[from].systems, (s: System) => s.systemId == id, b[from].systems, (s: System) => s.systemId == id);
      FindFromLayout(a, b, id, from + 1);
    }
  }

  /** The rooms with the status of one system replaced. */
  function SetStatus(rooms: seq<Room>, at: Slot, status: string): (r: seq<Room>)
    requires ValidSlot(rooms, at)
    ensures SameLayout(rooms, r)
    ensures SystemAt(r, at) == SystemAt(rooms, at).(status := status)
    ensures forall i, k :: 0 <= i < |rooms| && 0 <= k < |rooms[i].systems| && Slot(i, k) != at ==>
              r[i].systems[k] == rooms[i].systems[k]
  {
    var room := rooms[at.room];
    rooms[at.room := room.(systems := room.systems[at.index := room.systems[at.index].(status := status)])]
  }

  /** `updateSystemMaintenanceStatus` on the rooms of the owner's cafe, after the
      requested status has been checked: the first system with the id takes the
      status unless it is 'In Session'. */
  function Maintain(rooms: seq<Room>, id: string, status: string): (r: Outcome<seq<Room>>)
    ensures r == Fail(NotFound(SystemDoc)) <==> forall i, k :: 0 <= i < |rooms| && 0 <= k < |rooms[i].systems| ==> rooms[i].systems[k].systemId != id
    ensures r == Fail(SessionInProgress) <==>
              FindSystem(rooms, id).Some? && SystemAt(rooms, FindSystem(rooms, id).value).status == InSession
    ensures r.Fail? ==> r.failure in {NotFound(SystemDoc), SessionInProgress}
    ensures r.Ok? ==> FindSystem(rooms, id).Some? && SystemAt(rooms, FindSystem(rooms, id).value).status != InSession
    ensures r.Ok? ==> var at := FindSystem(rooms, id).value;
                      SameLayout(rooms, r.value)
                      && SystemAt(r.value, at) == SystemAt(rooms, at).(status := status)
                      && forall i, k :: 0 <= i < |rooms| && 0 <= k < |rooms[i].systems| && Slot(i, k) != at ==>
                           r.value[i].systems[k] == rooms[i].systems[k]
    ensures r.Ok? ==> forall i, k :: 0 <= i < |rooms| && 0 <= k < |rooms[i].systems| && rooms[i].systems[k].status == InSession ==>
                        r.value[i].systems[k] == rooms[i].systems[k]
  {
    match FindSystem(rooms, id)
    case None => Fail(NotFound(SystemDoc))
    case Some(at) =>
      if SystemAt(rooms, at).status == InSession then Fail(SessionInProgress)
      else Ok(SetStatus(rooms, at, status))
  }

  /** Putting an available system under maintenance and making it available again
      restores the rooms. */
  lemma MaintenanceRoundTrip(rooms: seq<Room>, id: string)
    requires Maintain(rooms, id, UnderMaintenance).Ok?
    requires SystemAt(rooms, FindSystem(rooms, id).value).status == Available
    ensures Maintain(Maintain(rooms, id, UnderMaintenance).value, id, Available) == Ok(rooms)
  {
    var at := FindSystem(rooms, id).value;
    var r1 := Maintain(rooms, id, UnderMaintenance).value;
    FindFromLayout(rooms, r1, id, 0);
    var r2 := Maintain(r1, id, Available);
    assert r2.Ok?;
    forall i | 0 <= i < |rooms| ensures r2.value[i] == rooms[i] {
      assert r2.value[i].systems == rooms[i].systems by {
        forall k | 0 <= k < |rooms[i].systems| ensures r2.value[i].systems[k] == rooms[i].systems[k] {
          if Slot(i, k) == at {
            assert SystemAt(r2.value, at) == SystemAt(rooms, at);
          }
        }
      }
    }
    assert r2.value == rooms;
  }

  // ---------------------------------------------------------------------------
  // Extending a session: the price of the added hours.

  /** `reduce((acc, curr) => acc + curr.numberOfSystems, 0)`. */
  function TotalSystems(items: seq<LineItem>): int {
    if items == [] then 0 else TotalSystems(items[..|items| - 1]) + items[|items| - 1].numberOfSystems
  }

  /** What one line item adds for `hours` more hours; an item whose room or
      system type no longer resolves adds nothing. */
  function ItemPrice(item: LineItem, rooms: seq<Room>, hours: real): real {
    match PriceOf(rooms, item.roomType, item.systemType)
    case None => 0.0
    case Some(p) => item.numberOfSystems as real * p * hours
  }

  function ExtensionPrice(items: seq<LineItem>, rooms: seq<Room>, hours: real): real {
    if items == [] then 0.0
    else ExtensionPrice(items[..|items| - 1], rooms, hours) + ItemPrice(items[|items| - 1], rooms, hours)
  }

  lemma ItemPriceAdds(item: LineItem, rooms: seq<Room>, h1: real, h2: real)
    ensures ItemPrice(item, rooms, h1) + ItemPrice(item, rooms, h2) == ItemPrice(item, rooms, h1 + h2)
  {
    match PriceOf(rooms, item.roomType, item.systemType)
    case None =>
    case Some(p) =>
      var q := item.numberOfSystems as real * p;
      assert q * h1 + q * h2 == q * (h1 + h2);
  }

  /** Two extensions cost what one extension by their sum costs. */
  lemma {:induction false} ExtensionPriceAdds(items: seq<LineItem>, rooms: seq<Room>, h1: real, h2: real)
    ensures ExtensionPrice(items, rooms, h1) + ExtensionPrice(items, rooms, h2) == ExtensionPrice(items, rooms, h1 + h2)
  {
    if items != [] {
      var n := |items| - 1;
      ExtensionPriceAdds(items[..n], rooms, h1, h2);
      ItemPriceAdds(items[n], rooms, h1, h2);
    }
  }

  /** The accumulating loop of `extendSystemSession`. */
  method PriceToAdd(items: seq<LineItem>, rooms: seq<Room>, hours: real) returns (price: real)
    ensures price == ExtensionPrice(items, rooms, hours)
  {
    price := 0.0;
    var i := 0;
    while i < |items|
      invariant 0 <= i <= |items|
      invariant price == ExtensionPrice(items[..i], rooms, hours)
    {
      var item := items[i];
      var room := RoomOfType(rooms, item.roomType);
      if room.Some? {
        var system := SystemOfType(rooms[room.value].systems, item.systemType);
        if system.Some? {
          price := price + item.numberOfSystems as real * rooms[room.value].systems[system.value].pricePerHour * hours;
        }
      }
      assert items[..i + 1][..i] == items[..i];
      i := i + 1;
    }
    assert items[..i] == items;
  }
}
