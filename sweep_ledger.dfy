/** What the expiry sweep of services/cronService.js does to the documents,
    stated declaratively: which bookings it completes and which systems it
    frees. The sweep's loops are proved against these functions. */
module SweepLedger {
  import opened Common
  import opened BookingModel
  import opened Venue
  import opened SessionLedger

  /** The query `{ status: 'Active', sessionEndTime: { $lte: now } }`. */
  predicate Expired(b: Booking, now: int) {
    b.status == Active && b.sessionEndTime.Some? && b.sessionEndTime.value <= now
  }

  function Selected(bookings: map<BookingId, Booking>, now: int): set<BookingId> {
    set id | id in bookings && Expired(bookings[id], now)
  }

  /** `startSession` marks a booking `Active` and records its systems but writes
      no `sessionEndTime`; a booking without one is never selected, so the sweep
      leaves the started booking as it is at every clock reading. */
  lemma StartedNeverSwept(bookings: map<BookingId, Booking>, id: BookingId, entries: seq<AssignedSystem>, now: int)
    requires id in bookings && bookings[id].sessionEndTime.None?
    ensures var started := bookings[id := bookings[id].(status := Active, assignedSystems := entries)];
            id !in Selected(started, now) && CompletedBookings(started, Selected(started, now))[id] == started[id]
  {
  }

  /** The bookings after the sweep has completed those in `ids`. */
  function CompletedBookings(bookings: map<BookingId, Booking>, ids: set<BookingId>): map<BookingId, Booking> {
    map id | id in bookings :: if id in ids then bookings[id].(status := Completed) else bookings[id]
  }

  /** Completing keeps every booking; those in `ids` change their status to
      'Completed' and nothing else, all others are untouched. */
  lemma CompletedBookingsShape(bookings: map<BookingId, Booking>, ids: set<BookingId>)
    ensures var r := CompletedBookings(bookings, ids);
            r.Keys == bookings.Keys
            && (forall id :: id in bookings && id in ids ==> r[id] == bookings[id].(status := Completed))
            && (forall id :: id in bookings && id !in ids ==> r[id] == bookings[id])
  {
  }

  /** `cafe.rooms.find(r => r.name === roomType)`: an absent name matches an absent room type. */
  function RoomNamed(rooms: seq<Room>, name: Option<string>): Option<nat> {
    FirstWhere(rooms, (r: Room) => r.name == name)
  }

  /** The slot an assigned entry resolves to: the first room whose name is the
      entry's room type, then the first system in it with the entry's id. */
  function Resolve(rooms: seq<Room>, e: AssignedSystem): (at: Option<Slot>)
    ensures at.Some? ==> ValidSlot(rooms, at.value) && SystemAt(rooms, at.value).systemId == e.systemId
                         && rooms[at.value.room].name == e.roomType
  {
    match RoomNamed(rooms, e.roomType)
    case None => None
    case Some(i) =>
      match SystemWithId(rooms[i].systems, e.systemId)
      case None => None
      case Some(k) => Some(Slot(i, k))
  }

  /** Rooms of the same layout resolve every entry to the same slot. */
  lemma ResolveLayout(a: seq<Room>, b: seq<Room>, e: AssignedSystem)
    requires SameLayout(a, b)
    ensures Resolve(a, e) == Resolve(b, e)
  {
    FirstWhereCongruent(a, (r: Room) => r.name == e.roomType, b, (r: Room) => r.name == e.roomType);
    match RoomNamed(a, e.roomType)
    case None =>
    case Some(i) =>
      FirstWhereCongruent(a[i].systems, (s: System) => s.systemId == e.systemId,
                          b[i].systems, (s: System) => s.systemId == e.systemId);
  }

  /** The slots a list of assigned entries resolves to. */
  function TargetSlots(rooms: seq<Room>, entries: seq<AssignedSystem>): set<Slot> {
    set e | e in entries && Resolve(rooms, e).Some? :: Resolve(rooms, e).value
  }

  /** The slots of cafe `c` that the bookings in `ids` resolve to. */
  function SweepSlots(rooms: seq<Room>, c: CafeId, bookings: map<BookingId, Booking>, ids: set<BookingId>): set<Slot> {
    set id, e | id in ids && id in bookings && bookings[id].cafe == c && e in bookings[id].assignedSystems
                && Resolve(rooms, e).Some? :: Resolve(rooms, e).value
  }

  function Vacate(s: System): System {
    s.(status := Available, activeBooking := None)
  }

  /** The rooms with every system at one of `slots` freed, provided its status
      is 'Active'; systems in any other state, 'In Session' included, stay. */
  function FreeSlots(rooms: seq<Room>, slots: set<Slot>): (r: seq<Room>)
    ensures SameLayout(rooms, r)
    ensures forall i, k :: 0 <= i < |rooms| && 0 <= k < |rooms[i].systems| ==>
              r[i].systems[k] == (if Slot(i, k) in slots && rooms[i].systems[k].status == ActiveLabel
                                  then Vacate(rooms[i].systems[k]) else rooms[i].systems[k])
  {
    seq(|rooms|, i requires 0 <= i < |rooms| =>
      rooms[i].(systems := seq(|rooms[i].systems|, k requires 0 <= k < |rooms[i].systems| =>
        if Slot(i, k) in slots && rooms[i].systems[k].status == ActiveLabel
        then Vacate(rooms[i].systems[k]) else rooms[i].systems[k])))
  }

  /** Freeing one system in place. */
  function FreeAt(rooms: seq<Room>, at: Slot): seq<Room>
    requires ValidSlot(rooms, at)
  {
    var room := rooms[at.room];
    rooms[at.room := room.(systems := room.systems[at.index := Vacate(room.systems[at.index])])]
  }

  lemma FreeSlotsEmpty(rooms: seq<Room>)
    ensures FreeSlots(rooms, {}) == rooms
  {
    var r := FreeSlots(rooms, {});
    forall i | 0 <= i < |rooms| ensures r[i] == rooms[i] {
      assert r[i].systems == rooms[i].systems;
    }
  }

  /** Freeing in two passes frees what one pass over both slot sets frees. */
  lemma FreeSlotsTwice(rooms: seq<Room>, a: set<Slot>, b: set<Slot>)
    ensures FreeSlots(FreeSlots(rooms, a), b) == FreeSlots(rooms, a + b)
  {
    var r1 := FreeSlots(FreeSlots(rooms, a), b);
    var r2 := FreeSlots(rooms, a + b);
    forall i | 0 <= i < |rooms| ensures r1[i] == r2[i] {
      assert r1[i].systems == r2[i].systems;
    }
  }

  /** Freeing an 'Active' system in place is freeing its slot as well. */
  lemma FreeAtStep(rooms: seq<Room>, slots: set<Slot>, at: Slot)
    requires ValidSlot(rooms, at) && SystemAt(rooms, at).status == ActiveLabel
    ensures FreeAt(FreeSlots(rooms, slots), at) == FreeSlots(rooms, slots + {at})
  {
    var r1 := FreeAt(FreeSlots(rooms, slots), at);
    var r2 := FreeSlots(rooms, slots + {at});
    forall i | 0 <= i < |rooms| ensures r1[i] == r2[i] {
      assert r1[i].systems == r2[i].systems;
    }
  }

  /** A system still 'Active' after freeing was 'Active' before. */
  lemma VacatedNotActive(rooms: seq<Room>, slots: set<Slot>, at: Slot)
    requires ValidSlot(rooms, at) && SystemAt(FreeSlots(rooms, slots), at).status == ActiveLabel
    ensures SystemAt(rooms, at).status == ActiveLabel
  {
    assert Available != ActiveLabel by {
      assert |Available| != |ActiveLabel|;
    }
  }

  /** A slot whose system is no longer 'Active' adds nothing. */
  lemma FreeSkipStep(rooms: seq<Room>, slots: set<Slot>, at: Slot)
    requires ValidSlot(rooms, at) && SystemAt(FreeSlots(rooms, slots), at).status != ActiveLabel
    ensures FreeSlots(rooms, slots + {at}) == FreeSlots(rooms, slots)
  {
    var r1 := FreeSlots(rooms, slots + {at});
    var r2 := FreeSlots(rooms, slots);
    forall i | 0 <= i < |rooms| ensures r1[i] == r2[i] {
      assert r1[i].systems == r2[i].systems;
    }
  }

  /** Freeing slots whose systems are none of them 'Active' changes nothing. */
  lemma FreeSlotsInert(rooms: seq<Room>, slots: set<Slot>)
    requires forall at :: at in slots && ValidSlot(rooms, at) ==> SystemAt(rooms, at).status != ActiveLabel
    ensures FreeSlots(rooms, slots) == rooms
  {
    var r := FreeSlots(rooms, slots);
    forall i | 0 <= i < |rooms| ensures r[i] == rooms[i] {
      forall k | 0 <= k < |rooms[i].systems| ensures r[i].systems[k] == rooms[i].systems[k] {
        if Slot(i, k) in slots {
          assert ValidSlot(rooms, Slot(i, k));
        }
      }
    }
  }

  lemma TargetSlotsStep(rooms: seq<Room>, entries: seq<AssignedSystem>, j: nat)
    requires j < |entries|
    ensures TargetSlots(rooms, entries[..j + 1])
         == TargetSlots(rooms, entries[..j])
            + (if Resolve(rooms, entries[j]).Some? then {Resolve(rooms, entries[j]).value} else {})
  {
    assert entries[..j + 1] == entries[..j] + [entries[j]];
  }

  lemma TargetSlotsLayout(a: seq<Room>, b: seq<Room>, entries: seq<AssignedSystem>)
    requires SameLayout(a, b)
    ensures TargetSlots(a, entries) == TargetSlots(b, entries)
  {
    forall e | e in entries ensures Resolve(a, e) == Resolve(b, e) {
      ResolveLayout(a, b, e);
    }
  }

  lemma SweepSlotsStep(rooms: seq<Room>, c: CafeId, bookings: map<BookingId, Booking>, ids: set<BookingId>, id: BookingId)
    requires id in bookings
    ensures SweepSlots(rooms, c, bookings, ids + {id})
         == SweepSlots(rooms, c, bookings, ids)
            + (if bookings[id].cafe == c then TargetSlots(rooms, bookings[id].assignedSystems) else {})
  {
  }

  lemma SweepSlotsNone(rooms: seq<Room>, c: CafeId, bookings: map<BookingId, Booking>)
    ensures SweepSlots(rooms, c, bookings, {}) == {}
  {
  }

  /** Some slot of `slots` holds an 'Active' system. */
  predicate AnyActive(rooms: seq<Room>, slots: set<Slot>) {
    exists at :: at in slots && ValidSlot(rooms, at) && SystemAt(rooms, at).status == ActiveLabel
  }

  /** The slot set an entry adds: its resolved slot, if any. */
  function EntrySlot(rooms: seq<Room>, e: AssignedSystem): set<Slot> {
    if Resolve(rooms, e).Some? then {Resolve(rooms, e).value} else {}
  }

  /** One entry of the inner loop: find the room by name and the system by id,
      and free the system if it is 'Active'. */
  method FreeEntry(rooms: seq<Room>, e: AssignedSystem) returns (freed: seq<Room>, hit: bool)
    ensures freed == FreeSlots(rooms, EntrySlot(rooms, e))
    ensures hit <==> AnyActive(rooms, EntrySlot(rooms, e))
  {
    freed := rooms;
    hit := false;
    var room := RoomNamed(rooms, e.roomType);
    if room.Some? {
      var system := SystemWithId(rooms[room.value].systems, e.systemId);
      if system.Some? {
        var at := Slot(room.value, system.value);
        assert EntrySlot(rooms, e) == {at};
        if rooms[at.room].systems[at.index].status == ActiveLabel {
          FreeSlotsEmpty(rooms);
          assert {} + {at} == {at};
          FreeAtStep(rooms, {}, at);
          freed := FreeAt(rooms, at);
          hit := true;
        } else {
          FreeSlotsInert(rooms, {at});
        }
        return;
      }
    }
    FreeSlotsEmpty(rooms);
  }

  lemma AnyActiveStep(rooms: seq<Room>, before: set<Slot>, e: AssignedSystem)
    requires SameLayout(rooms, FreeSlots(rooms, before))
    ensures AnyActive(rooms, before + EntrySlot(rooms, e))
        <==> AnyActive(rooms, before) || AnyActive(FreeSlots(rooms, before), EntrySlot(rooms, e))
  {
    var freed := FreeSlots(rooms, before);
    if AnyActive(FreeSlots(rooms, before), EntrySlot(rooms, e)) {
      var at :| at in EntrySlot(rooms, e) && ValidSlot(freed, at) && SystemAt(freed, at).status == ActiveLabel;
      VacatedNotActive(rooms, before, at);
    }
    if AnyActive(rooms, before + EntrySlot(rooms, e)) && !AnyActive(rooms, before) {
      var at :| at in before + EntrySlot(rooms, e) && ValidSlot(rooms, at) && SystemAt(rooms, at).status == ActiveLabel;
      assert at !in before;
      assert SystemAt(freed, at).status == ActiveLabel;
    }
  }

  /** The loop step of `FreeAssigned`: freeing the next entry's slot in the
      rooms freed so far frees the prefix one entry longer. */
  lemma FreeAssignedStep(rooms: seq<Room>, entries: seq<AssignedSystem>, j: nat, freed: seq<Room>, next: seq<Room>, hit: bool)
    requires j < |entries|
    requires freed == FreeSlots(rooms, TargetSlots(rooms, entries[..j]))
    requires next == FreeSlots(freed, EntrySlot(freed, entries[j]))
    requires hit <==> AnyActive(freed, EntrySlot(freed, entries[j]))
    ensures next == FreeSlots(rooms, TargetSlots(rooms, entries[..j + 1]))
    ensures AnyActive(rooms, TargetSlots(rooms, entries[..j + 1])) <==> AnyActive(rooms, TargetSlots(rooms, entries[..j])) || hit
  {
    var e := entries[j];
    var before := TargetSlots(rooms, entries[..j]);
    TargetSlotsStep(rooms, entries, j);
    ResolveLayout(rooms, freed, e);
    assert EntrySlot(freed, e) == EntrySlot(rooms, e);
    assert TargetSlots(rooms, entries[..j + 1]) == before + EntrySlot(rooms, e);
    AnyActiveStep(rooms, before, e);
    FreeSlotsTwice(rooms, before, EntrySlot(rooms, e));
  }

  /** One pass over a booking's assigned entries (the inner loop of the sweep):
      each entry's system is freed if it is 'Active'; `updated` records whether
      any was. */
  method FreeAssigned(rooms: seq<Room>, entries: seq<AssignedSystem>) returns (freed: seq<Room>, updated: bool)
    ensures freed == FreeSlots(rooms, TargetSlots(rooms, entries))
    ensures updated <==> AnyActive(rooms, TargetSlots(rooms, entries))
    ensures !updated ==> freed == rooms
  {
    freed := rooms;
    updated := false;
    FreeSlotsEmpty(rooms);
    assert TargetSlots(rooms, entries[..0]) == {};
    var j := 0;
    while j < |entries|
      invariant 0 <= j <= |entries|
      invariant freed == FreeSlots(rooms, TargetSlots(rooms, entries[..j]))
      invariant updated <==> AnyActive(rooms, TargetSlots(rooms, entries[..j]))
    {
      var next, hit := FreeEntry(freed, entries[j]);
      FreeAssignedStep(rooms, entries, j, freed, next, hit);
      freed := next;
      updated := updated || hit;
      j := j + 1;
    }
    assert entries[..j] == entries;
    if !updated {
      FreeSlotsInert(rooms, TargetSlots(rooms, entries));
    }
  }

  /** The cafes after the sweep has freed the systems of the bookings in `ids`. */
  function FreedCafes(cafes: map<CafeId, Cafe>, bookings: map<BookingId, Booking>, ids: set<BookingId>): map<CafeId, Cafe> {
    map c | c in cafes :: cafes[c].(rooms := FreeSlots(cafes[c].rooms, SweepSlots(cafes[c].rooms, c, bookings, ids)))
  }

  /** The sweep keeps every cafe, its owner, its name and its layout; it frees
      only 'Active' systems that a swept booking of that cafe resolves to. */
  lemma FreedCafesShape(cafes: map<CafeId, Cafe>, bookings: map<BookingId, Booking>, ids: set<BookingId>)
    ensures var r := FreedCafes(cafes, bookings, ids);
            r.Keys == cafes.Keys
            && (forall c :: c in cafes ==>
                  r[c].owner == cafes[c].owner && r[c].name == cafes[c].name && SameLayout(cafes[c].rooms, r[c].rooms))
            && (forall c, i, k ::
                  c in cafes && 0 <= i < |cafes[c].rooms| && 0 <= k < |cafes[c].rooms[i].systems|
                  && r[c].rooms[i].systems[k] != cafes[c].rooms[i].systems[k]
                  ==>
                    cafes[c].rooms[i].systems[k].status == ActiveLabel
                    && r[c].rooms[i].systems[k] == Vacate(cafes[c].rooms[i].systems[k])
                    && exists id, e :: id in ids && id in bookings && bookings[id].cafe == c
                                       && e in bookings[id].assignedSystems && Resolve(cafes[c].rooms, e) == Some(Slot(i, k)))
  {
  }

  /** A sweep over no bookings changes nothing. */
  lemma SweepNothing(cafes: map<CafeId, Cafe>, bookings: map<BookingId, Booking>)
    ensures FreedCafes(cafes, bookings, {}) == cafes
    ensures CompletedBookings(bookings, {}) == bookings
  {
    forall c | c in cafes ensures FreedCafes(cafes, bookings, {})[c] == cafes[c] {
      SweepSlotsNone(cafes[c].rooms, c, bookings);
      FreeSlotsEmpty(cafes[c].rooms);
    }
  }

  /** After a sweep, the only bookings still selected are those whose save failed. */
  lemma SweepLeavesFailed(bookings: map<BookingId, Booking>, now: int, failed: set<BookingId>)
    ensures Selected(CompletedBookings(bookings, Selected(bookings, now) - failed), now) == Selected(bookings, now) * failed
  {
    CompletedBookingsShape(bookings, Selected(bookings, now) - failed);
  }

  /** Sweeping again at the same instant after a sweep in which every save went
      through changes nothing. */
  lemma SweepIdempotent(cafes: map<CafeId, Cafe>, bookings: map<BookingId, Booking>, now: int)
    ensures var b1 := CompletedBookings(bookings, Selected(bookings, now));
            var c1 := FreedCafes(cafes, bookings, Selected(bookings, now));
            CompletedBookings(b1, Selected(b1, now)) == b1 && FreedCafes(c1, b1, Selected(b1, now)) == c1
  {
    var b1 := CompletedBookings(bookings, Selected(bookings, now));
    var c1 := FreedCafes(cafes, bookings, Selected(bookings, now));
    assert Selected(bookings, now) - {} == Selected(bookings, now);
    SweepLeavesFailed(bookings, now, {});
    assert Selected(b1, now) == {};
    SweepNothing(c1, b1);
  }

  /** The sweep frees only 'Active' systems, so a system that `startSession`
      put 'In Session' stays occupied whatever slots the sweep targets. */
  lemma SweepKeepsStartedSessions(rooms: seq<Room>, ids: seq<string>, b: BookingId, slots: set<Slot>)
    ensures var r := FreeSlots(OccupyRooms(rooms, ids, b), slots);
            forall i, k :: 0 <= i < |rooms| && 0 <= k < |rooms[i].systems| && rooms[i].systems[k].systemId in ids ==>
              r[i].systems[k].status == InSession && r[i].systems[k].activeBooking == Some(b)
  {
  }
}
