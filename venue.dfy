/** The cafe document in the shape the controllers read and write: rooms of
    individually identified systems, each with a status label and a
    back-reference to the booking occupying it. */
module Venue {
  import opened Common

  // System status labels written by the controllers.
  const Available: string := "Available"
  const InSession: string := "In Session"
  const UnderMaintenance: string := "Under Maintenance"
  /** The label the expiry sweep looks for; no controller writes it. */
  const ActiveLabel: string := "Active"

  datatype System = System(
    systemId: string,
    systemType: string,
    pricePerHour: real,
    status: string,
    activeBooking: Option<BookingId>)

  /** `name` is read by the expiry sweep, `roomType` by the booking controllers;
      an absent `name` stands for JavaScript's `undefined`. */
  datatype Room = Room(roomType: string, name: Option<string>, systems: seq<System>)

  datatype Cafe = Cafe(owner: UserId, name: string, rooms: seq<Room>)

  /** Position of a system inside a cafe: room index, then system index. */
  datatype Slot = Slot(room: nat, index: nat)

  predicate ValidSlot(rooms: seq<Room>, at: Slot) {
    at.room < |rooms| && at.index < |rooms[at.room].systems|
  }

  function SystemAt(rooms: seq<Room>, at: Slot): System
    requires ValidSlot(rooms, at)
  {
    rooms[at.room].systems[at.index]
  }

  /** Two room lists hold the same systems in the same places; only status
      and back-reference may differ. */
  predicate SameLayout(a: seq<Room>, b: seq<Room>) {
    |a| == |b|
    && (forall i :: 0 <= i < |a| ==>
          a[i].roomType == b[i].roomType && a[i].name == b[i].name
          && |a[i].systems| == |b[i].systems|)
    && (forall i, k :: 0 <= i < |a| && 0 <= k < |a[i].systems| ==>
          a[i].systems[k].systemId == b[i].systems[k].systemId
          && a[i].systems[k].systemType == b[i].systems[k].systemType
          && a[i].systems[k].pricePerHour == b[i].systems[k].pricePerHour)
  }

  /** `cafe.rooms.find(r => r.roomType === t)`. */
  function RoomOfType(rooms: seq<Room>, t: string): Option<nat> {
    FirstWhere(rooms, (r: Room) => r.roomType == t)
  }

  /** `room.systems.find(s => s.systemType === t)`. */
  function SystemOfType(systems: seq<System>, t: string): Option<nat> {
    FirstWhere(systems, (s: System) => s.systemType == t)
  }

  /** The price the booking controllers read: the first system of type
      `systemType` in the first room of type `roomType`. */
  function PriceOf(rooms: seq<Room>, roomType: string, systemType: string): (r: Option<real>)
    ensures r.Some? <==> exists i, k :: 0 <= i < |rooms| && 0 <= k < |rooms[i].systems|
                                       && rooms[i].roomType == roomType
                                       && (forall j :: 0 <= j < i ==> rooms[j].roomType != roomType)
                                       && rooms[i].systems[k].systemType == systemType
    ensures r.Some? ==> exists i, k :: 0 <= i < |rooms| && 0 <= k < |rooms[i].systems|
                                       && rooms[i].roomType == roomType
                                       && (forall j :: 0 <= j < i ==> rooms[j].roomType != roomType)
                                       && (forall j :: 0 <= j < k ==> rooms[i].systems[j].systemType != systemType)
                                       && rooms[i].systems[k].systemType == systemType
                                       && r.value == rooms[i].systems[k].pricePerHour
  {
    match RoomOfType(rooms, roomType)
    case None => None
    case Some(i) =>
      match SystemOfType(rooms[i].systems, systemType)
      case None => None
      case Some(k) => Some(rooms[i].systems[k].pricePerHour)
  }

  /** Rooms with the same layout resolve prices identically. */
  lemma PriceOfLayout(a: seq<Room>, b: seq<Room>, roomType: string, systemType: string)
    requires SameLayout(a, b)
    ensures PriceOf(a, roomType, systemType) == PriceOf(b, roomType, systemType)
  {
    FirstWhereCongruent(a, (r: Room) => r.roomType == roomType, b, (r: Room) => r.roomType == roomType);
    match RoomOfType(a, roomType)
    case None =>
    case Some(i) =>
      FirstWhereCongruent(a[i].systems, (s: System) => s.systemType == systemType,
                          b[i].systems, (s: System) => s.systemType == systemType);
  }
}
