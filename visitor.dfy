/**
 * Visitor pattern demo: a house of rooms accepts a visitor that, before the
 * owner leaves for work, switches every room's light off and locks the doors.
 *
 * `House.accept` and `Room.accept` decide which `visit` calls the visitor
 * receives and in what order; they are modelled as the trace of those calls.
 * The leave-for-work visitor's reaction to each call is an `Effect`, and the
 * line each effect prints is its `Message`.
 */
module Visitor {

  datatype Room = Room(name: string)

  /** A house and its rooms, in the collection's iteration order. */
  datatype House = House(rooms: seq<Room>)

  /** One call of the visitor: `visit(Room)` or `visit(House)`. */
  datatype Visit = VisitRoom(room: Room) | VisitHouse(house: House)

  /** `Room.accept`: the room hands itself to the visitor, once. */
  function RoomAccept(room: Room): (visits: seq<Visit>)
    ensures |visits| == 1 && visits[0].VisitRoom? && visits[0].room == room
  {
    [VisitRoom(room)]
  }

  /** The calls `House.accept` makes: every room in order, then the house itself. */
  ghost predicate AcceptOrder(house: House, visits: seq<Visit>)
  {
    && |visits| == |house.rooms| + 1
    && (forall i :: 0 <= i < |house.rooms| ==> visits[i] == VisitRoom(house.rooms[i]))
    && visits[|house.rooms|] == VisitHouse(house)
  }

  /** `House.accept`: lets every room accept the visitor, in order, then visits the house. */
  method HouseAccept(house: House) returns (visits: seq<Visit>)
    ensures AcceptOrder(house, visits)
  {
    visits := [];
    for i := 0 to |house.rooms|
      invariant |visits| == i
      invariant forall k :: 0 <= k < i ==> visits[k] == VisitRoom(house.rooms[k])
    {
      visits := visits + RoomAccept(house.rooms[i]);
    }
    visits := visits + [VisitHouse(house)];
  }

  /** Each room is visited exactly at its own position, and the house exactly once, last. */
  lemma VisitedExactlyOnce(house: House, visits: seq<Visit>)
    requires AcceptOrder(house, visits)
    ensures forall i :: 0 <= i < |visits| ==> (visits[i] == VisitHouse(house) <==> i == |house.rooms|)
    ensures forall i :: 0 <= i < |house.rooms| ==> visits[i].VisitRoom? && visits[i].room == house.rooms[i]
  {
  }

  /** What the leave-for-work visitor makes happen. */
  datatype Effect = LightSet(room: Room, on: bool) | DoorsLocked(house: House)

  /** `LeaveForWorkVisitor.visit`: a room's light goes off; the house's doors get locked. */
  function LeaveForWork(v: Visit): (e: Effect)
    ensures v.VisitRoom? ==> e.LightSet? && e.room == v.room && !e.on
    ensures v.VisitHouse? ==> e.DoorsLocked? && e.house == v.house
  {
    match v
    case VisitRoom(room) => LightSet(room, false)
    case VisitHouse(house) => DoorsLocked(house)
  }

  /** The visitor's reactions to a trace of calls, in the same order. */
  function Reactions(visits: seq<Visit>): (effects: seq<Effect>)
    ensures |effects| == |visits|
    ensures forall i :: 0 <= i < |visits| ==> effects[i] == LeaveForWork(visits[i])
  {
    if visits == [] then [] else [LeaveForWork(visits[0])] + Reactions(visits[1..])
  }

  /**
   * Sending the leave-for-work visitor through a house switches every room's
   * light off, in room order, and locks the doors once, after all rooms.
   */
  lemma LeaveForWorkOutcome(house: House, visits: seq<Visit>)
    requires AcceptOrder(house, visits)
    ensures var effects := Reactions(visits);
      && |effects| == |house.rooms| + 1
      && (forall i :: 0 <= i < |house.rooms| ==> effects[i] == LightSet(house.rooms[i], false))
      && (forall i :: 0 <= i < |effects| ==> (effects[i].DoorsLocked? <==> i == |house.rooms|))
  {
  }

  const LOCK_MESSAGE: string := "Locking the front door."

  /** `Room.setLight`: the printed line says "on" for `true` and "off" for `false`. */
  function SetLightMessage(name: string, on: bool): (msg: string)
    ensures |msg| == 13 + |name| + (if on then 10 else 11)
    ensures msg[..13 + |name|] == "Turning Room " + name
    ensures on ==> msg[13 + |name|..] == " light on."
    ensures !on ==> msg[13 + |name|..] == " light off."
  {
    var head := "Turning Room " + name;
    var tail := " light " + (if on then "on" else "off") + ".";
    assert (head + tail)[..|head|] == head && (head + tail)[|head|..] == tail;
    head + tail
  }

  /**
   * The line printed for an effect: `setLight`'s line names the room and
   * starts with "Turning Room "; `lockDoors` prints its fixed line, which
   * cannot be mistaken for a light line.
   */
  function Message(e: Effect): (msg: string)
    ensures e.DoorsLocked? ==> msg == LOCK_MESSAGE && msg[..13] != "Turning Room "
    ensures e.LightSet? ==> |msg| == 13 + |e.room.name| + (if e.on then 10 else 11)
    ensures e.LightSet? ==> msg[..13 + |e.room.name|] == "Turning Room " + e.room.name
    ensures e.LightSet? ==> (e.on <==> msg[13 + |e.room.name|..] == " light on.")
  {
    match e
    case LightSet(room, on) => SetLightMessage(room.name, on)
    case DoorsLocked(_) =>
      assert LOCK_MESSAGE[..13][0] != "Turning Room "[0];
      LOCK_MESSAGE
  }
}
