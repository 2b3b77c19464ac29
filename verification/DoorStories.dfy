/** What the door commands come to, told without their guards: what they refuse, what they undo, and two rooms. */
module DoorStories {
  import opened Lists
  import opened Doors

  // ----- Refusals

  /** No exit, no door, or one that is hidden from the character: none of the six commands does anything. */
  method NotFound(rooms: Rooms, command: Command)
    requires Good(rooms) && Somewhere(rooms, command.r)
    requires var e := rooms[command.r][command.d]; e == null || !e.isDoor || (e.concealed && !command.sees)
    modifies Sides(rooms, command.r, command.d)`closed, Sides(rooms, command.r, command.d)`barred
    modifies Sides(rooms, command.r, command.d)`locked
    ensures Good(rooms) && forall x :: x in Sides(rooms, command.r, command.d) ==> x.State() == old(x.State())
  {
    match command {
      case Open(r, d, sees, holdsKey, depth) => var back := DoOpen(rooms, r, d, sees, holdsKey, depth);
      case Close(r, d, sees) => DoClose(rooms, r, d, sees);
      case Lock(r, d, sees, holdsKey) => DoLock(rooms, r, d, sees, holdsKey);
      case Unlock(r, d, sees, holdsKey) => DoUnlock(rooms, r, d, sees, holdsKey);
      case Pick(r, d, sees, immortal, rollWins) => DoPick(rooms, r, d, sees, immortal, rollWins);
      case Bar(r, d, sees) => DoBar(rooms, r, d, sees);
    }
  }

  /** Without the key a lock is neither locked nor unlocked, and a locked door not opened. */
  method WithoutKey(rooms: Rooms, r: int, d: Dir, sees: bool)
    requires Good(rooms) && Somewhere(rooms, r) && rooms[r][d] != null && rooms[r][d].locked
    modifies Sides(rooms, r, d)`closed, Sides(rooms, r, d)`locked
    ensures Good(rooms) && forall x :: x in Sides(rooms, r, d) ==> x.State() == old(x.State())
  {
    DoLock(rooms, r, d, sees, false);
    DoUnlock(rooms, r, d, sees, false);
    var back := DoOpen(rooms, r, d, sees, false, 1);
  }

  /** A broken or jammed lock turns neither way, not even for an immortal's pick. */
  method Stuck(rooms: Rooms, r: int, d: Dir, sees: bool, immortal: bool, rollWins: bool, turn: bool)
    requires Good(rooms) && Somewhere(rooms, r) && rooms[r][d] != null && (rooms[r][d].lockBroken || rooms[r][d].lockJammed)
    modifies Sides(rooms, r, d)`locked
    ensures Good(rooms) && forall x :: x in Sides(rooms, r, d) ==> x.State() == old(x.State())
  {
    if immortal || rollWins {
      DoPick(rooms, r, d, sees, immortal, rollWins);
    } else if turn {
      DoLock(rooms, r, d, sees, true);
    } else {
      DoUnlock(rooms, r, d, sees, true);
    }
  }

  /** A mortal's pick that fails, or tries a lock that does not work, leaves the lock as it was. */
  method PickFails(rooms: Rooms, r: int, d: Dir, sees: bool, rollWins: bool)
    requires Good(rooms) && Somewhere(rooms, r) && rooms[r][d] != null && (!rollWins || !rooms[r][d].lockFunctional)
    modifies Sides(rooms, r, d)`locked
    ensures Good(rooms) && forall x :: x in Sides(rooms, r, d) ==> x.State() == old(x.State())
  {
    DoPick(rooms, r, d, sees, false, rollWins);
  }

  /** An immortal's pick needs no roll and no working lock, if the lock is neither broken nor jammed. */
  method ImmortalPicks(rooms: Rooms, r: int, d: Dir)
    requires Good(rooms) && Somewhere(rooms, r) && rooms[r][d] != null && rooms[r][d].isDoor && rooms[r][d].locked
    requires !rooms[r][d].lockBroken && !rooms[r][d].lockJammed
    modifies Sides(rooms, r, d)`locked
    ensures Good(rooms) && forall x :: x in Sides(rooms, r, d) ==> !x.locked && x.closed == old(x.closed) && x.barred == old(x.barred)
  {
    SidesAgree(rooms, r, d);
    DoPick(rooms, r, d, true, true, false);
  }

  /** A broken door does not close; an exit that may not be barred, or not be closed, is not barred. */
  method Unfit(rooms: Rooms, r: int, d: Dir, sees: bool)
    requires Good(rooms) && Somewhere(rooms, r) && rooms[r][d] != null
    requires rooms[r][d].broken && (rooms[r][d].noBar || rooms[r][d].noClose)
    modifies Sides(rooms, r, d)`closed, Sides(rooms, r, d)`barred
    ensures Good(rooms) && forall x :: x in Sides(rooms, r, d) ==> x.State() == old(x.State())
  {
    DoClose(rooms, r, d, sees);
    DoBar(rooms, r, d, sees);
  }

  /** A barred door stays closed. */
  method BarHolds(rooms: Rooms, r: int, d: Dir, sees: bool, holdsKey: bool)
    requires Good(rooms) && Somewhere(rooms, r) && rooms[r][d] != null && rooms[r][d].barred
    modifies Sides(rooms, r, d)`closed, Sides(rooms, r, d)`locked
    ensures Good(rooms) && forall x :: x in Sides(rooms, r, d) ==> x.State() == old(x.State())
  {
    var back := DoOpen(rooms, r, d, sees, holdsKey, 1);
  }

  // ----- Round trips

  /** An open door in working order, in sight. */
  predicate Plain(e: Exit?)
    reads e
  {
    && e != null && e.isDoor && !e.concealed && !e.noClose && !e.noBar && !e.broken
    && e.lockFunctional && !e.lockBroken && !e.lockJammed
  }

  /** A door in working order closes on both sides. */
  method ClosePlain(rooms: Rooms, r: int, d: Dir)
    requires Good(rooms) && Somewhere(rooms, r) && Plain(rooms[r][d]) && !rooms[r][d].closed
    modifies Sides(rooms, r, d)`closed
    ensures Good(rooms) && Plain(rooms[r][d]) && forall x :: x in Sides(rooms, r, d) ==> x.closed && !old(x.closed)
  {
    SidesAgree(rooms, r, d);
    DoClose(rooms, r, d, false);
  }

  /** With the key in hand a locked door opens, unlocked, on both sides. */
  method OpenPlain(rooms: Rooms, r: int, d: Dir)
    requires Good(rooms) && Somewhere(rooms, r) && Plain(rooms[r][d]) && rooms[r][d].locked && !rooms[r][d].barred
    modifies Sides(rooms, r, d)`closed, Sides(rooms, r, d)`locked
    ensures Good(rooms) && Plain(rooms[r][d]) && forall x :: x in Sides(rooms, r, d) ==> !x.closed && !x.locked
  {
    SidesAgree(rooms, r, d);
    var back := DoOpen(rooms, r, d, false, true, 2);
  }

  /** Closing an open door and opening it again leaves both sides as they were. */
  method CloseAndOpen(rooms: Rooms, r: int, d: Dir)
    requires Good(rooms) && Somewhere(rooms, r) && Plain(rooms[r][d]) && !rooms[r][d].closed
    modifies Sides(rooms, r, d)`closed, Sides(rooms, r, d)`locked
    ensures Good(rooms) && forall x :: x in Sides(rooms, r, d) ==> x.State() == old(x.State())
  {
    SidesAgree(rooms, r, d);
    ClosePlain(rooms, r, d);
    assert rooms[r][d] in Sides(rooms, r, d);
    var back := DoOpen(rooms, r, d, false, false, 1);
  }

  /** A closed door in working order and the key in hand: it is locked on both sides. */
  method LockPlain(rooms: Rooms, r: int, d: Dir)
    requires Good(rooms) && Somewhere(rooms, r) && Plain(rooms[r][d]) && rooms[r][d].closed && !rooms[r][d].locked
    modifies Sides(rooms, r, d)`locked
    ensures Good(rooms) && Plain(rooms[r][d]) && rooms[r][d].closed
    ensures forall x :: x in Sides(rooms, r, d) ==> x.locked && !old(x.locked)
  {
    SidesAgree(rooms, r, d);
    assert rooms[r][d] in Sides(rooms, r, d);
    DoLock(rooms, r, d, false, true);
  }

  /** Locking a closed door and unlocking it again leaves both sides as they were. */
  method LockAndUnlock(rooms: Rooms, r: int, d: Dir)
    requires Good(rooms) && Somewhere(rooms, r) && Plain(rooms[r][d]) && rooms[r][d].closed && !rooms[r][d].locked
    modifies Sides(rooms, r, d)`locked
    ensures Good(rooms) && forall x :: x in Sides(rooms, r, d) ==> x.State() == old(x.State())
  {
    LockPlain(rooms, r, d);
    DoUnlock(rooms, r, d, false, true);
  }

  /** A locked door in working order is picked on both sides; an immortal need not roll for it. */
  method PickPlain(rooms: Rooms, r: int, d: Dir, immortal: bool)
    requires Good(rooms) && Somewhere(rooms, r) && Plain(rooms[r][d]) && rooms[r][d].closed && rooms[r][d].locked
    modifies Sides(rooms, r, d)`locked
    ensures Good(rooms) && Plain(rooms[r][d]) && forall x :: x in Sides(rooms, r, d) ==> !x.locked
  {
    SidesAgree(rooms, r, d);
    DoPick(rooms, r, d, false, immortal, !immortal);
  }

  /** So does locking it and picking the lock. */
  method LockAndPick(rooms: Rooms, r: int, d: Dir, immortal: bool)
    requires Good(rooms) && Somewhere(rooms, r) && Plain(rooms[r][d]) && rooms[r][d].closed && !rooms[r][d].locked
    modifies Sides(rooms, r, d)`locked
    ensures Good(rooms) && forall x :: x in Sides(rooms, r, d) ==> x.State() == old(x.State())
  {
    LockPlain(rooms, r, d);
    assert rooms[r][d] in Sides(rooms, r, d);
    PickPlain(rooms, r, d, immortal);
  }

  // ----- Two rooms

  /** Room 1 lies north of room 0; between them a door in working order, open. */
  ghost predicate NorthOf(rooms: Rooms, north: Exit, south: Exit)
    reads north, south
  {
    && |rooms| == 2 && |rooms[0]| == |rooms[1]| == MAX_DIR && north != south
    && (forall d: Dir :: rooms[0][d] == if d == 0 then north else null)
    && (forall d: Dir :: rooms[1][d] == if d == 2 then south else null)
    && north.toRoom == Some(1) && south.toRoom == Some(0) && Plain(north) && Plain(south)
  }

  lemma NorthIsPaired(rooms: Rooms, north: Exit, south: Exit)
    requires NorthOf(rooms, north, south) && north.State() == south.State() && north.State().SideOk()
    ensures Good(rooms) && Sides(rooms, 0, 0) == {north, south}
  {
    assert rooms[0][0] == north && rooms[1][2] == south;
    assert Laid(rooms) && ExitsOf(rooms) == {north, south};
    LinkMeans(rooms, 0, 0, 2);
  }

  method PlainDoor(toRoom: nat) returns (e: Exit)
    ensures fresh(e) && Plain(e) && e.toRoom == Some(toRoom) && e.State() == Bits(false, false, false)
  {
    e := new Exit(Some(toRoom));
    e.isDoor, e.concealed, e.noClose, e.noBar, e.broken := true, false, false, false, false;
    e.lockFunctional, e.lockBroken, e.lockJammed := true, false, false;
  }

  /** Both sides of the door between the two rooms. */
  ghost predicate Between(rooms: Rooms, north: Exit, south: Exit, bits: Bits)
    reads north, south
  {
    NorthOf(rooms, north, south) && north.State() == south.State() == bits
  }

  method TwoRooms() returns (rooms: Rooms, north: Exit, south: Exit)
    ensures Between(rooms, north, south, Bits(false, false, false)) && fresh(north) && fresh(south)
  {
    north := PlainDoor(1);
    south := PlainDoor(0);
    rooms := [[north, null, null, null, null, null, null, null, null, null],
              [null, null, south, null, null, null, null, null, null, null]];
  }

  /** Somebody in room 0 closes the door to the north: the south door of room 1 is closed. */
  method CloseNorth(rooms: Rooms, north: Exit, south: Exit)
    requires Between(rooms, north, south, Bits(false, false, false))
    modifies north`closed, south`closed
    ensures Between(rooms, north, south, Bits(true, false, false))
  {
    NorthIsPaired(rooms, north, south);
    ClosePlain(rooms, 0, 0);
  }

  method LockNorth(rooms: Rooms, north: Exit, south: Exit)
    requires Between(rooms, north, south, Bits(true, false, false))
    modifies north`locked, south`locked
    ensures Between(rooms, north, south, Bits(true, false, true))
  {
    NorthIsPaired(rooms, north, south);
    LockPlain(rooms, 0, 0);
  }

  method PickNorth(rooms: Rooms, north: Exit, south: Exit)
    requires Between(rooms, north, south, Bits(true, false, true))
    modifies north`locked, south`locked
    ensures Between(rooms, north, south, Bits(true, false, false))
  {
    NorthIsPaired(rooms, north, south);
    PickPlain(rooms, 0, 0, false);
  }

  method BarNorth(rooms: Rooms, north: Exit, south: Exit)
    requires Between(rooms, north, south, Bits(true, false, false))
    modifies north`barred, south`barred
    ensures Between(rooms, north, south, Bits(true, true, false))
  {
    NorthIsPaired(rooms, north, south);
    DoBar(rooms, 0, 0, false);
  }

  /** With the key in hand a locked door opens, on both sides. */
  method OpenNorth(rooms: Rooms, north: Exit, south: Exit)
    requires Between(rooms, north, south, Bits(true, false, true))
    modifies north`closed, south`closed, north`locked, south`locked
    ensures Between(rooms, north, south, Bits(false, false, false))
  {
    NorthIsPaired(rooms, north, south);
    OpenPlain(rooms, 0, 0);
  }

  /** What room 1 sees of its south door while somebody in room 0 closes, locks and opens the door to the north. */
  method SeenFromTheNorth() returns (seen: seq<Bits>)
    ensures seen == [Bits(true, false, false), Bits(true, false, true), Bits(false, false, false)]
  {
    var rooms, north, south := TwoRooms();
    CloseNorth(rooms, north, south);
    seen := [south.State()];
    LockNorth(rooms, north, south);
    seen := seen + [south.State()];
    OpenNorth(rooms, north, south);
    seen := seen + [south.State()];
  }
}
