/** Doors between rooms: commands that update both sides of an exit in place. */
module Doors {
  import opened Lists

  const MAX_DIR := 10

  type Dir = d: int | 0 <= d < MAX_DIR

  /** rev_dir: north, east, south, west, up, down, northeast, northwest, southeast, southwest. */
  function RevDir(d: Dir): Dir {
    match d
    case 0 => 2
    case 1 => 3
    case 2 => 0
    case 3 => 1
    case 4 => 5
    case 5 => 4
    case 6 => 9
    case 7 => 8
    case 8 => 7
    case _ => 6
  }

  /** Going back twice is going nowhere, and no direction is its own reverse. */
  lemma RevDirInvolution(d: Dir)
    ensures RevDir(RevDir(d)) == d && RevDir(d) != d
  {
  }

  /** Where one step takes you: to the east, to the north, and up. */
  datatype Offset = Offset(east: int, north: int, up: int)

  function Step(d: Dir): Offset {
    match d
    case 0 => Offset(0, 1, 0)
    case 1 => Offset(1, 0, 0)
    case 2 => Offset(0, -1, 0)
    case 3 => Offset(-1, 0, 0)
    case 4 => Offset(0, 0, 1)
    case 5 => Offset(0, 0, -1)
    case 6 => Offset(1, 1, 0)
    case 7 => Offset(-1, 1, 0)
    case 8 => Offset(1, -1, 0)
    case _ => Offset(-1, -1, 0)
  }

  /** A step one way and a step the other way lead back to where they started. */
  predicate Opposite(d: Dir, f: Dir) {
    Step(d).east + Step(f).east == 0 && Step(d).north + Step(f).north == 0 && Step(d).up + Step(f).up == 0
  }

  /** The table holds the one direction that leads back. */
  lemma RevDirLeadsBack(d: Dir, f: Dir)
    ensures Opposite(d, f) <==> f == RevDir(d)
  {
  }

  // ----- One side

  /** The bits of one side of a door. */
  datatype Bits = Bits(closed: bool, barred: bool, locked: bool) {
    /** Locked or barred only while closed. */
    predicate SideOk() {
      (locked ==> closed) && (barred ==> closed)
    }
  }

  datatype Change = Opened | Closed | Locked | Unlocked | Barred

  function After(change: Change, b: Bits): Bits {
    match change
    case Opened => b.(closed := false)
    case Closed => b.(closed := true)
    case Locked => b.(locked := true)
    case Unlocked => b.(locked := false)
    case Barred => b.(barred := true)
  }

  /** What a command looks at, on its own side only, before it makes the change. */
  predicate Allowed(change: Change, b: Bits) {
    match change
    case Opened => b.closed && !b.barred && !b.locked
    case Closed => !b.closed
    case Locked => b.closed && !b.locked
    case Unlocked => b.locked
    case Barred => b.closed && !b.barred
  }

  /**
   A side that was safe by itself stays so exactly when the change was allowed there too, or could do no harm.
   The commands look at one side only: the far side is safe because it agrees with the near one.
   */
  lemma FarSideSafe(change: Change, far: Bits)
    requires far.SideOk()
    ensures After(change, far).SideOk() <==> (
      match change
      case Opened => !far.locked && !far.barred
      case Closed => true
      case Locked => far.closed
      case Unlocked => true
      case Barred => far.closed)
    ensures Allowed(change, far) ==> After(change, far).SideOk()
  {
  }

  /** EXIT_DATA: the three bits the commands change, where it leads, and what they only read. */
  class Exit {
    const toRoom: Option<nat>
    var closed: bool
    var barred: bool
    var locked: bool
    var isDoor: bool
    var concealed: bool  // hidden, not found, and to be seen before use
    var noClose: bool
    var noBar: bool
    var broken: bool
    var lockFunctional: bool
    var lockBroken: bool
    var lockJammed: bool

    constructor (toRoom: Option<nat>)
      ensures this.toRoom == toRoom && !closed && !barred && !locked
    {
      this.toRoom := toRoom;
      closed, barred, locked := false, false, false;
    }

    /** A key turns the lock. */
    predicate Turns()
      reads this
    {
      lockFunctional && !lockBroken && !lockJammed
    }

    function State(): Bits
      reads this`closed, this`barred, this`locked
    {
      Bits(closed, barred, locked)
    }
  }

  // ----- The graph

  /** The rooms by number, each with an exit record or none in every direction. */
  type Rooms = seq<seq<Exit?>>

  predicate Somewhere(rooms: Rooms, r: int) {
    0 <= r < |rooms| && |rooms[r]| == MAX_DIR
  }

  function ExitsOf(rooms: Rooms): set<Exit> {
    set r, d | 0 <= r < |rooms| && 0 <= d < |rooms[r]| && rooms[r][d] != null :: rooms[r][d]
  }

  /** Every room has ten exits, every exit record is in one place, and exits lead to rooms of the graph. */
  ghost predicate Laid(rooms: Rooms) {
    && (forall r | 0 <= r < |rooms| :: Somewhere(rooms, r))
    && (forall r, s, d: Dir, f: Dir {:trigger rooms[r][d], rooms[s][f]} ::
          Somewhere(rooms, r) && Somewhere(rooms, s) && rooms[r][d] != null && rooms[r][d] == rooms[s][f] ==>
            r == s && d == f)
    && (forall r, d: Dir {:trigger rooms[r][d]} ::
          Somewhere(rooms, r) && rooms[r][d] != null && rooms[r][d].toRoom.Some? ==>
            Somewhere(rooms, rooms[r][d].toRoom.value))
  }

  /** The exit on the other side: it exists, and leads back. */
  ghost predicate Linked(rooms: Rooms, r: int, d: Dir)
    requires Laid(rooms) && Somewhere(rooms, r)
  {
    var e := rooms[r][d];
    e != null && e.toRoom.Some? && (
      var back := rooms[e.toRoom.value][RevDir(d)];
      back != null && back.toRoom == Some(r))
  }

  ghost function Back(rooms: Rooms, r: int, d: Dir): Exit
    requires Laid(rooms) && Somewhere(rooms, r) && Linked(rooms, r, d)
  {
    rooms[rooms[r][d].toRoom.value][RevDir(d)]
  }

  /** The link is mutual and leads back to where it started: here the reverse table must be an involution. */
  lemma LinkBack(rooms: Rooms, r: int, d: Dir)
    requires Laid(rooms) && Somewhere(rooms, r) && Linked(rooms, r, d)
    ensures var s := rooms[r][d].toRoom.value;
      Somewhere(rooms, s) && Linked(rooms, s, RevDir(d)) && Back(rooms, s, RevDir(d)) == rooms[r][d]
      && Back(rooms, r, d) == rooms[s][RevDir(d)] && Back(rooms, r, d) != rooms[r][d]
  {
    RevDirInvolution(d);
  }

  /** The linked exit is the one in the opposite direction of the next room, and leads back here. */
  lemma LinkMeans(rooms: Rooms, r: int, d: Dir, f: Dir)
    requires Laid(rooms) && Somewhere(rooms, r) && rooms[r][d] != null && rooms[r][d].toRoom.Some? && Opposite(d, f)
    ensures var far := rooms[rooms[r][d].toRoom.value][f];
      && (Linked(rooms, r, d) <==> far != null && far.toRoom == Some(r))
      && (Linked(rooms, r, d) ==> Back(rooms, r, d) == far)
  {
    RevDirLeadsBack(d, f);
  }

  /** Each exit record lies in at most one pair. */
  lemma OnePair(rooms: Rooms, r: int, d: Dir, s: int, f: Dir)
    requires Laid(rooms) && Somewhere(rooms, r) && Somewhere(rooms, s)
    requires Linked(rooms, r, d) && Linked(rooms, s, f)
    ensures Back(rooms, r, d) == Back(rooms, s, f) <==> r == s && d == f
    ensures Back(rooms, r, d) == rooms[s][f] <==> Back(rooms, s, f) == rooms[r][d]
  {
    LinkBack(rooms, r, d);
    LinkBack(rooms, s, f);
    RevDirInvolution(d);
    RevDirInvolution(f);
  }

  /** The records a command on exit d of r may change: this side, and the other where there is one. */
  ghost function Sides(rooms: Rooms, r: int, d: Dir): set<Exit>
    requires Laid(rooms) && Somewhere(rooms, r)
  {
    (if rooms[r][d] != null then {rooms[r][d]} else {}) + (if Linked(rooms, r, d) then {Back(rooms, r, d)} else {})
  }

  // ----- Both safety properties

  /** Every side is safe by itself, and the two sides of every linked pair agree. */
  ghost predicate SafeBits(rooms: Rooms, bits: map<Exit, Bits>)
    requires Laid(rooms)
  {
    && bits.Keys == ExitsOf(rooms)
    && (forall x :: x in bits ==> bits[x].SideOk())
    && (forall r, d: Dir {:trigger Linked(rooms, r, d)} ::
          Somewhere(rooms, r) && Linked(rooms, r, d) && rooms[r][d] in bits && Back(rooms, r, d) in bits ==>
            bits[rooms[r][d]] == bits[Back(rooms, r, d)])
  }

  ghost function BitsNow(rooms: Rooms): map<Exit, Bits>
    reads ExitsOf(rooms)
  {
    map x | x in ExitsOf(rooms) :: x.State()
  }

  ghost predicate Good(rooms: Rooms)
    reads ExitsOf(rooms)
  {
    Laid(rooms) && SafeBits(rooms, BitsNow(rooms))
  }

  /** What Good promises of a linked pair, and of each side by itself. */
  lemma SidesAgree(rooms: Rooms, r: int, d: Dir)
    requires Good(rooms) && Somewhere(rooms, r) && rooms[r][d] != null
    ensures rooms[r][d] in ExitsOf(rooms) && rooms[r][d].State().SideOk()
    ensures Linked(rooms, r, d) ==> Back(rooms, r, d) in ExitsOf(rooms)
    ensures Linked(rooms, r, d) ==> Back(rooms, r, d).State() == rooms[r][d].State()
  {
    assert rooms[r][d] in ExitsOf(rooms);
    if Linked(rooms, r, d) {
      LinkBack(rooms, r, d);
      assert Back(rooms, r, d) in ExitsOf(rooms);
    }
  }

  /** The table after a change on exit d of r and on its other side. */
  ghost function Changed(rooms: Rooms, r: int, d: Dir, change: Change, bits: map<Exit, Bits>): map<Exit, Bits>
    requires Laid(rooms) && Somewhere(rooms, r)
  {
    map x | x in bits :: if x in Sides(rooms, r, d) then After(change, bits[x]) else bits[x]
  }

  /** A change its own side allows, made on both sides, keeps every exit and every pair safe. */
  lemma StillSafe(rooms: Rooms, r: int, d: Dir, change: Change, bits: map<Exit, Bits>)
    requires Laid(rooms) && Somewhere(rooms, r) && SafeBits(rooms, bits)
    requires rooms[r][d] in bits && Allowed(change, bits[rooms[r][d]])
    requires Linked(rooms, r, d) ==> Back(rooms, r, d) in bits
    ensures SafeBits(rooms, Changed(rooms, r, d, change, bits))
  {
    var later := Changed(rooms, r, d, change, bits);
    forall x | x in later ensures later[x].SideOk() {
      FarSideSafe(change, bits[x]);
    }
    forall s, f: Dir {:trigger Linked(rooms, s, f)}
      | Somewhere(rooms, s) && Linked(rooms, s, f) && rooms[s][f] in later && Back(rooms, s, f) in later
      ensures later[rooms[s][f]] == later[Back(rooms, s, f)]
    {
      LinkBack(rooms, s, f);
      if Linked(rooms, r, d) {
        LinkBack(rooms, r, d);
        OnePair(rooms, r, d, s, f);
      }
    }
  }

  /** The same for the records themselves, once a command has written them. */
  lemma WrittenSafe(rooms: Rooms, r: int, d: Dir, change: Change, was: map<Exit, Bits>)
    requires Laid(rooms) && Somewhere(rooms, r) && SafeBits(rooms, was)
    requires rooms[r][d] in was && Allowed(change, was[rooms[r][d]])
    requires Linked(rooms, r, d) ==> Back(rooms, r, d) in was
    requires forall x :: x in was && x !in Sides(rooms, r, d) ==> x.State() == was[x]
    requires forall x :: x in was && x in Sides(rooms, r, d) ==> x.State() == After(change, was[x])
    ensures Good(rooms)
  {
    StillSafe(rooms, r, d, change, was);
    assert BitsNow(rooms) == Changed(rooms, r, d, change, was);
  }

  // ----- The commands

  /** find_door, once the direction is known. */
  predicate CanFind(e: Exit?, sees: bool)
    reads e
  {
    e != null && (sees || !e.concealed) && e.isDoor
  }

  /** The exit record of the other side, or null. */
  method OtherSide(rooms: Rooms, r: int, d: Dir) returns (other: Exit?)
    requires Laid(rooms) && Somewhere(rooms, r) && rooms[r][d] != null
    ensures other != null <==> Linked(rooms, r, d)
    ensures other != null ==> other == Back(rooms, r, d)
  {
    other := null;
    var to := rooms[r][d].toRoom;
    if to.Some? && rooms[to.value][RevDir(d)] != null && rooms[to.value][RevDir(d)].toRoom == Some(r) {
      other := rooms[to.value][RevDir(d)];
    }
  }

  /** The closing itself, on both sides. */
  method CloseSides(rooms: Rooms, r: int, d: Dir)
    requires Good(rooms) && Somewhere(rooms, r)
    requires rooms[r][d] != null && Allowed(Closed, rooms[r][d].State())
    modifies Sides(rooms, r, d)`closed
    ensures Good(rooms)
    ensures forall x :: x in Sides(rooms, r, d) ==> x.State() == After(Closed, old(x.State()))
  {
    var e := rooms[r][d];
    ghost var was := BitsNow(rooms);
    SidesAgree(rooms, r, d);
    e.closed := true;
    var other := OtherSide(rooms, r, d);
    if other != null {
      other.closed := true;
    }
    WrittenSafe(rooms, r, d, Closed, was);
  }

  /** do_close */
  method DoClose(rooms: Rooms, r: int, d: Dir, sees: bool)
    requires Good(rooms) && Somewhere(rooms, r)
    modifies Sides(rooms, r, d)`closed
    ensures Good(rooms)
    ensures var acts := old(CanFind(rooms[r][d], sees) && !rooms[r][d].closed && !rooms[r][d].broken);
      forall x :: x in Sides(rooms, r, d) ==>
        x.State() == if acts then After(Closed, old(x.State())) else old(x.State())
  {
    var e := rooms[r][d];
    if !CanFind(e, sees) || e.closed || e.broken { return; }
    CloseSides(rooms, r, d);
  }

  /** Closed, and a lock that the key in hand turns. */
  predicate KeyFits(e: Exit?, sees: bool, holdsKey: bool)
    reads e
  {
    CanFind(e, sees) && e.closed && e.Turns() && holdsKey
  }

  /** The locking itself, on both sides. */
  method LockSides(rooms: Rooms, r: int, d: Dir)
    requires Good(rooms) && Somewhere(rooms, r)
    requires rooms[r][d] != null && Allowed(Locked, rooms[r][d].State())
    modifies Sides(rooms, r, d)`locked
    ensures Good(rooms)
    ensures forall x :: x in Sides(rooms, r, d) ==> x.State() == After(Locked, old(x.State()))
  {
    var e := rooms[r][d];
    ghost var was := BitsNow(rooms);
    SidesAgree(rooms, r, d);
    e.locked := true;
    var other := OtherSide(rooms, r, d);
    if other != null {
      other.locked := true;
    }
    WrittenSafe(rooms, r, d, Locked, was);
  }

  /** do_lock */
  method DoLock(rooms: Rooms, r: int, d: Dir, sees: bool, holdsKey: bool)
    requires Good(rooms) && Somewhere(rooms, r)
    modifies Sides(rooms, r, d)`locked
    ensures Good(rooms)
    ensures var acts := old(KeyFits(rooms[r][d], sees, holdsKey) && !rooms[r][d].locked);
      forall x :: x in Sides(rooms, r, d) ==>
        x.State() == if acts then After(Locked, old(x.State())) else old(x.State())
  {
    var e := rooms[r][d];
    if !CanFind(e, sees) || !e.closed || !e.lockFunctional || !holdsKey { return; }
    if e.lockBroken || e.lockJammed || e.locked { return; }
    LockSides(rooms, r, d);
  }

  /** The turning of the lock itself, on both sides. */
  method UnlockSides(rooms: Rooms, r: int, d: Dir)
    requires Good(rooms) && Somewhere(rooms, r)
    requires rooms[r][d] != null && Allowed(Unlocked, rooms[r][d].State())
    modifies Sides(rooms, r, d)`locked
    ensures Good(rooms)
    ensures forall x :: x in Sides(rooms, r, d) ==> x.State() == After(Unlocked, old(x.State()))
  {
    var e := rooms[r][d];
    ghost var was := BitsNow(rooms);
    SidesAgree(rooms, r, d);
    e.locked := false;
    var other := OtherSide(rooms, r, d);
    if other != null {
      other.locked := false;
    }
    WrittenSafe(rooms, r, d, Unlocked, was);
  }

  /** do_unlock */
  method DoUnlock(rooms: Rooms, r: int, d: Dir, sees: bool, holdsKey: bool)
    requires Good(rooms) && Somewhere(rooms, r)
    modifies Sides(rooms, r, d)`locked
    ensures Good(rooms)
    ensures var acts := old(KeyFits(rooms[r][d], sees, holdsKey) && rooms[r][d].locked);
      forall x :: x in Sides(rooms, r, d) ==>
        x.State() == if acts then After(Unlocked, old(x.State())) else old(x.State())
  {
    var e := rooms[r][d];
    if !CanFind(e, sees) || !e.closed || !e.lockFunctional || !holdsKey { return; }
    if e.lockBroken || e.lockJammed || !e.locked { return; }
    UnlockSides(rooms, r, d);
  }

  /** The conditions do_pick demands of the exit; immortals skip two of them and never fail the roll. */
  predicate CanPick(e: Exit, immortal: bool, rollWins: bool)
    reads e
  {
    && (e.closed || immortal) && (e.lockFunctional || immortal)
    && !e.lockBroken && !e.lockJammed && e.locked && (rollWins || immortal)
  }

  /** do_pick, with the outcome of the roll against the lock given */
  method DoPick(rooms: Rooms, r: int, d: Dir, sees: bool, immortal: bool, rollWins: bool)
    requires Good(rooms) && Somewhere(rooms, r)
    modifies Sides(rooms, r, d)`locked
    ensures Good(rooms)
    ensures var acts := old(CanFind(rooms[r][d], sees) && CanPick(rooms[r][d], immortal, rollWins));
      forall x :: x in Sides(rooms, r, d) ==>
        x.State() == if acts then After(Unlocked, old(x.State())) else old(x.State())
  {
    var e := rooms[r][d];
    if !CanFind(e, sees) { return; }
    if !e.closed && !immortal { return; }
    if !e.lockFunctional && !immortal { return; }
    if e.lockBroken || e.lockJammed || !e.locked { return; }
    if !rollWins && !immortal { return; }
    UnlockSides(rooms, r, d);
  }

  /** What do_bar demands of the exit. */
  predicate CanBar(e: Exit)
    reads e
  {
    !e.noClose && e.closed && !e.barred && !e.noBar
  }

  /** The barring itself, on both sides. */
  method BarSides(rooms: Rooms, r: int, d: Dir)
    requires Good(rooms) && Somewhere(rooms, r)
    requires rooms[r][d] != null && Allowed(Barred, rooms[r][d].State())
    modifies Sides(rooms, r, d)`barred
    ensures Good(rooms)
    ensures forall x :: x in Sides(rooms, r, d) ==> x.State() == After(Barred, old(x.State()))
  {
    var e := rooms[r][d];
    ghost var was := BitsNow(rooms);
    SidesAgree(rooms, r, d);
    e.barred := true;
    var other := OtherSide(rooms, r, d);
    if other != null {
      other.barred := true;
    }
    WrittenSafe(rooms, r, d, Barred, was);
  }

  /** do_bar, for a character who knows the skill */
  method DoBar(rooms: Rooms, r: int, d: Dir, sees: bool)
    requires Good(rooms) && Somewhere(rooms, r)
    modifies Sides(rooms, r, d)`barred
    ensures Good(rooms)
    ensures var acts := old(CanFind(rooms[r][d], sees) && CanBar(rooms[r][d]));
      forall x :: x in Sides(rooms, r, d) ==>
        x.State() == if acts then After(Barred, old(x.State())) else old(x.State())
  {
    var e := rooms[r][d];
    if !CanFind(e, sees) || e.noClose { return; }
    if !e.closed || e.barred || e.noBar { return; }
    BarSides(rooms, r, d);
  }

  /** The opening itself: the door was found closed, neither barred nor locked. */
  method Swing(rooms: Rooms, r: int, d: Dir)
    requires Good(rooms) && Somewhere(rooms, r)
    requires rooms[r][d] != null && Allowed(Opened, rooms[r][d].State())
    modifies Sides(rooms, r, d)`closed
    ensures Good(rooms)
    ensures forall x :: x in Sides(rooms, r, d) ==> x.State() == After(Opened, old(x.State()))
  {
    var e := rooms[r][d];
    ghost var was := BitsNow(rooms);
    SidesAgree(rooms, r, d);
    e.closed := false;
    var other := OtherSide(rooms, r, d);
    if other != null {
      other.closed := false;
    }
    WrittenSafe(rooms, r, d, Opened, was);
  }

  /** The exit is found closed and unbarred, so that the lock decides what opening it does. */
  predicate Shut(e: Exit?, sees: bool)
    reads e
  {
    CanFind(e, sees) && e.closed && !e.barred
  }

  /** Opening turns the lock first: the door is shut and locked, and the key is in hand. */
  predicate NeedsKey(e: Exit?, sees: bool, holdsKey: bool)
    reads e
  {
    Shut(e, sees) && e.locked && holdsKey
  }

  /**
   do_open. A locked door with the key in hand is unlocked and opened again by two nested commands; `depth` bounds
   the nesting. It comes back exactly when two levels are allowed and the lock turns, or one level where no key is
   needed; a door whose lock does not turn nests without end. Coming back, an openable door is open and unlocked
   on both sides and everything else is as it was.
   */
  method DoOpen(rooms: Rooms, r: int, d: Dir, sees: bool, holdsKey: bool, depth: nat) returns (returned: bool)
    requires Good(rooms) && Somewhere(rooms, r)
    modifies Sides(rooms, r, d)`closed, Sides(rooms, r, d)`locked
    ensures Good(rooms)
    ensures var keyed := old(NeedsKey(rooms[r][d], sees, holdsKey));
      returned <==> depth > 0 && (keyed ==> old(rooms[r][d].Turns()) && depth > 1)
    ensures var opens := old(Shut(rooms[r][d], sees) && (rooms[r][d].locked ==> holdsKey && rooms[r][d].Turns()));
      returned || !opens ==> forall x :: x in Sides(rooms, r, d) ==>
        x.State() == if opens then After(Opened, After(Unlocked, old(x.State()))) else old(x.State())
    decreases depth, 1
  {
    if depth == 0 { return false; }
    var e := rooms[r][d];
    if !CanFind(e, sees) || !e.closed || e.barred { return true; }
    SidesAgree(rooms, r, d);
    if e.locked {
      if !holdsKey { return true; }
      returned := TurnAndOpen(rooms, r, d, sees, depth - 1);
      return;
    }
    assert forall x :: x in Sides(rooms, r, d) ==> After(Unlocked, old(x.State())) == old(x.State());
    Swing(rooms, r, d);
    returned := true;
  }

  /** Trying the key: either both sides are unlocked and may be opened, or nothing has changed. */
  method TryKey(rooms: Rooms, r: int, d: Dir, sees: bool)
    requires Good(rooms) && Somewhere(rooms, r) && NeedsKey(rooms[r][d], sees, true)
    modifies Sides(rooms, r, d)`locked
    ensures Good(rooms) && Shut(rooms[r][d], sees)
    ensures rooms[r][d].locked <==> !old(rooms[r][d].Turns())
    ensures forall x :: x in Sides(rooms, r, d) ==>
      x.State() == if rooms[r][d].locked then old(x.State()) else After(Unlocked, old(x.State()))
  {
    DoUnlock(rooms, r, d, sees, true);
    assert rooms[r][d] in Sides(rooms, r, d);
  }

  /** The arm for a locked door and a key in hand: unlock it, and open it again. */
  method TurnAndOpen(rooms: Rooms, r: int, d: Dir, sees: bool, depth: nat) returns (returned: bool)
    requires Good(rooms) && Somewhere(rooms, r) && NeedsKey(rooms[r][d], sees, true)
    modifies Sides(rooms, r, d)`closed, Sides(rooms, r, d)`locked
    ensures Good(rooms)
    ensures returned <==> old(rooms[r][d].Turns()) && depth > 0
    ensures var opens := old(rooms[r][d].Turns());
      returned || !opens ==> forall x :: x in Sides(rooms, r, d) ==>
        x.State() == if opens then After(Opened, After(Unlocked, old(x.State()))) else old(x.State())
    decreases depth, 2
  {
    TryKey(rooms, r, d, sees);
    returned := DoOpen(rooms, r, d, sees, true, depth);
  }

  lemma OneExit(rooms: Rooms, e: Exit)
    requires rooms == [[e, null, null, null, null, null, null, null, null, null]] && e.toRoom.None?
    ensures Somewhere(rooms, 0) && Laid(rooms) && ExitsOf(rooms) == {e}
    ensures forall d: Dir :: !Linked(rooms, 0, d)
  {
    assert rooms[0][0] == e;
  }

  /** One room with a locked door in the first direction whose lock is jammed. */
  method JammedRoom() returns (rooms: Rooms)
    ensures Somewhere(rooms, 0) && Good(rooms) && fresh(ExitsOf(rooms))
    ensures NeedsKey(rooms[0][0], true, true) && !rooms[0][0].Turns() && Sides(rooms, 0, 0) <= ExitsOf(rooms)
  {
    var e := new Exit(None);
    e.isDoor, e.concealed, e.closed, e.locked, e.barred := true, false, true, true, false;
    e.lockFunctional, e.lockBroken, e.lockJammed := true, false, true;
    rooms := [[e, null, null, null, null, null, null, null, null, null]];
    OneExit(rooms, e);
  }

  /** A locked door with a jammed lock and the key in hand: no depth of nesting is enough to come back. */
  method JammedDoor(depth: nat) returns (returned: bool)
    ensures !returned
  {
    var rooms := JammedRoom();
    returned := DoOpen(rooms, 0, 0, true, true, depth);
  }

  // ----- Runs

  datatype Command =
    | Open(r: int, d: Dir, sees: bool, holdsKey: bool, depth: nat)
    | Close(r: int, d: Dir, sees: bool)
    | Lock(r: int, d: Dir, sees: bool, holdsKey: bool)
    | Unlock(r: int, d: Dir, sees: bool, holdsKey: bool)
    | Pick(r: int, d: Dir, sees: bool, immortal: bool, rollWins: bool)
    | Bar(r: int, d: Dir, sees: bool)

  /** Any interleaving of the six commands keeps both safety properties of every exit. */
  method Interleave(rooms: Rooms, commands: seq<Command>)
    requires Good(rooms) && (forall i :: 0 <= i < |commands| ==> Somewhere(rooms, commands[i].r))
    modifies ExitsOf(rooms)`closed, ExitsOf(rooms)`barred, ExitsOf(rooms)`locked
    ensures Good(rooms)
  {
    for i := 0 to |commands|
      invariant Good(rooms)
    {
      SidesKnown(rooms, commands[i].r, commands[i].d);
      match commands[i] {
        case Open(r, d, sees, holdsKey, depth) => var back := DoOpen(rooms, r, d, sees, holdsKey, depth);
        case Close(r, d, sees) => DoClose(rooms, r, d, sees);
        case Lock(r, d, sees, holdsKey) => DoLock(rooms, r, d, sees, holdsKey);
        case Unlock(r, d, sees, holdsKey) => DoUnlock(rooms, r, d, sees, holdsKey);
        case Pick(r, d, sees, immortal, rollWins) => DoPick(rooms, r, d, sees, immortal, rollWins);
        case Bar(r, d, sees) => DoBar(rooms, r, d, sees);
      }
    }
  }

  lemma SidesKnown(rooms: Rooms, r: int, d: Dir)
    requires Laid(rooms) && Somewhere(rooms, r)
    ensures Sides(rooms, r, d) <= ExitsOf(rooms)
  {
  }
}
