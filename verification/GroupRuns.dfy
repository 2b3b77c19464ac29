/** Runs: any interleaving of the commands, of logins and extractions, and of time. */
module GroupRuns {
  import opened Lists
  import opened GroupModel
  import opened GroupInvariants
  import opened GroupMembership
  import opened GroupCommands
  import opened GroupFollowing

  datatype Op =
    | OpCreate(ch: Addr, allowNpcOnly: bool)
    | OpAddGrouped(ch: Addr, master: Addr)
    | OpStopGrouped(ch: Addr)
    | OpDisband(g: Addr)
    | OpClearAll
    | OpAddFollower(ch: Addr, master: Addr)
    | OpStopFollower(ch: Addr)
    | OpDieFollower(ch: Addr)
    | OpPromote(ch: Addr, arg: string)
    | OpInvite(ch: Addr, victim: Addr)
    | OpRequest(ch: Addr, leader: Addr)
    | OpAccept(ch: Addr, arg: string)
    | OpDecline(ch: Addr, arg: string)
    | OpShowRequests(ch: Addr, tell: bool)
    | OpPendingUpdate(ch: Addr)
    | OpToggle(ch: Addr, victim: Addr)
    | OpLogin(ch: Addr, name: string, npc: bool, id: nat)
    | OpExtract(ch: Addr)
    | OpMount(ch: Addr, mounted: Addr)
    | OpCharm(ch: Addr)
    | OpTick(seconds: nat)

  function NewChar(name: string, npc: bool, id: nat): Char {
    Char(name, npc, id, false, NULL, NULL, NULL, NULL, NULL, 0, [], 0, 0, 0, 0, 0)
  }

  /** A character enters the game at a free address; a player id that is already online is refused. */
  function Login(s: State, ch: Addr, name: string, npc: bool, id: nat): State {
    if ch == NULL || ch in s.chars || id == 0 || (!npc && FindPlayer(s, id) != NULL) then s
    else s.(chars := s.chars[ch := NewChar(name, npc, id)], loadedChars := s.loadedChars + [ch])
  }

  /** The relationship part of extract_char, then the character is freed. */
  function Extract(s: State, ch: Addr): State
    requires ch in s.chars
  {
    var s1 := DieFollower(s, ch);
    s1.(chars := s1.chars - {ch}, loadedChars := Without(s1.loadedChars, ch))
  }

  function Mount(s: State, ch: Addr, mounted: Addr): State {
    if ch in s.chars then SetChar(s, ch, s.chars[ch].(mounted := mounted)) else s
  }

  function Charm(s: State, ch: Addr): State {
    if ch in s.chars then SetChar(s, ch, s.chars[ch].(charmed := true)) else s
  }

  function Tick(s: State, seconds: nat): State {
    s.(now := s.now + seconds)
  }

  predicate ChangesMembers(op: Op) {
    op.OpCreate? || op.OpAddGrouped? || op.OpStopGrouped? || op.OpDisband? || op.OpClearAll? || op.OpPromote?
  }

  predicate ChangesPending(op: Op) {
    op.OpInvite? || op.OpRequest? || op.OpAccept? || op.OpDecline? || op.OpShowRequests? || op.OpPendingUpdate?
  }

  predicate ChangesFollowing(op: Op) {
    op.OpAddFollower? || op.OpStopFollower? || op.OpDieFollower? || op.OpToggle? || op.OpExtract?
  }

  function StepMembers(s: State, op: Op): State
    requires ChangesMembers(op)
  {
    match op
    case OpCreate(ch, allow) => Create(s, ch, allow).0
    case OpAddGrouped(ch, master) => AddGrouped(s, ch, master).0
    case OpStopGrouped(ch) => StopGrouped(s, ch)
    case OpDisband(g) => Disband(s, g)
    case OpClearAll => ClearAll(s)
    case OpPromote(ch, arg) => Promote(s, ch, arg)
  }

  function StepPending(s: State, op: Op): State
    requires ChangesPending(op)
  {
    match op
    case OpInvite(ch, victim) => Invite(s, ch, victim)
    case OpRequest(ch, leader) => RequestJoin(s, ch, leader)
    case OpAccept(ch, arg) => Accept(s, ch, arg)
    case OpDecline(ch, arg) => Decline(s, ch, arg)
    case OpShowRequests(ch, tell) => ShowRequests(s, ch, tell)
    case OpPendingUpdate(ch) => PendingUpdate(s, ch)
  }

  function StepFollowing(s: State, op: Op): State
    requires ChangesFollowing(op)
  {
    match op
    case OpAddFollower(ch, master) => if master in s.chars then AddFollower(s, ch, master) else s
    case OpStopFollower(ch) => StopFollower(s, ch)
    case OpDieFollower(ch) => if ch in s.chars then DieFollower(s, ch) else s
    case OpToggle(ch, victim) => Toggle(s, ch, victim)
    case OpExtract(ch) => if ch in s.chars then Extract(s, ch) else s
  }

  function StepOutside(s: State, op: Op): State
    requires op.OpLogin? || op.OpMount? || op.OpCharm? || op.OpTick?
  {
    match op
    case OpLogin(ch, name, npc, id) => Login(s, ch, name, npc, id)
    case OpMount(ch, m) => Mount(s, ch, m)
    case OpCharm(ch) => Charm(s, ch)
    case OpTick(seconds) => Tick(s, seconds)
  }

  function Step(s: State, op: Op): State {
    if ChangesMembers(op) then StepMembers(s, op)
    else if ChangesPending(op) then StepPending(s, op)
    else if ChangesFollowing(op) then StepFollowing(s, op)
    else StepOutside(s, op)
  }

  /** The state after the operations, first to last. */
  function Run(s: State, ops: seq<Op>): State {
    if ops == [] then s else Step(Run(s, ops[..|ops| - 1]), ops[|ops| - 1])
  }

  function Boot(now: nat): State {
    State(map[], map[], [], [], 1, 0, now)
  }

  // ----- Each command keeps the invariant

  lemma {:induction false} DisbandAllEmpties(s: State, list: seq<Addr>)
    requires Inv(s)
    ensures var t := DisbandAll(s, list);
      Inv(t) && SameCast(s, t) && (forall g :: g in t.groups <==> g in s.groups && g !in list)
    decreases |list|
  {
    if list == [] {
    } else {
      if list[0] in s.groups {
        DisbandInv(s, list[0]);
      }
      DisbandAllEmpties(Disband(s, list[0]), list[1..]);
      assert list == [list[0]] + list[1..];
    }
  }

  lemma InviteInv(s: State, ch: Addr, victim: Addr)
    requires Inv(s)
    ensures Inv(Invite(s, ch, victim))
  {
    if ActorIsLeader(s, ch) {
      CreateInv(s, ch, false);
      var (s1, g) := Create(s, ch, false);
      InviteToInv(s1, g, ch, victim);
    }
  }

  lemma RecordInviteInv(s: State, victim: Addr, inviter: nat, groupId: nat)
    requires Inv(s) && victim in s.chars && s.chars[victim].group == NULL && inviter != 0
    ensures Inv(SetChar(s, victim, s.chars[victim].(
      inviter := inviter, inviteGroup := groupId, inviteExpires := s.now + PENDING_TTL)))
  {
    assert CharOk(s, victim);
    TouchInv(s, victim, s.chars[victim].(
      inviter := inviter, inviteGroup := groupId, inviteExpires := s.now + PENDING_TTL));
  }

  lemma UngroupedIsNull(s: State, c: Addr)
    requires Inv(s) && c in s.chars && s.chars[c].group !in s.groups
    ensures s.chars[c].group == NULL
  {
    assert CharOk(s, c);
  }

  lemma IdNonzero(s: State, c: Addr)
    requires PlayerIdsOk(s.chars) && c in s.chars
    ensures s.chars[c].id != 0
  {
  }

  lemma InviteToInv(s: State, g: Addr, ch: Addr, victim: Addr)
    requires Inv(s)
    ensures Inv(InviteTo(s, g, ch, victim))
  {
    var t := InviteTo(s, g, ch, victim);
    if t != s {
      UngroupedIsNull(s, victim);
      IdNonzero(s, ch);
      RecordInviteInv(s, victim, s.chars[ch].id, s.groups[g].id);
      assert t == SetChar(s, victim, s.chars[victim].(
        inviter := s.chars[ch].id, inviteGroup := s.groups[g].id, inviteExpires := s.now + PENDING_TTL));
    }
  }

  lemma AppendEntry(requests: seq<Request>, entry: Request)
    requires RequesterIdsDistinct(requests) && !HasRequest(requests, entry.requester)
    ensures RequesterIdsDistinct(requests + [entry])
    ensures HasEntry(requests + [entry], entry.requester, entry.expires)
    ensures forall id, expires :: HasEntry(requests, id, expires) ==> HasEntry(requests + [entry], id, expires)
  {
    assert (requests + [entry])[|requests|] == entry;
    forall id, expires | HasEntry(requests, id, expires)
      ensures HasEntry(requests + [entry], id, expires)
    {
      var i :| 0 <= i < |requests| && requests[i].requester == id && requests[i].expires == expires;
      assert (requests + [entry])[i] == requests[i];
    }
  }

  lemma QueueMore(s: State, g: Addr, entry: Request)
    requires Inv(s) && g in s.groups
    requires !HasRequest(s.groups[g].requests, entry.requester) && |s.groups[g].requests| < PENDING_MAX
    ensures Inv(SetGroup(s, g, s.groups[g].(requests := s.groups[g].requests + [entry])))
    ensures HasEntry(s.groups[g].requests + [entry], entry.requester, entry.expires)
  {
    var requests := s.groups[g].requests + [entry];
    assert QueueOk(s, g);
    AppendEntry(s.groups[g].requests, entry);
    forall x | Waiting(s, x, g)
      ensures HasEntry(requests, s.chars[x].id, s.chars[x].requestExpires)
    {
      EntryOf(s, g, x);
    }
    QueueInv(s, g, requests);
  }

  lemma EnqueueInv(s: State, g: Addr, ch: Addr)
    requires Inv(s) && g in s.groups && ch in s.chars && !s.chars[ch].npc
    requires !HasRequest(s.groups[g].requests, s.chars[ch].id) && |s.groups[g].requests| < PENDING_MAX
    ensures Inv(Enqueue(s, g, ch))
  {
    var entry := Request(s.chars[ch].id, s.chars[ch].name, s.now + PENDING_TTL);
    QueueMore(s, g, entry);
    EnqueueSteps(s, g, ch);
    RememberInv(SetGroup(s, g, s.groups[g].(requests := s.groups[g].requests + [entry])), g, ch, entry.expires);
  }

  lemma EnqueueSteps(s: State, g: Addr, ch: Addr)
    requires g in s.groups && ch in s.chars
    ensures var entry := Request(s.chars[ch].id, s.chars[ch].name, s.now + PENDING_TTL);
      var t := SetGroup(s, g, s.groups[g].(requests := s.groups[g].requests + [entry]));
      Enqueue(s, g, ch) == SetChar(t, ch, t.chars[ch].(requestGroup := t.groups[g].id, requestExpires := entry.expires))
  {
  }

  lemma RememberInv(s: State, g: Addr, ch: Addr, expires: nat)
    requires Inv(s) && g in s.groups && ch in s.chars && HasEntry(s.groups[g].requests, s.chars[ch].id, expires)
    ensures Inv(SetChar(s, ch, s.chars[ch].(requestGroup := s.groups[g].id, requestExpires := expires)))
  {
    assert CharOk(s, ch);
    assert Queued(s, s.groups[g].id, s.chars[ch].id, expires);
    TouchInv(s, ch, s.chars[ch].(requestGroup := s.groups[g].id, requestExpires := expires));
  }

  lemma RequestOfInv(s: State, g: Addr, ch: Addr)
    requires Inv(s) && g in s.groups && ch in s.chars && !s.chars[ch].npc
    ensures Inv(RequestOf(s, g, ch))
  {
    var s1 := RemoveExpired(s, g, false);
    RemoveExpiredInv(s, g, false);
    if HasActiveRequest(s, ch) && s.chars[ch].requestGroup != s.groups[g].id {
      assert RequestOf(s, g, ch) == s;
    } else if HasRequest(s1.groups[g].requests, s1.chars[ch].id) || |s1.groups[g].requests| >= PENDING_MAX {
      assert RequestOf(s, g, ch) == s1;
    } else {
      EnqueueInv(s1, g, ch);
      assert RequestOf(s, g, ch) == Enqueue(s1, g, ch);
    }
  }

  lemma RequestJoinInv(s: State, ch: Addr, leader: Addr)
    requires Inv(s)
    ensures Inv(RequestJoin(s, ch, leader))
  {
    if ch in s.chars && !s.chars[ch].npc && leader in s.chars {
      CreateInv(s, leader, false);
      var (s1, g) := Create(s, leader, false);
      RequestOfInv(s1, g, ch);
    }
  }

  lemma AdmitInvitedInv(s: State, ch: Addr, inviter: Addr)
    requires Inv(s)
    ensures Inv(AdmitInvited(s, ch, inviter))
  {
    AddGroupedInv(s, ch, inviter);
    ClearInviteInv(AddGrouped(s, ch, inviter).0, ch);
  }

  lemma AcceptInviteInv(s: State, ch: Addr, arg: string)
    requires Inv(s) && ch in s.chars
    ensures Inv(AcceptInvite(s, ch, arg))
  {
    ClearInviteInv(s, ch);
    AdmitInvitedInv(s, ch, FindPlayer(s, s.chars[ch].inviter));
  }

  /** Dropping a player's entry and clearing its request state go together; in which order does not matter. */
  lemma SettleRequestInv(s: State, g: Addr, requester: Addr)
    requires Inv(s) && g in s.groups && requester in s.chars && !s.chars[requester].npc
    ensures Inv(ClearRequest(RemoveRequest(s, g, s.chars[requester].id), requester))
    ensures SameCast(s, ClearRequest(RemoveRequest(s, g, s.chars[requester].id), requester))
    ensures Inv(RemoveRequest(ClearRequest(s, requester), g, s.chars[requester].id))
  {
    var id := s.chars[requester].id;
    var t := ClearRequest(s, requester);
    ClearRequestInv(s, requester);
    assert forall c :: Waiting(t, c, g) ==> t.chars[c].id != id;
    RemoveRequestInv(t, g, id);
    assert ClearRequest(RemoveRequest(s, g, id), requester) == RemoveRequest(t, g, id);
  }

  lemma NobodyWaits(s: State, g: Addr, id: nat)
    requires HeapOk(s) && g in s.groups && FindPlayer(s, id) == NULL
    ensures forall c :: Waiting(s, c, g) ==> s.chars[c].id != id
  {
    FindPlayerSound(s, id);
  }

  /** Adding to the group a master already has never removes that group. */
  lemma MasterGroupStays(s: State, ch: Addr, master: Addr)
    requires Inv(s) && ch in s.chars && master in s.chars && s.chars[master].group in s.groups
    ensures s.chars[master].group in AddGrouped(s, ch, master).0.groups
  {
    var g := s.chars[master].group;
    assert Create(s, master, s.chars[master].npc) == (s, g);
    AddInv(s, g, ch);
    assert AddGrouped(s, ch, master).0 == s || AddGrouped(s, ch, master) == AddMember(s, g, ch);
  }

  lemma AdmitRequesterInv(s: State, g: Addr, ch: Addr, id: nat)
    requires Inv(s) && g in s.groups && ch in s.chars && s.chars[ch].group == g
    ensures Inv(AdmitRequester(s, g, ch, id))
  {
    var requester := FindPlayer(s, id);
    FindPlayerSound(s, id);
    IdFindPlayerSound(s.chars, s.loadedChars, id);
    if requester !in s.chars {
      NobodyWaits(s, g, id);
      RemoveRequestInv(s, g, id);
    } else {
      var s1 := AddGrouped(s, requester, ch).0;
      AddGroupedInv(s, requester, ch);
      MasterGroupStays(s, requester, ch);
      SettleRequestInv(s1, g, requester);
      ClearInviteInv(ClearRequest(RemoveRequest(s1, g, id), requester), requester);
    }
  }

  lemma RemoveExpiredKeepsGroups(s: State, g: Addr, tell: bool)
    ensures RemoveExpired(s, g, tell).groups.Keys == s.groups.Keys
    ensures RemoveExpired(s, g, tell).chars.Keys == s.chars.Keys
    ensures forall c :: c in s.chars ==> SameStanding(s.chars[c], RemoveExpired(s, g, tell).chars[c])
  {
  }

  lemma AcceptRequestInInv(s: State, g: Addr, ch: Addr, arg: string)
    requires Inv(s) && g in s.groups && ch in s.chars && s.chars[ch].group == g
    ensures Inv(AcceptRequestIn(s, g, ch, arg))
  {
    var s1 := RemoveExpired(s, g, true);
    RemoveExpiredInv(s, g, true);
    RemoveExpiredKeepsGroups(s, g, true);
    var r := FindRequest(s1.groups[g].requests, arg);
    if r.Some? {
      AdmitRequesterInv(s1, g, ch, r.value.requester);
    }
  }

  lemma AcceptRequestInv(s: State, ch: Addr, arg: string)
    requires Inv(s)
    ensures Inv(AcceptRequest(s, ch, arg))
  {
    if ch in s.chars {
      CreateInv(s, ch, false);
      var (s1, g) := Create(s, ch, false);
      AcceptRequestInInv(s1, g, ch, arg);
    }
  }

  lemma DeclineRequestInv(s: State, ch: Addr, arg: string)
    requires Inv(s)
    ensures Inv(DeclineRequest(s, ch, arg))
  {
    if ActorIsLeader(s, ch) && s.chars[ch].group in s.groups {
      var g := s.chars[ch].group;
      var s1 := RemoveExpired(s, g, true);
      RemoveExpiredInv(s, g, true);
      var r := FindRequest(s1.groups[g].requests, arg);
      if r.Some? {
        RejectInv(s1, g, r.value.requester);
        assert DeclineRequest(s, ch, arg) == Reject(s1, g, r.value.requester);
      } else {
        assert DeclineRequest(s, ch, arg) == s1;
      }
    }
  }

  lemma RejectInv(s: State, g: Addr, id: nat)
    requires Inv(s) && g in s.groups
    ensures Inv(Reject(s, g, id))
  {
    var requester := FindPlayer(s, id);
    FindPlayerSound(s, id);
    IdFindPlayerSound(s.chars, s.loadedChars, id);
    if requester in s.chars {
      SettleRequestInv(s, g, requester);
    } else {
      NobodyWaits(s, g, id);
      RemoveRequestInv(s, g, id);
      assert Reject(s, g, id) == RemoveRequest(s, g, id);
    }
  }

  lemma DeclineInv(s: State, ch: Addr, arg: string)
    requires Inv(s)
    ensures Inv(Decline(s, ch, arg))
  {
    ClearInviteInv(s, ch);
    DeclineRequestInv(s, ch, arg);
    assert Decline(s, ch, arg) in {s, ClearInvite(s, ch), DeclineRequest(s, ch, arg)};
  }

  lemma PendingUpdateInv(s: State, ch: Addr)
    requires Inv(s)
    ensures Inv(PendingUpdate(s, ch))
  {
    if ch in s.chars && !s.chars[ch].npc {
      assert CharOk(s, ch);
      var t := ExpireOwn(s, ch);
      TouchInv(s, ch, t.chars[ch]);
      RemoveExpiredInv(t, t.chars[ch].group, true);
    }
  }

  lemma PromoteInv(s: State, ch: Addr, arg: string)
    requires Inv(s)
    ensures Inv(Promote(s, ch, arg))
  {
    if ch in s.chars && s.chars[ch].group in s.groups {
      var g := s.chars[ch].group;
      SetLeaderInv(s, g, FindMember(s.chars, s.groups[g].members, arg));
    }
  }

  lemma ToggleInv(s: State, ch: Addr, victim: Addr)
    requires Inv(s)
    ensures Inv(Toggle(s, ch, victim))
  {
    StopGroupedInv(s, victim);
    AddGroupedInv(s, victim, ch);
  }

  lemma LoginInv(s: State, ch: Addr, name: string, npc: bool, id: nat)
    requires Inv(s)
    ensures Inv(Login(s, ch, name, npc, id))
  {
    var t := Login(s, ch, name, npc, id);
    if t != s {
      FindPlayerSound(s, id);
      NoDupAppend(s.loadedChars, ch);
      assert PlayerIdsOk(t.chars);
      assert t.chars.Keys == s.chars.Keys + {ch};
      forall h | h in t.groups
        ensures Roster(t, h) && QueueOk(t, h) && Led(t, h) && LegacyOk(t, h)
      {
        CastChangeKeepsGroup(s, t, h);
      }
      forall c | c in t.chars
        ensures CharOk(t, c)
      {
        if c != ch {
          CastChangeKeepsChar(s, t, c);
        }
      }
    }
  }

  /** Logins and extractions leave a group alone when all its members stay as they were. */
  lemma CastChangeKeepsGroup(s: State, t: State, h: Addr)
    requires h in s.groups && Roster(s, h) && QueueOk(s, h) && Led(s, h) && LegacyOk(s, h) && t.groups == s.groups
    requires forall m :: m in s.groups[h].members ==> m in t.chars && t.chars[m] == s.chars[m]
    ensures Roster(t, h) && QueueOk(t, h) && Led(t, h) && LegacyOk(t, h)
  {
    CountSame(s.chars, t.chars, s.groups[h].members);
  }

  lemma CastChangeKeepsChar(s: State, t: State, c: Addr)
    requires c in s.chars && c in t.chars && CharOk(s, c) && t.chars[c] == s.chars[c]
    requires t.groups == s.groups && t.now == s.now && (s.chars[c].master in s.chars ==> s.chars[c].master in t.chars)
    ensures CharOk(t, c)
  {
    if !s.chars[c].npc && s.chars[c].requestExpires > s.now {
      assert QueuesKept(s, t);
      KeepQueued(s, t, s.chars[c].requestGroup, s.chars[c].id, s.chars[c].requestExpires);
    }
  }

  lemma ExtractInv(s: State, ch: Addr)
    requires Inv(s) && ch in s.chars
    ensures Inv(Extract(s, ch))
  {
    DieFollowerFrees(s, ch);
    var s1, t := DieFollower(s, ch), Extract(s, ch);
    WithoutNoDup(s1.loadedChars, ch);
    assert PlayerIdsOk(t.chars);
    forall h | h in t.groups
      ensures Roster(t, h) && QueueOk(t, h) && Led(t, h) && LegacyOk(t, h)
    {
      assert Roster(s1, h);
      CastChangeKeepsGroup(s1, t, h);
    }
    forall c | c in t.chars
      ensures CharOk(t, c)
    {
      CastChangeKeepsChar(s1, t, c);
    }
  }

  lemma TickInv(s: State, seconds: nat)
    requires Inv(s)
    ensures Inv(Tick(s, seconds))
  {
    var t := Tick(s, seconds);
    forall c | c in t.chars
      ensures CharOk(t, c)
    {
      assert CharOk(s, c);
      if !s.chars[c].npc && s.chars[c].requestExpires > t.now {
        assert QueuesKept(s, t);
        KeepQueued(s, t, s.chars[c].requestGroup, s.chars[c].id, s.chars[c].requestExpires);
      }
    }
    forall h | h in t.groups
      ensures Roster(t, h) && QueueOk(t, h) && Led(t, h) && LegacyOk(t, h)
    {
      CastChangeKeepsGroup(s, t, h);
    }
  }

  lemma StepInvMembership(s: State, op: Op)
    requires Inv(s)
    requires ChangesMembers(op)
    ensures Inv(StepMembers(s, op))
  {
    match op
    case OpCreate(ch, allow) => if ch in s.chars { CreateInv(s, ch, allow); }
    case OpAddGrouped(ch, master) => AddGroupedInv(s, ch, master);
    case OpStopGrouped(ch) => StopGroupedInv(s, ch);
    case OpDisband(g) => if g in s.groups { DisbandInv(s, g); }
    case OpClearAll => DisbandAllEmpties(s, s.loadedGroups);
    case OpPromote(ch, arg) => PromoteInv(s, ch, arg);
  }

  lemma StepInvPending(s: State, op: Op)
    requires Inv(s)
    requires ChangesPending(op)
    ensures Inv(StepPending(s, op))
  {
    match op
    case OpInvite(ch, victim) => InviteInv(s, ch, victim);
    case OpRequest(ch, leader) => RequestJoinInv(s, ch, leader);
    case OpAccept(ch, arg) => AcceptInv(s, ch, arg);
    case OpDecline(ch, arg) => DeclineInv(s, ch, arg);
    case OpShowRequests(ch, tell) => if ch in s.chars { RemoveExpiredInv(s, s.chars[ch].group, tell); }
    case OpPendingUpdate(ch) => PendingUpdateInv(s, ch);
  }

  lemma AcceptInv(s: State, ch: Addr, arg: string)
    requires Inv(s)
    ensures Inv(Accept(s, ch, arg))
  {
    if ch in s.chars {
      AcceptInviteInv(s, ch, arg);
      AcceptRequestInv(s, ch, arg);
    }
  }

  lemma StepInvFollowing(s: State, op: Op)
    requires Inv(s)
    requires ChangesFollowing(op)
    ensures Inv(StepFollowing(s, op))
  {
    match op
    case OpAddFollower(ch, master) => if master in s.chars { AddFollowerInv(s, ch, master); }
    case OpStopFollower(ch) => assert Inv(StopFollower(s, ch)) by { StopFollowerInv(s, ch); }
    case OpDieFollower(ch) => if ch in s.chars { assert Inv(DieFollower(s, ch)) by { DieFollowerFrees(s, ch); } }
    case OpToggle(ch, victim) => ToggleInv(s, ch, victim);
    case OpExtract(ch) => if ch in s.chars { ExtractInv(s, ch); }
  }

  lemma MountInv(s: State, ch: Addr, m: Addr)
    requires Inv(s)
    ensures Inv(Mount(s, ch, m))
  {
    if ch in s.chars {
      assert CharOk(s, ch);
      TouchInv(s, ch, s.chars[ch].(mounted := m));
    }
  }

  lemma CharmInv(s: State, ch: Addr)
    requires Inv(s)
    ensures Inv(Charm(s, ch))
  {
    if ch in s.chars {
      assert CharOk(s, ch);
      TouchInv(s, ch, s.chars[ch].(charmed := true));
    }
  }

  lemma StepInvOutside(s: State, op: Op)
    requires Inv(s) && (op.OpLogin? || op.OpMount? || op.OpCharm? || op.OpTick?)
    ensures Inv(StepOutside(s, op))
  {
    match op
    case OpLogin(ch, name, npc, id) => LoginInv(s, ch, name, npc, id);
    case OpMount(ch, m) => MountInv(s, ch, m);
    case OpCharm(ch) => CharmInv(s, ch);
    case OpTick(seconds) => TickInv(s, seconds);
  }

  /** Every step of every kind keeps the invariant. */
  lemma StepInv(s: State, op: Op)
    requires Inv(s)
    ensures Inv(Step(s, op))
  {
    if ChangesMembers(op) {
      StepInvMembership(s, op);
    } else if ChangesPending(op) {
      StepInvPending(s, op);
    } else if ChangesFollowing(op) {
      StepInvFollowing(s, op);
    } else {
      StepInvOutside(s, op);
    }
  }

  /** The group invariant holds after any run from boot. */
  lemma {:induction false} RunInv(now: nat, ops: seq<Op>)
    ensures Inv(Run(Boot(now), ops))
  {
    if ops == [] {
    } else {
      RunInv(now, ops[..|ops| - 1]);
      StepInv(Run(Boot(now), ops[..|ops| - 1]), ops[|ops| - 1]);
    }
  }
}
