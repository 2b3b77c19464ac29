/** What holds over whole runs: the cap, where invitations come from, and who may enter a group by `accept`. */
module GroupTheorems {
  import opened GroupModel
  import opened GroupInvariants
  import opened GroupMembership
  import opened GroupCommands
  import opened GroupFollowing
  import opened GroupRuns
  import opened GroupFrames

  /** Invitations are only dropped, and no group outgrows the cap that had not outgrown it before. */
  ghost predicate Tame(s: State, t: State) {
    InvitesFade(s, t) && (CapOk(s) ==> CapOk(t))
  }

  lemma TameTrans(s: State, t: State, u: State)
    requires Tame(s, t) && Tame(t, u)
    ensures Tame(s, u)
  {
    InvitesFadeTrans(s, t, u);
  }

  lemma QuietTame(s: State, t: State)
    requires Quiet(s, t)
    ensures Tame(s, t)
  {
  }

  /** Editing a character without issuing an invitation. */
  lemma TouchTame(s: State, c: Addr, d: Char)
    requires c in s.chars && d.npc == s.chars[c].npc
    requires d.npc || d.inviteExpires == 0 || InviteOf(d) == InviteOf(s.chars[c])
    ensures Tame(s, SetChar(s, c, d))
  {
  }

  lemma ClearsTame(s: State, c: Addr, g: Addr, id: nat)
    ensures Tame(s, ClearInvite(s, c)) && Tame(s, ClearRequest(s, c)) && Tame(s, RemoveRequest(s, g, id))
  {
  }

  lemma RemoveExpiredTame(s: State, g: Addr, tell: bool)
    ensures Tame(s, RemoveExpired(s, g, tell))
  {
    if g in s.groups {
      var t := RemoveExpired(s, g, tell);
      forall c | c in s.chars
        ensures t.chars[c].npc == s.chars[c].npc && InviteOf(t.chars[c]) == InviteOf(s.chars[c])
      {
        assert t.chars[c] == s.chars[c] || t.chars[c] == ExpireChar(s.groups[g], s.now, s.chars[c]);
      }
    }
  }

  lemma CreateTame(s: State, leader: Addr, allowNpcOnly: bool)
    requires Inv(s) && leader in s.chars
    ensures Tame(s, Create(s, leader, allowNpcOnly).0)
  {
    CreateFrame(s, leader, allowNpcOnly);
    if s.chars[leader].group !in s.groups {
      FoundedGroup(s, leader, allowNpcOnly);
    }
  }

  lemma AddGroupedTame(s: State, ch: Addr, master: Addr)
    requires Inv(s) && !SlipsPastCap(s, ch, master)
    ensures Tame(s, AddGrouped(s, ch, master).0)
  {
    AddGroupedFrame(s, ch, master);
    if CapOk(s) {
      AddGroupedCap(s, ch, master);
    }
  }

  lemma StopGroupedTame(s: State, ch: Addr)
    requires Inv(s)
    ensures Tame(s, StopGrouped(s, ch))
  {
    StopGroupedInv(s, ch);
    RemoveQuiet(s, ch);
    QuietTame(s, RemoveMember(s, ch, true));
  }

  /** A character that acts as leader either leads its group or has none. */
  lemma ActorLeads(s: State, ch: Addr)
    requires Inv(s) && ActorIsLeader(s, ch)
    ensures s.chars[ch].group in s.groups ==> s.groups[s.chars[ch].group].leader == ch
  {
    assert CharOk(s, ch);
    if s.chars[ch].group in s.groups {
      assert Led(s, s.chars[ch].group) && Roster(s, s.chars[ch].group);
    }
  }

  // ----- Following and leaving

  lemma MasterlessTame(s: State, ch: Addr)
    requires ch in s.chars
    ensures Tame(s, Masterless(s, ch))
  {
    var s0 := SetChar(s, ch, s.chars[ch].(charmed := false));
    TouchTame(s, ch, s0.chars[ch]);
    var master := s.chars[ch].master;
    var s1 := LosePet(s0, master, ch);
    if s1 != s0 {
      TouchTame(s0, master, s0.chars[master].(pet := NULL));
    }
    TameTrans(s, s0, s1);
    TouchTame(s1, ch, s1.chars[ch].(master := NULL));
    TameTrans(s, s1, Masterless(s, ch));
  }

  lemma StopFollowerTame(s: State, ch: Addr)
    requires Inv(s)
    ensures Tame(s, StopFollower(s, ch))
  {
    if ch in s.chars && s.chars[ch].master != NULL {
      MasterlessInv(s, ch);
      MasterlessTame(s, ch);
      StopGroupedTame(Masterless(s, ch), ch);
      TameTrans(s, Masterless(s, ch), StopFollower(s, ch));
    }
  }

  lemma DetachSelfTame(s: State, ch: Addr)
    requires Inv(s) && ch in s.chars
    ensures Tame(s, DetachSelf(s, ch))
  {
    var master := s.chars[ch].master;
    assert CharOk(s, ch);
    if master != NULL {
      assert CharOk(s, master);
      var s0 := SetChar(s, master, s.chars[master].(pet := NULL));
      TouchInv(s, master, s.chars[master].(pet := NULL));
      TouchTame(s, master, s.chars[master].(pet := NULL));
      StopFollowerInv(s0, ch);
      StopFollowerTame(s0, ch);
      TameTrans(s, s0, StopFollower(s0, ch));
      StopGroupedTame(StopFollower(s0, ch), ch);
      TameTrans(s, StopFollower(s0, ch), DetachSelf(s, ch));
    } else {
      StopGroupedTame(s, ch);
    }
  }

  lemma {:induction false} ReleaseFollowersTame(s: State, list: seq<Addr>, ch: Addr)
    requires Inv(s) && Alone(s, ch)
    ensures Tame(s, ReleaseFollowers(s, list, ch))
  {
    if list == [] {
    } else {
      var init, last := list[..|list| - 1], list[|list| - 1];
      var t := ReleaseFollowers(s, init, ch);
      ReleaseFollowersTame(s, init, ch);
      ReleaseFollowersInv(s, init, ch);
      ReleaseFollowerInv(t, last, ch);
      StopFollowerTame(t, last);
      TameTrans(s, t, ReleaseFollowers(s, list, ch));
    }
  }

  lemma DieFollowerTame(s: State, ch: Addr)
    requires Inv(s) && ch in s.chars
    ensures Tame(s, DieFollower(s, ch))
  {
    var s1 := DetachSelf(s, ch);
    DetachSelfInv(s, ch);
    DetachSelfTame(s, ch);
    ReleaseFollowersTame(s1, s1.loadedChars, ch);
    TameTrans(s, s1, DieFollower(s, ch));
  }

  lemma {:induction false} DisbandAllTame(s: State, list: seq<Addr>)
    ensures Tame(s, DisbandAll(s, list))
    decreases |list|
  {
    if list == [] {
    } else {
      DisbandQuiet(s, list[0]);
      QuietTame(s, Disband(s, list[0]));
      DisbandAllTame(Disband(s, list[0]), list[1..]);
      TameTrans(s, Disband(s, list[0]), DisbandAll(s, list));
    }
  }

  lemma AddFollowerTame(s: State, ch: Addr, master: Addr)
    requires Inv(s) && master in s.chars
    ensures Tame(s, AddFollower(s, ch, master))
  {
    if ch in s.chars && s.chars[ch].master == NULL {
      var d := s.chars[ch].(master := master);
      assert CharOk(s, ch);
      TouchInv(s, ch, d);
      TouchTame(s, ch, d);
      StopGroupedTame(SetChar(s, ch, d), ch);
      TameTrans(s, SetChar(s, ch, d), AddFollower(s, ch, master));
    }
  }

  // ----- Commands

  lemma PromoteTame(s: State, ch: Addr, arg: string)
    ensures Tame(s, Promote(s, ch, arg))
  {
    if ch in s.chars && s.chars[ch].group in s.groups {
      var g := s.chars[ch].group;
      var n := FindMember(s.chars, s.groups[g].members, arg);
      SyncQuiet(Crowned(s, g, n), g);
      QuietTame(Crowned(s, g, n), Sync(Crowned(s, g, n), g));
      assert Tame(s, Crowned(s, g, n));
      TameTrans(s, Crowned(s, g, n), Sync(Crowned(s, g, n), g));
      assert Promote(s, ch, arg) in {s, Sync(Crowned(s, g, n), g)};
    }
  }

  lemma RequestJoinTame(s: State, ch: Addr, leader: Addr)
    requires Inv(s)
    ensures Tame(s, RequestJoin(s, ch, leader))
  {
    if ch in s.chars && leader in s.chars {
      var (s1, g) := Create(s, leader, false);
      CreateTame(s, leader, false);
      RequestOfTame(s1, g, ch);
      TameTrans(s, s1, RequestOf(s1, g, ch));
      assert RequestJoin(s, ch, leader) in {s, RequestOf(s1, g, ch)};
    }
  }

  lemma RequestOfTame(s: State, g: Addr, ch: Addr)
    ensures Tame(s, RequestOf(s, g, ch))
  {
    var s1 := RemoveExpired(s, g, false);
    RemoveExpiredTame(s, g, false);
    if g in s.groups && ch in s.chars {
      assert Tame(s1, Enqueue(s1, g, ch));
      TameTrans(s, s1, Enqueue(s1, g, ch));
      assert RequestOf(s, g, ch) in {s, s1, Enqueue(s1, g, ch)};
    }
  }

  lemma AdmitInvitedTame(s: State, ch: Addr, inviter: Addr)
    requires Inv(s) && ActorIsLeader(s, inviter)
    ensures Tame(s, AdmitInvited(s, ch, inviter))
  {
    ActorLeads(s, inviter);
    AddGroupedTame(s, ch, inviter);
    var t := AddGrouped(s, ch, inviter).0;
    ClearsTame(t, ch, NULL, 0);
    TameTrans(s, t, ClearInvite(t, ch));
  }

  lemma AcceptInviteTame(s: State, ch: Addr, arg: string)
    requires Inv(s) && ch in s.chars
    ensures Tame(s, AcceptInvite(s, ch, arg))
  {
    ClearsTame(s, ch, NULL, 0);
    var inviter := FindPlayer(s, s.chars[ch].inviter);
    if ActorIsLeader(s, inviter) {
      AdmitInvitedTame(s, ch, inviter);
    }
  }

  lemma AdmitRequesterTame(s: State, g: Addr, ch: Addr, id: nat)
    requires Inv(s) && ch in s.chars && s.chars[ch].group == g && g in s.groups && s.groups[g].leader == ch
    ensures Tame(s, AdmitRequester(s, g, ch, id))
  {
    var requester := FindPlayer(s, id);
    ClearsTame(s, NULL, g, id);
    if requester in s.chars {
      AddGroupedTame(s, requester, ch);
      var s1 := AddGrouped(s, requester, ch).0;
      var s2 := RemoveRequest(s1, g, id);
      var s3 := ClearRequest(s2, requester);
      ClearsTame(s1, NULL, g, id);
      ClearsTame(s2, requester, NULL, 0);
      ClearsTame(s3, requester, NULL, 0);
      TameTrans(s, s1, s2);
      TameTrans(s, s2, s3);
      TameTrans(s, s3, ClearInvite(s3, requester));
      assert AdmitRequester(s, g, ch, id) in {s1, ClearInvite(s3, requester)};
    }
  }

  lemma AcceptRequestInTame(s: State, g: Addr, ch: Addr, arg: string)
    requires Inv(s) && ch in s.chars && s.chars[ch].group == g && g in s.groups && s.groups[g].leader == ch
    ensures Tame(s, AcceptRequestIn(s, g, ch, arg))
  {
    var s1 := RemoveExpired(s, g, true);
    RemoveExpiredInv(s, g, true);
    RemoveExpiredKeepsGroups(s, g, true);
    RemoveExpiredTame(s, g, true);
    var r := FindRequest(s1.groups[g].requests, arg);
    if r.Some? {
      AdmitRequesterTame(s1, g, ch, r.value.requester);
      TameTrans(s, s1, AdmitRequester(s1, g, ch, r.value.requester));
    }
  }

  lemma AcceptRequestTame(s: State, ch: Addr, arg: string)
    requires Inv(s)
    ensures Tame(s, AcceptRequest(s, ch, arg))
  {
    if ActorIsLeader(s, ch) {
      var (s1, g) := Create(s, ch, false);
      CreateInv(s, ch, false);
      CreateTame(s, ch, false);
      CreatedLeads(s, ch);
      AcceptRequestInTame(s1, g, ch, arg);
      TameTrans(s, s1, AcceptRequestIn(s1, g, ch, arg));
    }
  }

  /** The group an acting leader works on is one it leads. */
  lemma CreatedLeads(s: State, ch: Addr)
    requires Inv(s) && ActorIsLeader(s, ch)
    ensures var (t, g) := Create(s, ch, false);
      ch in t.chars && t.chars[ch].group == g && g in t.groups && t.groups[g].leader == ch
  {
    CreateInv(s, ch, false);
    ActorLeads(s, ch);
    if s.chars[ch].group !in s.groups {
      FoundedGroup(s, ch, false);
    }
  }

  lemma AcceptTame(s: State, ch: Addr, arg: string)
    requires Inv(s)
    ensures Tame(s, Accept(s, ch, arg))
  {
    if ch in s.chars {
      AcceptInviteTame(s, ch, arg);
      AcceptRequestTame(s, ch, arg);
    }
  }

  lemma RejectTame(s: State, g: Addr, id: nat)
    ensures Tame(s, Reject(s, g, id))
  {
    var t := ClearRequest(s, FindPlayer(s, id));
    ClearsTame(s, FindPlayer(s, id), NULL, 0);
    ClearsTame(t, NULL, g, id);
    TameTrans(s, t, RemoveRequest(t, g, id));
  }

  lemma DeclineRequestTame(s: State, ch: Addr, arg: string)
    ensures Tame(s, DeclineRequest(s, ch, arg))
  {
    if ActorIsLeader(s, ch) && s.chars[ch].group in s.groups {
      var g := s.chars[ch].group;
      var s1 := RemoveExpired(s, g, true);
      RemoveExpiredTame(s, g, true);
      var r := FindRequest(s1.groups[g].requests, arg);
      if r.Some? {
        RejectTame(s1, g, r.value.requester);
        TameTrans(s, s1, Reject(s1, g, r.value.requester));
      }
    }
  }

  lemma DeclineTame(s: State, ch: Addr, arg: string)
    ensures Tame(s, Decline(s, ch, arg))
  {
    ClearsTame(s, ch, NULL, 0);
    DeclineRequestTame(s, ch, arg);
  }

  lemma ShowRequestsTame(s: State, ch: Addr, tell: bool)
    ensures Tame(s, ShowRequests(s, ch, tell))
  {
    if ch in s.chars {
      RemoveExpiredTame(s, s.chars[ch].group, tell);
    }
  }

  lemma PendingUpdateTame(s: State, ch: Addr)
    ensures Tame(s, PendingUpdate(s, ch))
  {
    if ch in s.chars && !s.chars[ch].npc {
      var t := ExpireOwn(s, ch);
      TouchTame(s, ch, t.chars[ch]);
      ShowRequestsTame(t, ch, true);
      TameTrans(s, t, PendingUpdate(s, ch));
    }
  }

  lemma ToggleTame(s: State, ch: Addr, victim: Addr)
    requires Inv(s)
    ensures Tame(s, Toggle(s, ch, victim))
  {
    if ch in s.chars && victim in s.chars {
      StopGroupedTame(s, victim);
      if s.chars[ch].leader == NULL || s.chars[ch].leader == ch {
        HeadLeads(s, ch);
        AddGroupedTame(s, victim, ch);
      }
    }
  }

  /** Whoever shows no leader above it leads its group, if it has one. */
  lemma HeadLeads(s: State, ch: Addr)
    requires Inv(s) && ch in s.chars && (s.chars[ch].leader == NULL || s.chars[ch].leader == ch)
    ensures s.chars[ch].group in s.groups ==> s.groups[s.chars[ch].group].leader == ch
  {
    assert CharOk(s, ch);
    var g := s.chars[ch].group;
    if g in s.groups {
      assert Led(s, g) && Roster(s, g) && LegacyOk(s, g);
    }
  }

  lemma ExtractTame(s: State, ch: Addr)
    requires Inv(s) && ch in s.chars
    ensures Tame(s, Extract(s, ch))
  {
    DieFollowerTame(s, ch);
    DieFollowerFrees(s, ch);
  }

  lemma OutsideTame(s: State, op: Op)
    requires op.OpLogin? || op.OpMount? || op.OpCharm? || op.OpTick?
    ensures Tame(s, StepOutside(s, op))
  {
    match op
    case OpLogin(ch, name, npc, id) => assert Tame(s, Login(s, ch, name, npc, id));
    case OpMount(ch, m) => assert Tame(s, Mount(s, ch, m));
    case OpCharm(ch) => assert Tame(s, Charm(s, ch));
    case OpTick(seconds) => assert Tame(s, Tick(s, seconds));
  }

  lemma PendingTame(s: State, op: Op)
    requires Inv(s)
    requires ChangesPending(op) && !op.OpInvite?
    ensures Tame(s, StepPending(s, op))
  {
    match op
    case OpRequest(ch, leader) => RequestJoinTame(s, ch, leader);
    case OpAccept(ch, arg) => AcceptTame(s, ch, arg);
    case OpDecline(ch, arg) => DeclineTame(s, ch, arg);
    case OpShowRequests(ch, tell) => ShowRequestsTame(s, ch, tell);
    case OpPendingUpdate(ch) => PendingUpdateTame(s, ch);
  }

  lemma FollowingTame(s: State, op: Op)
    requires Inv(s) && ChangesFollowing(op)
    ensures Tame(s, StepFollowing(s, op))
  {
    match op
    case OpAddFollower(ch, master) => if master in s.chars { AddFollowerTame(s, ch, master); }
    case OpStopFollower(ch) => StopFollowerTame(s, ch);
    case OpDieFollower(ch) => if ch in s.chars { DieFollowerTame(s, ch); }
    case OpToggle(ch, victim) => ToggleTame(s, ch, victim);
    case OpExtract(ch) => if ch in s.chars { ExtractTame(s, ch); }
  }

  lemma MembershipTame(s: State, op: Op)
    requires Inv(s) && !(op.OpAddGrouped? && SlipsPastCap(s, op.ch, op.master))
    requires ChangesMembers(op)
    ensures Tame(s, StepMembers(s, op))
  {
    match op
    case OpCreate(ch, allow) => if ch in s.chars { CreateTame(s, ch, allow); }
    case OpAddGrouped(ch, master) => AddGroupedTame(s, ch, master);
    case OpStopGrouped(ch) => StopGroupedTame(s, ch);
    case OpDisband(g) => DisbandQuiet(s, g); QuietTame(s, Disband(s, g));
    case OpClearAll => DisbandAllTame(s, s.loadedGroups);
    case OpPromote(ch, arg) => PromoteTame(s, ch, arg);
  }

  /** Every step but an invitation is tame, as long as add_grouped is not called past the cap. */
  lemma StepTame(s: State, op: Op)
    requires Inv(s) && !op.OpInvite? && !(op.OpAddGrouped? && SlipsPastCap(s, op.ch, op.master))
    ensures Tame(s, Step(s, op))
  {
    if ChangesMembers(op) {
      MembershipTame(s, op);
    } else if ChangesPending(op) {
      PendingTame(s, op);
    } else if ChangesFollowing(op) {
      FollowingTame(s, op);
    } else {
      OutsideTame(s, op);
    }
  }

  // ----- Whole runs: the cap

  ghost predicate CallersRespectCap(s: State, ops: seq<Op>) {
    forall i :: 0 <= i < |ops| && ops[i].OpAddGrouped? ==> !SlipsPastCap(Run(s, ops[..i]), ops[i].ch, ops[i].master)
  }

  lemma InviteCap(s: State, ch: Addr, victim: Addr)
    requires Inv(s) && CapOk(s)
    ensures CapOk(Invite(s, ch, victim))
  {
    if ActorIsLeader(s, ch) {
      CreateTame(s, ch, false);
    }
  }

  lemma StepCap(s: State, op: Op)
    requires Inv(s) && CapOk(s)
    ensures CapOk(Step(s, op)) <==> !(op.OpAddGrouped? && SlipsPastCap(s, op.ch, op.master))
  {
    if op.OpInvite? {
      InviteCap(s, op.ch, op.victim);
    } else if op.OpAddGrouped? {
      AddGroupedCap(s, op.ch, op.master);
    } else {
      StepTame(s, op);
    }
  }

  /** No reachable group exceeds a leader and nine others while callers of add_grouped pass leaders or the ungrouped. */
  lemma {:induction false} RunCap(now: nat, ops: seq<Op>)
    requires CallersRespectCap(Boot(now), ops)
    ensures CapOk(Run(Boot(now), ops))
  {
    if ops == [] {
    } else {
      var init, last := ops[..|ops| - 1], ops[|ops| - 1];
      assert forall i :: 0 <= i < |init| ==> init[i] == ops[i] && init[..i] == ops[..i];
      RunCap(now, init);
      RunInv(now, init);
      StepCap(Run(Boot(now), init), last);
    }
  }

  // ----- Whole runs: every pending invitation was issued

  /** Operation j of the run issued this invitation: by an acting leader, for its own group, 60 seconds before expiry. */
  ghost predicate IssuedAt(now: nat, ops: seq<Op>, j: nat, victim: Addr, inviter: nat, groupId: nat, expires: nat)
    requires j < |ops|
  {
    var before, after := Run(Boot(now), ops[..j]), Run(Boot(now), ops[..j + 1]);
    && ops[j].OpInvite? && ops[j].victim == victim
    && ActorIsLeader(before, ops[j].ch)
    && before.chars[ops[j].ch].id == inviter
    && expires == before.now + 60
    && ops[j].ch in after.chars && after.chars[ops[j].ch].group in after.groups
    && after.groups[after.chars[ops[j].ch].group].id == groupId
  }

  ghost predicate Issued(now: nat, ops: seq<Op>, victim: Addr, inviter: nat, groupId: nat, expires: nat) {
    exists j {:trigger IssuedAt(now, ops, j, victim, inviter, groupId, expires)} ::
      0 <= j < |ops| && IssuedAt(now, ops, j, victim, inviter, groupId, expires)
  }

  lemma IssuedLonger(now: nat, ops: seq<Op>, op: Op, victim: Addr, inviter: nat, groupId: nat, expires: nat)
    requires Issued(now, ops, victim, inviter, groupId, expires)
    ensures Issued(now, ops + [op], victim, inviter, groupId, expires)
  {
    var j :| 0 <= j < |ops| && IssuedAt(now, ops, j, victim, inviter, groupId, expires);
    assert (ops + [op])[..j] == ops[..j] && (ops + [op])[..j + 1] == ops[..j + 1];
    assert IssuedAt(now, ops + [op], j, victim, inviter, groupId, expires);
  }

  /** An invitation leaves every other character's invitations as they fade, and records itself exactly. */
  lemma InviteRecords(s: State, ch: Addr, victim: Addr, c: Addr)
    requires Inv(s)
    requires var t := Invite(s, ch, victim); c in t.chars && !t.chars[c].npc && t.chars[c].inviteExpires > 0
    ensures var t := Invite(s, ch, victim);
      || (c in s.chars && !s.chars[c].npc && InviteOf(s.chars[c]) == InviteOf(t.chars[c]))
      || (&& c == victim && ActorIsLeader(s, ch) && t.chars[c].inviter == s.chars[ch].id
          && t.chars[c].inviteExpires == s.now + PENDING_TTL
          && ch in t.chars && t.chars[ch].group in t.groups && t.groups[t.chars[ch].group].id == t.chars[c].inviteGroup)
  {
    if ActorIsLeader(s, ch) {
      var (s1, g) := Create(s, ch, false);
      CreateInv(s, ch, false);
      CreateFrame(s, ch, false);
      InviteToRecords(s1, g, ch, victim, c, Invite(s, ch, victim));
    }
  }

  lemma InviteToRecords(s: State, g: Addr, ch: Addr, victim: Addr, c: Addr, t: State)
    requires g in s.groups && ch in s.chars && t == InviteTo(s, g, ch, victim) && c in t.chars
    ensures c in s.chars && t.chars[c].npc == s.chars[c].npc && ch in t.chars && t.chars[ch].group == s.chars[ch].group
    ensures t.groups == s.groups
    ensures InviteOf(t.chars[c]) == InviteOf(s.chars[c])
      || (c == victim && InviteOf(t.chars[c]) == (s.chars[ch].id, s.groups[g].id, s.now + PENDING_TTL))
  {
  }

  /** In every reachable state, each pending invitation comes from an `invite` of the run. */
  lemma {:induction false} InviteProvenance(now: nat, ops: seq<Op>, c: Addr)
    requires var s := Run(Boot(now), ops); c in s.chars && !s.chars[c].npc && s.chars[c].inviteExpires > 0
    ensures var d := Run(Boot(now), ops).chars[c]; Issued(now, ops, c, d.inviter, d.inviteGroup, d.inviteExpires)
  {
    if ops == [] {
    } else {
      var init, op := ops[..|ops| - 1], ops[|ops| - 1];
      var s, t := Run(Boot(now), init), Run(Boot(now), ops);
      assert ops == init + [op];
      RunInv(now, init);
      if op.OpInvite? {
        InviteRecords(s, op.ch, op.victim, c);
      } else if op.OpAddGrouped? {
        AddGroupedFrame(s, op.ch, op.master);
      } else {
        StepTame(s, op);
      }
      if c in s.chars && !s.chars[c].npc && InviteOf(s.chars[c]) == InviteOf(t.chars[c]) {
        InviteProvenance(now, init, c);
        IssuedLonger(now, init, op, c, t.chars[c].inviter, t.chars[c].inviteGroup, t.chars[c].inviteExpires);
      } else {
        assert ops[..|ops|] == ops;
        assert IssuedAt(now, ops, |ops| - 1, c, t.chars[c].inviter, t.chars[c].inviteGroup, t.chars[c].inviteExpires);
      }
    }
  }

  // ----- Whole runs: who enters a group by `accept`

  /** Between s and t the character p came into a group it was not in. */
  ghost predicate Enters(s: State, t: State, p: Addr) {
    p in t.chars && t.chars[p].group != NULL && (p in s.chars ==> t.chars[p].group != s.chars[p].group)
  }

  lemma AddGroupedWithGroup(s: State, ch: Addr, master: Addr)
    requires Inv(s) && ch in s.chars && master in s.chars && s.chars[master].group in s.groups
    ensures var t := AddGrouped(s, ch, master).0;
      && OnlyEnter(s, t, {ch}) && SameCast(s, t)
      && (Enters(s, t, ch) ==> t.chars[ch].group == s.chars[master].group && NothingPending(t.chars[ch]))
  {
    var g := s.chars[master].group;
    AddGroupedInv(s, ch, master);
    assert Create(s, master, s.chars[master].npc) == (s, g);
    if s.chars[ch].group != g {
      AddFrame(s, g, ch);
      AddInv(s, g, ch);
    }
    assert AddGrouped(s, ch, master).0 in {s, AddMember(s, g, ch).0};
  }

  /** Entry by invitation: the inviter still leads the very group the invitation names, and it has not expired. */
  ghost predicate EntersByInvite(s: State, t: State, ch: Addr, p: Addr) {
    && p == ch && HasActiveInvite(s, ch) && p in t.chars
    && var inviter := FindPlayer(s, s.chars[ch].inviter);
    var g := t.chars[p].group;
    && inviter in s.chars && g in s.groups
    && s.chars[inviter].group == g && s.groups[g].leader == inviter && ActorIsLeader(s, inviter)
    && s.groups[g].id == s.chars[ch].inviteGroup
  }

  /** Entry by request: the leader ch takes a player whose unexpired entry is in ch's own queue. */
  ghost predicate EntersByRequest(s: State, t: State, ch: Addr, p: Addr) {
    && ActorIsLeader(s, ch) && p in s.chars && p in t.chars && !s.chars[p].npc
    && s.chars[ch].group in s.groups && s.groups[s.chars[ch].group].leader == ch
    && t.chars[p].group == s.chars[ch].group
    && exists r :: r in s.groups[s.chars[ch].group].requests && r.requester == s.chars[p].id && r.expires > s.now
  }

  /** Entry into a brand-new group: a leader without a group founds one. */
  ghost predicate FoundsOwn(s: State, t: State, ch: Addr, p: Addr) {
    && p == ch && ActorIsLeader(s, ch) && !HasActiveInvite(s, ch)
    && p in t.chars && t.chars[p].group !in s.groups && t.chars[p].group in t.groups
    && t.groups[t.chars[p].group].members == [ch]
  }

  lemma ClearInviteStays(s: State, c: Addr)
    ensures SameCast(s, ClearInvite(s, c))
    ensures forall x :: x in s.chars ==> ClearInvite(s, c).chars[x].group == s.chars[x].group
  {
  }

  lemma AcceptInviteEntry(s: State, ch: Addr, arg: string, p: Addr)
    requires Inv(s) && HasActiveInvite(s, ch) && Enters(s, AcceptInvite(s, ch, arg), p)
    ensures p in AcceptInvite(s, ch, arg).chars && EntersByInvite(s, AcceptInvite(s, ch, arg), ch, p)
    ensures NothingPending(AcceptInvite(s, ch, arg).chars[p])
  {
    var t := AcceptInvite(s, ch, arg);
    var inviter := FindPlayer(s, s.chars[ch].inviter);
    ClearInviteStays(s, ch);
    assert t == AdmitInvited(s, ch, inviter);
    var g := s.chars[inviter].group;
    FindGroupInSound(s.groups, s.loadedGroups, s.chars[ch].inviteGroup);
    ActorLeads(s, inviter);
    AddGroupedWithGroup(s, ch, inviter);
    ClearInviteStays(AddGrouped(s, ch, inviter).0, ch);
  }

  /** Queues, unlike members, are what expiry edits: nobody moves. */
  lemma RemoveExpiredStays(s: State, g: Addr)
    ensures SameCast(s, RemoveExpired(s, g, true))
    ensures forall c :: c in s.chars ==> RemoveExpired(s, g, true).chars[c].group == s.chars[c].group
  {
    RemoveExpiredKeepsGroups(s, g, true);
    if g in s.groups {
      var t := RemoveExpired(s, g, true);
      forall c | c in s.chars
        ensures t.chars[c].npc == s.chars[c].npc && t.chars[c].id == s.chars[c].id
      {
        assert t.chars[c] == ExpireChar(s.groups[g], s.now, s.chars[c]);
      }
    }
  }

  /** The three clean-up steps after a request is accepted. */
  function Settled(s: State, g: Addr, id: nat, requester: Addr): State {
    ClearInvite(ClearRequest(RemoveRequest(s, g, id), requester), requester)
  }

  lemma SettledStays(s: State, g: Addr, id: nat, requester: Addr)
    ensures SameCast(s, Settled(s, g, id, requester))
    ensures forall x :: x in s.chars ==> Settled(s, g, id, requester).chars[x].group == s.chars[x].group
    ensures forall x :: x in s.chars && NothingPending(s.chars[x]) ==> NothingPending(Settled(s, g, id, requester).chars[x])
  {
  }

  lemma AdmitRequesterEntry(s: State, g: Addr, ch: Addr, id: nat, p: Addr)
    requires Inv(s) && g in s.groups && ch in s.chars && s.chars[ch].group == g
    requires Enters(s, AdmitRequester(s, g, ch, id), p)
    ensures var t := AdmitRequester(s, g, ch, id);
      p in s.chars && !s.chars[p].npc && s.chars[p].id == id && t.chars[p].group == g && NothingPending(t.chars[p])
  {
    var requester := FindPlayer(s, id);
    IdFindPlayerSound(s.chars, s.loadedChars, id);
    assert requester in s.chars;
    AddGroupedWithGroup(s, requester, ch);
    var s1 := AddGrouped(s, requester, ch).0;
    SettledStays(s1, g, id, requester);
    assert AdmitRequester(s, g, ch, id) in {s1, Settled(s1, g, id, requester)};
    assert Enters(s, s1, p);
  }

  lemma AcceptRequestInEntry(s: State, g: Addr, ch: Addr, arg: string, p: Addr)
    requires Inv(s) && ActorIsLeader(s, ch) && s.chars[ch].group == g && g in s.groups
    requires Enters(s, AcceptRequestIn(s, g, ch, arg), p)
    ensures EntersByRequest(s, AcceptRequestIn(s, g, ch, arg), ch, p)
    ensures NothingPending(AcceptRequestIn(s, g, ch, arg).chars[p])
  {
    var s1 := RemoveExpired(s, g, true);
    RemoveExpiredInv(s, g, true);
    RemoveExpiredStays(s, g);
    RemoveExpiredKeepsGroups(s, g, true);
    ActorLeads(s, ch);
    var r := FindRequest(s1.groups[g].requests, arg);
    assert r.Some?;
    FindRequestSound(s1.groups[g].requests, arg);
    assert QueueOk(s, g);
    UnexpiredSound(s.groups[g].requests, s.now);
    AdmitRequesterEntry(s1, g, ch, r.value.requester, p);
    assert r.value in s.groups[g].requests;
  }

  lemma AcceptRequestEntry(s: State, ch: Addr, arg: string, p: Addr)
    requires Inv(s) && ch in s.chars && !HasActiveInvite(s, ch) && Enters(s, AcceptRequest(s, ch, arg), p)
    ensures var t := AcceptRequest(s, ch, arg);
      (EntersByRequest(s, t, ch, p) || FoundsOwn(s, t, ch, p)) && NothingPending(t.chars[p])
  {
    if s.chars[ch].group in s.groups {
      assert Create(s, ch, false) == (s, s.chars[ch].group);
      AcceptRequestInEntry(s, s.chars[ch].group, ch, arg, p);
    } else {
      var (s1, g) := Create(s, ch, false);
      CreateInv(s, ch, false);
      FoundedGroup(s, ch, false);
      FoundedChars(s, ch, false);
      CreateUnfolds(s, ch, false);
      JoiningFrame(Founding(s, ch, false), s.nextGroup, ch);
      RemoveExpiredStays(s1, g);
      EmptyQueueAccept(s1, g, ch, arg);
    }
  }

  lemma EmptyQueueAccept(s: State, g: Addr, ch: Addr, arg: string)
    requires g in s.groups && s.groups[g].requests == []
    ensures AcceptRequestIn(s, g, ch, arg) == s
  {
    var t := RemoveExpired(s, g, true);
    assert t.groups[g].requests == [];
    assert t.chars == s.chars by {
      forall c | c in s.chars
        ensures t.chars[c] == s.chars[c]
      {
        assert t.chars[c] == ExpireChar(s.groups[g], s.now, s.chars[c]);
      }
    }
    assert t.groups == s.groups;
  }
}
