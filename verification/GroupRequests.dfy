/** Where queue entries come from, each put there by a `request` of the run, and by what right anybody comes into a group. */
module GroupRequests {
  import opened GroupModel
  import opened GroupInvariants
  import opened GroupMembership
  import opened GroupCommands
  import opened GroupFollowing
  import opened GroupRuns
  import opened GroupFrames
  import opened GroupTheorems
  import opened GroupOutcomes

  /** Every entry of every queue of t was in the queue of the same group in s. */
  ghost predicate QueuesFade(s: State, t: State) {
    forall g, r {:trigger r in t.groups[g].requests} :: g in t.groups && r in t.groups[g].requests ==>
      g in s.groups && s.groups[g].id == t.groups[g].id && r in s.groups[g].requests
  }

  lemma FadeTrans(s: State, t: State, u: State)
    requires QueuesFade(s, t) && QueuesFade(t, u)
    ensures QueuesFade(s, u)
  {
  }

  // ----- Membership

  lemma SyncFade(s: State, g: Addr)
    ensures QueuesFade(s, Sync(s, g))
  {
  }

  lemma DisbandFade(s: State, g: Addr)
    ensures QueuesFade(s, Disband(s, g))
  {
  }

  lemma RemoveFade(s: State, ch: Addr, disbandIfEmpty: bool)
    ensures QueuesFade(s, RemoveMember(s, ch, disbandIfEmpty))
  {
    if ch in s.chars && s.chars[ch].group in s.groups {
      var g, t := s.chars[ch].group, Leaving(s, ch);
      SyncFade(t, g);
      DisbandFade(t, g);
      assert QueuesFade(s, t);
      assert RemoveMember(s, ch, disbandIfEmpty) in {t, Sync(t, g), Disband(t, g)};
      FadeTrans(s, t, Sync(t, g));
      FadeTrans(s, t, Disband(t, g));
    }
  }

  lemma AddFade(s: State, g: Addr, ch: Addr)
    ensures QueuesFade(s, AddMember(s, g, ch).0)
  {
    if g in s.groups && ch in s.chars && s.chars[ch].group != g {
      var s1 := if s.chars[ch].group in s.groups then RemoveMember(s, ch, true) else s;
      RemoveFade(s, ch, true);
      if g in s1.groups && ch in s1.chars {
        var t := Joining(s1, g, ch);
        assert QueuesFade(s1, t);
        SyncFade(t, g);
        FadeTrans(s1, t, Sync(t, g));
        FadeTrans(s, s1, Sync(t, g));
        assert AddMember(s, g, ch).0 == Sync(t, g);
      }
    }
  }

  lemma CreateFade(s: State, leader: Addr, allowNpcOnly: bool)
    requires Inv(s)
    ensures QueuesFade(s, Create(s, leader, allowNpcOnly).0)
  {
    if leader in s.chars && s.chars[leader].group !in s.groups {
      var t := Founding(s, leader, allowNpcOnly);
      assert QueuesFade(s, t);
      AddFade(t, s.nextGroup, leader);
      FadeTrans(s, t, AddMember(t, s.nextGroup, leader).0);
    }
  }

  lemma AddGroupedFade(s: State, ch: Addr, master: Addr)
    requires Inv(s)
    ensures QueuesFade(s, AddGrouped(s, ch, master).0)
  {
    if ch in s.chars && master in s.chars {
      var (s1, g) := Create(s, master, s.chars[master].npc);
      CreateFade(s, master, s.chars[master].npc);
      AddFade(s1, g, ch);
      FadeTrans(s, s1, AddMember(s1, g, ch).0);
    }
  }

  lemma StopGroupedFade(s: State, ch: Addr)
    ensures QueuesFade(s, StopGrouped(s, ch))
  {
    RemoveFade(s, ch, true);
  }

  lemma {:induction false} DisbandAllFade(s: State, list: seq<Addr>)
    ensures QueuesFade(s, DisbandAll(s, list))
    decreases |list|
  {
    if list == [] {
    } else {
      DisbandFade(s, list[0]);
      DisbandAllFade(Disband(s, list[0]), list[1..]);
      FadeTrans(s, Disband(s, list[0]), DisbandAll(s, list));
    }
  }

  lemma PromoteFade(s: State, ch: Addr, arg: string)
    ensures QueuesFade(s, Promote(s, ch, arg))
  {
    if ch in s.chars && s.chars[ch].group in s.groups {
      var g := s.chars[ch].group;
      var n := FindMember(s.chars, s.groups[g].members, arg);
      var t := SetGroup(s, g, s.groups[g].(leader := n));
      assert QueuesFade(s, t);
      SyncFade(t, g);
      FadeTrans(s, t, Sync(t, g));
    }
  }

  // ----- Following

  lemma FollowFade(s: State, ch: Addr, master: Addr)
    ensures QueuesFade(s, AddFollower(s, ch, master))
  {
    if ch in s.chars && s.chars[ch].master == NULL {
      var t := SetChar(s, ch, s.chars[ch].(master := master));
      StopGroupedFade(t, ch);
      FadeTrans(s, t, StopGrouped(t, ch));
    }
  }

  lemma StopFollowerFade(s: State, ch: Addr)
    ensures QueuesFade(s, StopFollower(s, ch))
  {
    if ch in s.chars && s.chars[ch].master != NULL {
      var t := Masterless(s, ch);
      assert t.groups == s.groups;
      StopGroupedFade(t, ch);
      FadeTrans(s, t, StopGrouped(t, ch));
    }
  }

  lemma {:induction false} ReleaseFade(s: State, list: seq<Addr>, ch: Addr)
    requires Inv(s) && Alone(s, ch)
    ensures QueuesFade(s, ReleaseFollowers(s, list, ch))
  {
    if list == [] {
    } else {
      var init, last := list[..|list| - 1], list[|list| - 1];
      var t := ReleaseFollowers(s, init, ch);
      ReleaseFade(s, init, ch);
      ReleaseFollowersInv(s, init, ch);
      ReleaseFollowerInv(t, last, ch);
      StopFollowerFade(t, last);
      FadeTrans(s, t, ReleaseFollowers(s, list, ch));
    }
  }

  lemma DieFade(s: State, ch: Addr)
    requires Inv(s) && ch in s.chars
    ensures QueuesFade(s, DieFollower(s, ch))
  {
    var s1 := DetachSelf(s, ch);
    DetachFade(s, ch);
    DetachSelfInv(s, ch);
    ReleaseFade(s1, s1.loadedChars, ch);
    FadeTrans(s, s1, DieFollower(s, ch));
  }

  lemma DetachFade(s: State, ch: Addr)
    requires ch in s.chars
    ensures QueuesFade(s, DetachSelf(s, ch))
  {
    var master := s.chars[ch].master;
    if master != NULL && master in s.chars {
      var s0 := SetChar(s, master, s.chars[master].(pet := NULL));
      var s1 := StopFollower(s0, ch);
      StopFollowerFade(s0, ch);
      FadeTrans(s, s0, s1);
      StopGroupedFade(s1, ch);
      FadeTrans(s, s1, StopGrouped(s1, ch));
    } else {
      StopGroupedFade(s, ch);
    }
  }

  lemma ToggleFade(s: State, ch: Addr, victim: Addr)
    requires Inv(s)
    ensures QueuesFade(s, Toggle(s, ch, victim))
  {
    StopGroupedFade(s, victim);
    AddGroupedFade(s, victim, ch);
  }

  // ----- The queues themselves

  lemma {:induction false} UnexpiredSubset(requests: seq<Request>, now: nat)
    ensures forall r :: r in Unexpired(requests, now) ==> r in requests
  {
    if requests == [] {
    } else {
      UnexpiredSubset(requests[1..], now);
      assert requests == [requests[0]] + requests[1..];
    }
  }

  lemma {:induction false} DropSubset(requests: seq<Request>, id: nat)
    ensures forall r :: r in DropRequester(requests, id) ==> r in requests
  {
    if requests == [] {
    } else {
      DropSubset(requests[1..], id);
      assert requests == [requests[0]] + requests[1..];
    }
  }

  lemma RemoveExpiredFade(s: State, g: Addr, tell: bool)
    ensures QueuesFade(s, RemoveExpired(s, g, tell))
  {
    if g in s.groups {
      UnexpiredSubset(s.groups[g].requests, s.now);
    }
  }

  lemma RemoveRequestFade(s: State, g: Addr, id: nat)
    ensures QueuesFade(s, RemoveRequest(s, g, id))
  {
    if g in s.groups {
      DropSubset(s.groups[g].requests, id);
    }
  }

  lemma RejectFade(s: State, g: Addr, id: nat)
    ensures QueuesFade(s, Reject(s, g, id))
  {
    var t := ClearRequest(s, FindPlayer(s, id));
    RemoveRequestFade(t, g, id);
    FadeTrans(s, t, RemoveRequest(t, g, id));
  }

  lemma AdmitFade(s: State, g: Addr, ch: Addr, id: nat)
    requires Inv(s)
    ensures QueuesFade(s, AdmitRequester(s, g, ch, id))
  {
    var requester := FindPlayer(s, id);
    var s1 := AddGrouped(s, requester, ch).0;
    var t := RemoveRequest(s1, g, id);
    RemoveRequestFade(s, g, id);
    AddGroupedFade(s, requester, ch);
    RemoveRequestFade(s1, g, id);
    FadeTrans(s, s1, t);
    assert Settled(s1, g, id, requester).groups == t.groups;
  }

  lemma AcceptRequestFade(s: State, ch: Addr, arg: string)
    requires Inv(s)
    ensures QueuesFade(s, AcceptRequest(s, ch, arg))
  {
    if ActorIsLeader(s, ch) {
      var (s1, g) := Create(s, ch, false);
      CreateInv(s, ch, false);
      CreateFade(s, ch, false);
      var s2 := RemoveExpired(s1, g, true);
      RemoveExpiredInv(s1, g, true);
      RemoveExpiredFade(s1, g, true);
      FadeTrans(s, s1, s2);
      var r := FindRequest(s2.groups[g].requests, arg);
      if r.Some? {
        AdmitFade(s2, g, ch, r.value.requester);
        FadeTrans(s, s2, AdmitRequester(s2, g, ch, r.value.requester));
      }
    }
  }

  lemma AcceptFade(s: State, ch: Addr, arg: string)
    requires Inv(s)
    ensures QueuesFade(s, Accept(s, ch, arg))
  {
    if ch in s.chars {
      AcceptInviteFade(s, ch, arg);
      AcceptRequestFade(s, ch, arg);
      assert Accept(s, ch, arg) in {s, AcceptInvite(s, ch, arg), AcceptRequest(s, ch, arg)};
    }
  }

  lemma AcceptInviteFade(s: State, ch: Addr, arg: string)
    requires Inv(s) && ch in s.chars
    ensures QueuesFade(s, AcceptInvite(s, ch, arg))
  {
    var inviter := FindPlayer(s, s.chars[ch].inviter);
    var t := AddGrouped(s, ch, inviter).0;
    AddGroupedFade(s, ch, inviter);
    assert ClearInvite(t, ch).groups == t.groups;
    assert AcceptInvite(s, ch, arg) in {s, ClearInvite(s, ch), ClearInvite(t, ch)};
  }

  lemma DeclineFade(s: State, ch: Addr, arg: string)
    ensures QueuesFade(s, Decline(s, ch, arg))
  {
    if ch in s.chars && s.chars[ch].group in s.groups {
      var g := s.chars[ch].group;
      var s1 := RemoveExpired(s, g, true);
      RemoveExpiredFade(s, g, true);
      var r := FindRequest(s1.groups[g].requests, arg);
      if r.Some? {
        RejectFade(s1, g, r.value.requester);
        FadeTrans(s, s1, Reject(s1, g, r.value.requester));
      }
    }
  }

  lemma PendingUpdateFade(s: State, ch: Addr)
    ensures QueuesFade(s, PendingUpdate(s, ch))
  {
    if ch in s.chars && !s.chars[ch].npc {
      RemoveExpiredFade(ExpireOwn(s, ch), s.chars[ch].group, true);
    }
  }

  // ----- Steps

  lemma MembersFade(s: State, op: Op)
    requires Inv(s) && ChangesMembers(op)
    ensures QueuesFade(s, StepMembers(s, op))
  {
    match op
    case OpCreate(ch, allow) => CreateFade(s, ch, allow);
    case OpAddGrouped(ch, master) => AddGroupedFade(s, ch, master);
    case OpStopGrouped(ch) => StopGroupedFade(s, ch);
    case OpDisband(g) => DisbandFade(s, g);
    case OpClearAll => DisbandAllFade(s, s.loadedGroups);
    case OpPromote(ch, arg) => PromoteFade(s, ch, arg);
  }

  lemma PendingFade(s: State, op: Op)
    requires Inv(s) && ChangesPending(op) && !op.OpRequest?
    ensures QueuesFade(s, StepPending(s, op))
  {
    match op
    case OpInvite(ch, victim) => CreateFade(s, ch, false);
    case OpAccept(ch, arg) => AcceptFade(s, ch, arg);
    case OpDecline(ch, arg) => DeclineFade(s, ch, arg);
    case OpShowRequests(ch, tell) => if ch in s.chars { RemoveExpiredFade(s, s.chars[ch].group, tell); }
    case OpPendingUpdate(ch) => PendingUpdateFade(s, ch);
  }

  lemma FollowingFade(s: State, op: Op)
    requires Inv(s) && ChangesFollowing(op)
    ensures QueuesFade(s, StepFollowing(s, op))
  {
    match op
    case OpAddFollower(ch, master) => FollowFade(s, ch, master);
    case OpStopFollower(ch) => StopFollowerFade(s, ch);
    case OpDieFollower(ch) => if ch in s.chars { DieFade(s, ch); }
    case OpToggle(ch, victim) => ToggleFade(s, ch, victim);
    case OpExtract(ch) => if ch in s.chars { DieFade(s, ch); }
  }

  /** Only a `request` puts entries into queues. */
  lemma StepFade(s: State, op: Op)
    requires Inv(s) && !op.OpRequest?
    ensures QueuesFade(s, Step(s, op))
  {
    if ChangesMembers(op) {
      MembersFade(s, op);
    } else if ChangesPending(op) {
      PendingFade(s, op);
    } else if ChangesFollowing(op) {
      FollowingFade(s, op);
    }
  }

  /** A request adds at most the entry of the player who makes it, to the queue of the leader it names. */
  lemma RequestAdds(s: State, ch: Addr, leader: Addr, g: Addr, r: Request)
    requires Inv(s)
    requires var t := RequestJoin(s, ch, leader); g in t.groups && r in t.groups[g].requests
    ensures var t := RequestJoin(s, ch, leader);
      || (g in s.groups && s.groups[g].id == t.groups[g].id && r in s.groups[g].requests)
      || (&& ch in s.chars && !s.chars[ch].npc && ActorIsLeader(s, leader) && r == NewRequest(s, ch)
          && Leads(t, leader, g))
  {
    var t := RequestJoin(s, ch, leader);
    if t != s {
      var (s1, g0) := Create(s, leader, false);
      CreateFade(s, leader, false);
      CreateNature(s, leader, false);
      CreatedSize(s, leader);
      CreateStays(s, leader, false, ch);
      assert t == RequestOf(s1, g0, ch) && NewRequest(s1, ch) == NewRequest(s, ch);
      RequestOfAdds(s1, g0, ch, leader, g, r);
    }
  }

  lemma RequestOfAdds(s: State, g0: Addr, ch: Addr, leader: Addr, g: Addr, r: Request)
    requires g0 in s.groups && ch in s.chars && ch != leader && Leads(s, leader, g0)
    ensures var t := RequestOf(s, g0, ch);
      g in t.groups && r in t.groups[g].requests ==>
        || (g in s.groups && s.groups[g].id == t.groups[g].id && r in s.groups[g].requests)
        || (r == NewRequest(s, ch) && Leads(t, leader, g))
  {
    var s1 := RemoveExpired(s, g0, false);
    RemoveExpiredFade(s, g0, false);
    assert RequestOf(s, g0, ch) in {s, s1, Enqueue(s1, g0, ch)};
    EnqueueAdds(s1, g0, ch, leader, g, r);
  }

  lemma EnqueueAdds(s: State, g0: Addr, ch: Addr, leader: Addr, g: Addr, r: Request)
    requires g0 in s.groups && ch in s.chars && ch != leader && Leads(s, leader, g0)
    ensures var t := Enqueue(s, g0, ch);
      g in t.groups && r in t.groups[g].requests ==>
        || (g in s.groups && s.groups[g].id == t.groups[g].id && r in s.groups[g].requests)
        || (r == NewRequest(s, ch) && Leads(t, leader, g))
  {
  }

  // ----- Whole runs

  /** Operation j of the run put this entry into the queue of the group with this id. */
  ghost predicate AskedAt(now: nat, ops: seq<Op>, j: nat, r: Request, groupId: nat)
    requires j < |ops|
  {
    var before, after := Run(Boot(now), ops[..j]), Run(Boot(now), ops[..j + 1]);
    && ops[j].OpRequest? && ops[j].ch in before.chars && !before.chars[ops[j].ch].npc
    && r == NewRequest(before, ops[j].ch) && ActorIsLeader(before, ops[j].leader)
    && exists g :: Leads(after, ops[j].leader, g) && after.groups[g].id == groupId
  }

  ghost predicate AskedFor(now: nat, ops: seq<Op>, r: Request, groupId: nat) {
    exists j {:trigger AskedAt(now, ops, j, r, groupId)} :: 0 <= j < |ops| && AskedAt(now, ops, j, r, groupId)
  }

  lemma AskedLonger(now: nat, ops: seq<Op>, op: Op, r: Request, groupId: nat)
    requires AskedFor(now, ops, r, groupId)
    ensures AskedFor(now, ops + [op], r, groupId)
  {
    var j :| 0 <= j < |ops| && AskedAt(now, ops, j, r, groupId);
    assert (ops + [op])[..j] == ops[..j] && (ops + [op])[..j + 1] == ops[..j + 1];
    assert AskedAt(now, ops + [op], j, r, groupId);
  }

  /**
   In every reachable state, each queue entry was put there by a `request` of the run: of the player with the id and
   the name on it, sixty ticks before it expires, to a player then acting as leader, for the group it still stands in.
   */
  lemma {:induction false} RequestProvenance(now: nat, ops: seq<Op>, g: Addr, r: Request)
    requires var s := Run(Boot(now), ops); g in s.groups && r in s.groups[g].requests
    ensures AskedFor(now, ops, r, Run(Boot(now), ops).groups[g].id)
  {
    if ops == [] {
    } else {
      var init, op := ops[..|ops| - 1], ops[|ops| - 1];
      var s, t := Run(Boot(now), init), Run(Boot(now), ops);
      RunInv(now, init);
      if op.OpRequest? {
        RequestAdds(s, op.ch, op.leader, g, r);
      } else {
        StepFade(s, op);
      }
      assert ops == init + [op];
      if g in s.groups && s.groups[g].id == t.groups[g].id && r in s.groups[g].requests {
        RequestProvenance(now, init, g, r);
        AskedLonger(now, init, op, r, t.groups[g].id);
      } else {
        assert ops[..|init| + 1] == ops;
        assert Leads(t, op.leader, g);
        assert AskedAt(now, ops, |init|, r, t.groups[g].id);
      }
    }
  }

  // ----- Who comes in

  /**
   Entry by a request of the run: in the queue of the accepting leader stands an entry for p, not yet expired, which
   a player with that id put there, less than sixty ticks ago, by asking a leader to join this very group.
   */
  ghost predicate EntersAsAsked(now: nat, ops: seq<Op>, t: State, ch: Addr, p: Addr) {
    var s := Run(Boot(now), ops);
    && EntersByRequest(s, t, ch, p)
    && exists r {:trigger AskedFor(now, ops, r, s.groups[s.chars[ch].group].id)} ::
         && r in s.groups[s.chars[ch].group].requests && r.requester == s.chars[p].id && s.now < r.expires
         && AskedFor(now, ops, r, s.groups[s.chars[ch].group].id)
  }

  lemma RequestEntryAsked(now: nat, ops: seq<Op>, t: State, ch: Addr, p: Addr)
    requires EntersByRequest(Run(Boot(now), ops), t, ch, p)
    ensures EntersAsAsked(now, ops, t, ch, p)
  {
    var s := Run(Boot(now), ops);
    var r :| r in s.groups[s.chars[ch].group].requests && r.requester == s.chars[p].id && r.expires > s.now;
    RequestProvenance(now, ops, s.chars[ch].group, r);
  }

  /** A character with a group is listed in that group and in no other. */
  lemma ListedOnce(s: State, p: Addr)
    requires Inv(s) && p in s.chars && s.chars[p].group != NULL
    ensures s.chars[p].group in s.groups && p in s.groups[s.chars[p].group].members
    ensures forall h :: h in s.groups && p in s.groups[h].members ==> h == s.chars[p].group
  {
    assert CharOk(s, p);
    forall h | h in s.groups && p in s.groups[h].members
      ensures h == s.chars[p].group
    {
      assert Roster(s, h);
    }
  }

  /**
   Join safety over whole runs. If p enters a group when ch types `accept` after any run, then either
   (1) p is ch and an `invite` of the run, less than sixty ticks old, was issued to it by an acting leader
       for the group whose id it carries, and the inviter still leads that same live group; or
   (2) p is a player for whom an unexpired entry stands in the queue of the group that ch leads, put there by a
       `request` of the run, less than sixty ticks old, of a player with that id for that very group; or
   (3) ch, ungrouped, founds a group of its own.
   Afterwards p has no invitation or request pending and is listed in exactly the group it points to.
   */
  lemma JoinSafety(now: nat, ops: seq<Op>, ch: Addr, arg: string, p: Addr)
    requires Enters(Run(Boot(now), ops), Accept(Run(Boot(now), ops), ch, arg), p)
    ensures var s := Run(Boot(now), ops);
      var t := Accept(s, ch, arg);
      && p in t.chars && ch in s.chars
      && (|| (&& EntersByInvite(s, t, ch, p)
              && var d := s.chars[ch];
              Issued(now, ops, ch, d.inviter, d.inviteGroup, d.inviteExpires) && s.now < d.inviteExpires)
          || EntersAsAsked(now, ops, t, ch, p)
          || FoundsOwn(s, t, ch, p))
      && NothingPending(t.chars[p])
      && t.chars[p].group in t.groups && p in t.groups[t.chars[p].group].members
      && (forall h :: h in t.groups && p in t.groups[h].members ==> h == t.chars[p].group)
  {
    var s := Run(Boot(now), ops);
    var t := Accept(s, ch, arg);
    RunInv(now, ops);
    AcceptInv(s, ch, arg);
    if HasActiveInvite(s, ch) {
      AcceptInviteEntry(s, ch, arg, p);
      InviteProvenance(now, ops, ch);
    } else {
      AcceptRequestEntry(s, ch, arg, p);
      if EntersByRequest(s, t, ch, p) {
        RequestEntryAsked(now, ops, t, ch, p);
      }
    }
    ListedOnce(t, p);
  }
}
