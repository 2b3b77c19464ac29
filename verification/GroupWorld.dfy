/**
 The group code as the game runs it: one object holding the heaps and the global lists, and methods that
 update them in place with the source's loops. Each method is proved to produce exactly the state that
 GroupModel prescribes.
 */
module GroupWorld {
  import opened Lists
  import opened Strings
  import opened GroupModel
  import opened GroupInvariants
  import opened GroupMembership
  import opened GroupCommands
  import opened GroupFollowing
  import opened GroupRuns
  import opened GroupFrames
  import opened GroupFacts
  import opened GroupSteps

  class World {
    var chars: map<Addr, Char>
    var groups: map<Addr, Group>
    var loadedChars: seq<Addr>
    var loadedGroups: seq<Addr>
    var nextGroup: Addr
    var lastPcId: nat
    var now: nat

    ghost function Snapshot(): State
      reads this
    {
      State(chars, groups, loadedChars, loadedGroups, nextGroup, lastPcId, now)
    }

    ghost predicate Valid()
      reads this
    {
      Inv(Snapshot())
    }

    constructor (start: nat)
      ensures Valid() && Snapshot() == Boot(start)
    {
      chars, groups, loadedChars, loadedGroups := map[], map[], [], [];
      nextGroup, lastPcId, now := 1, 0, start;
    }

    // ----- Lookups

    method IdFindPlayer(id: nat) returns (p: Addr)
      ensures p == FindPlayer(Snapshot(), id)
    {
      p := NULL;
      for i := 0 to |loadedChars|
        invariant FindPlayer(Snapshot(), id) == GroupModel.IdFindPlayer(chars, loadedChars[i..], id)
      {
        if loadedChars[i] in chars && !chars[loadedChars[i]].npc && chars[loadedChars[i]].id == id {
          return loadedChars[i];
        }
      }
    }

    method FindGroupById(id: nat) returns (g: Addr)
      ensures g == FindGroup(Snapshot(), id)
    {
      g := NULL;
      for i := 0 to |loadedGroups|
        invariant FindGroup(Snapshot(), id) == FindGroupIn(groups, loadedGroups[i..], id)
      {
        if loadedGroups[i] in groups && groups[loadedGroups[i]].id == id {
          return loadedGroups[i];
        }
      }
    }

    method FindMemberByName(g: Addr, name: string) returns (m: Addr)
      requires g in groups
      ensures m == FindMember(chars, groups[g].members, name)
    {
      m := NULL;
      if name == "" { return; }
      var members := groups[g].members;
      for i := 0 to |members|
        invariant FindMember(chars, members, name) == FindMember(chars, members[i..], name)
      {
        if members[i] in chars && IsPrefix(name, chars[members[i]].name) {
          return members[i];
        }
      }
    }

    method FindRequestById(g: Addr, id: nat) returns (found: bool)
      requires g in groups
      ensures found == HasRequest(groups[g].requests, id)
    {
      found := false;
      var requests := groups[g].requests;
      for i := 0 to |requests|
        invariant forall j :: 0 <= j < i ==> requests[j].requester != id
      {
        if requests[i].requester == id {
          return true;
        }
      }
    }

    method FindRequestByName(g: Addr, name: string) returns (r: Option<Request>)
      requires g in groups
      ensures r == FindRequest(groups[g].requests, name)
    {
      r := None;
      if name == "" { return; }
      var requests := groups[g].requests;
      for i := 0 to |requests|
        invariant FindRequest(requests, name) == FindRequest(requests[i..], name)
      {
        if IsPrefix(name, requests[i].name) {
          return Some(requests[i]);
        }
      }
    }

    // ----- The request queue

    /** group_remove_request_by_id: walk the shrinking list by position. */
    method RemoveRequestById(g: Addr, id: nat)
      modifies this`groups
      ensures Snapshot() == RemoveRequest(old(Snapshot()), g, id)
    {
      if g !in groups { return; }
      var index := 0;
      ghost var s, was, done := Snapshot(), groups[g].requests, 0;
      SieveStart(s, g, id);
      while index < |groups[g].requests|
        invariant done <= |was| && index == |DropRequester(was[..done], id)|
        invariant groups == Sieved(s, g, id, done)
        decreases |groups[g].requests| - index
      {
        var requests := groups[g].requests;
        SieveStep(s, g, id, done);
        if requests[index].requester == id {
          groups := groups[g := groups[g].(requests := requests[..index] + requests[index + 1..])];
        } else {
          index := index + 1;
        }
        done := done + 1;
      }
      SieveEnd(s, g, id, done, index);
    }

    /** Free the expired entry at this position of g's queue, telling its requester if asked to. */
    method DropExpiredAt(g: Addr, index: nat, tell: bool)
      requires g in groups && index < |groups[g].requests|
      modifies this`chars, this`groups
      ensures groups == old(groups)[g := old(groups)[g].(
        requests := old(groups)[g].requests[..index] + old(groups)[g].requests[index + 1..])]
      ensures var p := FindPlayer(old(Snapshot()), old(groups)[g].requests[index].requester);
        chars == if tell && p in old(chars) && old(chars)[p].requestGroup == old(groups)[g].id
                 then old(chars)[p := ClearRequestState(old(chars)[p])] else old(chars)
    {
      var requests := groups[g].requests;
      if tell {
        var requester := IdFindPlayer(requests[index].requester);
        if requester in chars && chars[requester].requestGroup == groups[g].id {
          chars := chars[requester := ClearRequestState(chars[requester])];
        }
      }
      groups := groups[g := groups[g].(requests := requests[..index] + requests[index + 1..])];
    }

    /** One turn of the walk over the queue: the entry is kept and passed, or dropped and its requester told. */
    method SweepOne(g: Addr, index: nat, tell: bool, ghost s: State, ghost done: nat) returns (next: nat)
      requires HeapOk(s) && g in s.groups && done < |s.groups[g].requests| && Snapshot() == s.(chars := chars, groups := groups)
      requires groups == Swept(s, g, done) && index == |Unexpired(s.groups[g].requests[..done], now)|
      requires chars == if tell then Told(s, s.groups[g], s.groups[g].requests[..done]) else s.chars
      modifies this`chars, this`groups
      ensures groups == Swept(s, g, done + 1) && next == |Unexpired(s.groups[g].requests[..done + 1], now)|
      ensures chars == if tell then Told(s, s.groups[g], s.groups[g].requests[..done + 1]) else s.chars
      ensures |groups[g].requests| - next < |old(groups)[g].requests| - index
    {
      SweepStep(s, g, done);
      if groups[g].requests[index].expires > now {
        ToldUnexpired(s, s.groups[g], done);
        next := index + 1;
      } else {
        if tell {
          TellOne(s, s.groups[g], done, Snapshot());
        }
        DropExpiredAt(g, index, tell);
        next := index;
      }
    }

    /** group_remove_expired_requests: the same walk, telling requesters whose own record names this group. */
    method RemoveExpiredRequests(g: Addr, tell: bool)
      requires HeapOk(Snapshot())
      modifies this`chars, this`groups
      ensures Snapshot() == RemoveExpired(old(Snapshot()), g, tell)
    {
      if g !in groups { return; }
      var index := 0;
      ghost var s, grp, done := Snapshot(), groups[g], 0;
      ToldNobody(s, grp);
      SweepStart(s, g);
      assert grp.requests[..0] == [];
      while index < |groups[g].requests|
        invariant done <= |grp.requests| && index == |Unexpired(grp.requests[..done], now)|
        invariant groups == Swept(s, g, done)
        invariant chars == if tell then Told(s, grp, grp.requests[..done]) else s.chars
        decreases |groups[g].requests| - index
      {
        index := SweepOne(g, index, tell, s, done);
        done := done + 1;
      }
      SweepEnd(s, g, tell, done, index);
    }

    // ----- Legacy state

    method ClearLegacy(members: seq<Addr>)
      modifies this`chars
      ensures chars == ClearedUpTo(old(chars), members)
    {
      ghost var was := chars;
      for i := 0 to |members|
        invariant chars == ClearedUpTo(was, members[..i])
      {
        ClearedStep(was, members, i);
        if members[i] in chars {
          chars := chars[members[i] := chars[members[i]].(numGrouped := 0, lgroup := [])];
        }
      }
      assert members[..|members|] == members;
    }

    method OrphanMembers(members: seq<Addr>)
      modifies this`chars
      ensures chars == OrphanedUpTo(old(chars), members)
    {
      ghost var was := chars;
      for i := 0 to |members|
        invariant chars == OrphanedUpTo(was, members[..i])
      {
        OrphanedStep(was, members, i);
        if members[i] in chars {
          chars := chars[members[i] := chars[members[i]].(leader := NULL)];
        }
      }
      assert members[..|members|] == members;
    }

    method LinkMembers(leader: Addr, members: seq<Addr>)
      requires leader in chars && chars[leader].lgroup == []
      requires NoDup(members) && (forall m :: m in members ==> m in chars)
      modifies this`chars
      ensures chars == LinkedUpTo(old(chars), leader, members)
    {
      ghost var was := chars;
      LinkedStart(was, leader);
      chars := chars[leader := chars[leader].(leader := NULL)];
      assert members[..0] == [];
      for i := 0 to |members|
        invariant chars == LinkedUpTo(was, leader, members[..i])
      {
        LinkedStep(was, leader, members, i);
        if members[i] in chars && members[i] != leader {
          chars := chars[members[i] := chars[members[i]].(leader := leader)];
          var head := chars[leader].(numGrouped := chars[leader].numGrouped + 1);
          if members[i] !in head.lgroup {
            head := head.(lgroup := head.lgroup + [members[i]]);
          }
          chars := chars[leader := head];
        }
      }
      assert members[..|members|] == members;
    }

    /** group_sync_legacy_state */
    method SyncLegacyState(g: Addr)
      requires g in groups ==> Roster(Snapshot(), g)
      requires NULL !in chars
      modifies this`chars, this`groups
      ensures Snapshot() == Sync(old(Snapshot()), g)
    {
      if g !in groups { return; }
      var members, leader := groups[g].members, groups[g].leader;
      ClearLegacy(members);
      if !(leader in chars && leader in members) {
        leader := NULL;
      }
      groups := groups[g := groups[g].(leader := leader)];
      if leader == NULL {
        OrphanMembers(members);
        SyncOrphaned(old(Snapshot()), g);
        return;
      }
      LinkMembers(leader, members);
      SyncLinked(old(Snapshot()), g);
    }

    // ----- Disbanding and leaving

    method ReleaseMembers(g: Addr, members: seq<Addr>)
      requires g != NULL
      modifies this`chars
      ensures chars == ReleasedUpTo(old(chars), g, members)
    {
      ghost var was := chars;
      for i := 0 to |members|
        invariant chars == ReleasedUpTo(was, g, members[..i])
      {
        ReleasedStep(was, g, members, i);
        if members[i] in chars && chars[members[i]].group == g {
          chars := chars[members[i] := Ungrouped(chars[members[i]])];
        }
      }
      assert members[..|members|] == members;
    }

    /** Empty a queue from the front, freeing the requesters. */
    method DropRequests(requests: seq<Request>)
      requires HeapOk(Snapshot())
      modifies this`chars
      ensures chars == DroppedUpTo(old(chars), requests)
    {
      ghost var s, done := Snapshot(), 0;
      var left := requests;
      assert requests[0..] == requests && requests[..0] == [];
      while left != []
        invariant done <= |requests| && left == requests[done..]
        invariant chars == DroppedUpTo(s.chars, requests[..done])
        decreases |left|
      {
        DroppedStep(s, requests, done);
        var requester := IdFindPlayer(left[0].requester);
        if requester in chars {
          chars := chars[requester := ClearRequestState(chars[requester])];
        }
        left, done := left[1..], done + 1;
      }
      assert requests[..done] == requests;
    }

    /** group_disband */
    method GroupDisband(g: Addr)
      requires HeapOk(Snapshot())
      modifies this
      ensures Snapshot() == Disband(old(Snapshot()), g)
    {
      if g !in groups { return; }
      ghost var s := Snapshot();
      ReleaseMembers(g, groups[g].members);
      ReleasedHeap(s, g, groups[g].members);
      DropRequests(groups[g].requests);
      DisbandedChars(s, g);
      loadedGroups := Without(loadedGroups, g);
      groups := groups - {g};
    }

    /** The search for a new leader: the first player, and meanwhile the first live member as a fallback. */
    method FindSuccessor(members: seq<Addr>) returns (player: Addr, fallback: Addr)
      requires NULL !in chars
      ensures player == FirstPlayer(chars, members)
      ensures player == NULL ==> fallback == FirstLive(chars, members)
    {
      player, fallback := NULL, NULL;
      for i := 0 to |members|
        invariant FirstPlayer(chars, members) == FirstPlayer(chars, members[i..])
        invariant if fallback == NULL then FirstLive(chars, members) == FirstLive(chars, members[i..])
                  else FirstLive(chars, members) == fallback
      {
        if members[i] in chars {
          if !chars[members[i]].npc {
            player := members[i];
            return;
          }
          if fallback == NULL {
            fallback := members[i];
          }
        }
      }
    }

    /** Who leads a group that has just lost a member, if it has any left. */
    method SettleSuccession(left: Group) returns (grp: Group)
      requires NULL !in chars
      ensures grp == if left.members == [] then left else left.(leader := Successor(chars, left))
    {
      grp := left;
      if left.members != [] && left.leader !in chars {
        var player, fallback := FindSuccessor(left.members);
        FirstPlayerFound(chars, left.members);
        if player in chars {
          grp := left.(leader := player);
        } else if left.allowNpcOnly && left.playerCount < 1 {
          grp := left.(leader := fallback);
        }
      }
    }

    /** Take ch off the list of its group's record, and off the count and the lead. */
    method StrikeOff(grp: Group, ch: Addr, isPlayer: bool) returns (left: Group)
      ensures left == Struck(grp, ch, isPlayer)
    {
      left := grp.(members := Without(grp.members, ch));
      if isPlayer && left.playerCount > 0 {
        left := left.(playerCount := left.playerCount - 1);
      }
      if left.leader == ch {
        left := left.(leader := NULL);
      }
    }

    /** group_remove_member up to its decision: the record is updated and the succession settled. */
    method TakeOffList(ch: Addr)
      requires Valid() && ch in chars && chars[ch].group in groups
      modifies this`chars, this`groups
      ensures Snapshot() == Leaving(old(Snapshot()), ch)
    {
      var g := chars[ch].group;
      LeavingSteps(Snapshot(), ch);
      var grp := StrikeOff(groups[g], ch, !chars[ch].npc);
      chars := chars[ch := ClearRequestState(ClearInviteState(chars[ch])).(group := NULL, leader := NULL)];
      grp := SettleSuccession(grp);
      groups := groups[g := grp];
    }

    /** group_remove_member */
    method GroupRemoveMember(ch: Addr, disbandIfEmpty: bool)
      requires Valid()
      modifies this
      ensures Snapshot() == RemoveMember(old(Snapshot()), ch, disbandIfEmpty)
    {
      if ch !in chars || chars[ch].group !in groups { return; }
      var g := chars[ch].group;
      LeavingInv(Snapshot(), ch);
      TakeOffList(ch);
      assert Roster(Snapshot(), g);
      if groups[g].members == [] {
        if disbandIfEmpty {
          GroupDisband(g);
        }
        return;
      }
      if !groups[g].allowNpcOnly && groups[g].playerCount < 1 {
        GroupDisband(g);
        return;
      }
      SyncLegacyState(g);
    }

    // ----- Joining and founding

    /** The second half of group_add_member: ch, without a group, goes on g's list. */
    method PutOnList(g: Addr, ch: Addr)
      requires InvExcept(Snapshot(), g) && g in groups && ch in chars && chars[ch].group == NULL
      modifies this
      ensures Snapshot() == Sync(Joining(old(Snapshot()), g, ch), g)
    {
      ghost var s := Snapshot();
      var grp, player := groups[g], !chars[ch].npc;
      if ch !in grp.members {
        grp := grp.(members := grp.members + [ch]);
      }
      if player {
        grp := grp.(playerCount := grp.playerCount + 1);
      }
      if player && grp.leader in chars && chars[grp.leader].npc && grp.playerCount > 0 {
        grp := grp.(leader := ch);
      }
      if grp.leader !in chars {
        grp := grp.(leader := ch);
      }
      groups := groups[g := grp];
      chars := chars[ch := ClearRequestState(ClearInviteState(chars[ch])).(group := g)];
      assert Snapshot() == Joining(s, g, ch);
      JoiningGroups(s, g, ch, g);
      SyncLegacyState(g);
    }

    /** group_add_member */
    method GroupAddMember(g: Addr, ch: Addr) returns (ok: bool)
      requires Valid()
      modifies this
      ensures (Snapshot(), ok) == AddMember(old(Snapshot()), g, ch) && Valid()
    {
      ghost var s := Snapshot();
      AddInv(s, g, ch);
      if g !in groups || ch !in chars { return false; }
      if chars[ch].group == g { return true; }
      RemoveInv(s, ch);
      RemoveOthers(s, ch, g);
      if chars[ch].group in groups {
        GroupRemoveMember(ch, true);
      } else {
        assert CharOk(s, ch);
      }
      PutOnList(g, ch);
      ok := true;
    }

    /** Allocate an empty group headed by leader and load it. */
    method AllocGroup(leader: Addr, allowNpcOnly: bool) returns (g: Addr)
      modifies this`groups, this`loadedGroups, this`nextGroup, this`lastPcId
      ensures Snapshot() == Founding(old(Snapshot()), leader, allowNpcOnly) && g == old(nextGroup)
    {
      lastPcId := if now <= lastPcId then lastPcId + 1 else now;
      g := nextGroup;
      nextGroup := nextGroup + 1;
      groups := groups[g := Group(lastPcId, leader, [], [], 0, allowNpcOnly)];
      loadedGroups := loadedGroups + [g];
    }

    /** group_create: the existing group of leader, or a new one. */
    method GroupCreate(leader: Addr, allowNpcOnly: bool) returns (g: Addr)
      requires Valid()
      modifies this
      ensures (Snapshot(), g) == Create(old(Snapshot()), leader, allowNpcOnly)
      ensures leader in old(chars) ==> Valid()
    {
      if leader !in chars { return NULL; }
      CreateInv(Snapshot(), leader, allowNpcOnly);
      if chars[leader].group in groups { return chars[leader].group; }
      CreateUnfolds(Snapshot(), leader, allowNpcOnly);
      FoundingInv(Snapshot(), leader, allowNpcOnly);
      UngroupedIsNull(Snapshot(), leader);
      g := AllocGroup(leader, allowNpcOnly);
      PutOnList(g, leader);
    }

    /** add_grouped */
    method DoAddGrouped(ch: Addr, master: Addr) returns (ok: bool)
      requires Valid()
      modifies this
      ensures (Snapshot(), ok) == AddGrouped(old(Snapshot()), ch, master) && Valid()
    {
      if ch !in chars || master !in chars { return false; }
      if chars[ch].group in groups && chars[ch].group == chars[master].group { return true; }
      CreateInv(Snapshot(), master, chars[master].npc);
      var g := GroupCreate(master, chars[master].npc);
      if chars[master].numGrouped >= FOLLOWER_CAP { return false; }
      ok := GroupAddMember(g, ch);
    }

    /** stop_grouped */
    method DoStopGrouped(ch: Addr)
      requires Valid()
      modifies this
      ensures Snapshot() == StopGrouped(old(Snapshot()), ch) && Valid()
    {
      StopGroupedInv(Snapshot(), ch);
      if ch !in chars { return; }
      if chars[ch].group in groups {
        GroupRemoveMember(ch, true);
        return;
      }
      assert CharOk(Snapshot(), ch);
      if chars[ch].leader != ch && chars[ch].leader != NULL {
        // The arm for a legacy leader without a group: nobody ungrouped has a leader.
        assert false;
      }
      chars := chars[ch := chars[ch].(leader := NULL)];
    }

    /** group_set_leader */
    method GroupSetLeader(g: Addr, n: Addr) returns (ok: bool)
      requires Valid()
      modifies this
      ensures Snapshot() == SetLeader(old(Snapshot()), g, n) && Valid()
    {
      ghost var s := Snapshot();
      SetLeaderInv(s, g, n);
      if g !in groups || n !in chars || chars[n].group != g { return false; }
      if chars[n].npc && (!groups[g].allowNpcOnly || groups[g].playerCount > 0) { return false; }
      groups := groups[g := groups[g].(leader := n)];
      assert Roster(s, g);
      SyncLegacyState(g);
      ok := true;
    }

    /** groups_clear_all: disband the first loaded group until there is none. */
    method GroupsClearAll()
      requires Valid()
      modifies this
      ensures Snapshot() == ClearAll(old(Snapshot())) && Valid()
      ensures groups == map[] && loadedGroups == []
    {
      ghost var s := Snapshot();
      ClearAllEmpties(s);
      while loadedGroups != []
        invariant Valid() && ClearAll(s) == ClearAll(Snapshot())
        decreases |loadedGroups|
      {
        var g := loadedGroups[0];
        assert g in groups;
        DisbandInv(Snapshot(), g);
        assert NoDup(loadedGroups) && loadedGroups == [g] + loadedGroups[1..];
        WithoutAbsent(loadedGroups[1..], g);
        WithoutNoDup(loadedGroups, g);
        GroupDisband(g);
      }
    }

    // ----- Following

    /** add_follower */
    method DoAddFollower(ch: Addr, master: Addr)
      requires Valid() && master in chars
      modifies this
      ensures Snapshot() == AddFollower(old(Snapshot()), ch, master) && Valid()
    {
      if ch !in chars || chars[ch].master != NULL { return; }
      FollowSteps(Snapshot(), ch, master);
      chars := chars[ch := chars[ch].(master := master)];
      DoStopGrouped(ch);
    }

    /** stop_follower */
    method DoStopFollower(ch: Addr)
      requires Valid()
      modifies this
      ensures Snapshot() == StopFollower(old(Snapshot()), ch) && Valid()
    {
      ghost var s := Snapshot();
      if ch !in chars || chars[ch].master == NULL { return; }
      MasterlessInv(s, ch);
      var master := chars[ch].master;
      chars := chars[ch := chars[ch].(charmed := false)];
      if master in chars && chars[master].pet == ch {
        chars := chars[master := chars[master].(pet := NULL)];
      }
      chars := chars[ch := chars[ch].(master := NULL)];
      assert Snapshot() == Masterless(s, ch);
      DoStopGrouped(ch);
    }

    /** die_follower up to its loop. */
    method Detach(ch: Addr)
      requires Valid() && ch in chars
      modifies this
      ensures Snapshot() == DetachSelf(old(Snapshot()), ch) && Valid()
    {
      assert CharOk(Snapshot(), ch);
      var master := chars[ch].master;
      if master != NULL {
        assert CharOk(Snapshot(), master);
        TouchInv(Snapshot(), master, chars[master].(pet := NULL));
        chars := chars[master := chars[master].(pet := NULL)];
        DoStopFollower(ch);
      }
      DoStopGrouped(ch);
    }

    /** One pass of die_follower's loop; its repair branch is dead code. */
    method Release(fch: Addr, ch: Addr)
      requires Valid() && Alone(Snapshot(), ch)
      modifies this
      ensures Snapshot() == ReleaseFollower(old(Snapshot()), fch, ch) && Valid() && Alone(Snapshot(), ch)
    {
      ReleaseFollowerInv(Snapshot(), fch, ch);
      if fch in chars {
        if chars[fch].master == ch {
          DoStopFollower(fch);
        }
        NobodyFollowsLoner(Snapshot(), ch, fch);
        if chars[fch].leader == ch {
          assert false;
        }
      }
    }

    /** die_follower's loop over the loaded characters. */
    method ReleaseAll(ch: Addr)
      requires Valid() && Alone(Snapshot(), ch)
      modifies this
      ensures Snapshot() == ReleaseFollowers(old(Snapshot()), old(loadedChars), ch) && Valid()
    {
      ghost var s := Snapshot();
      var list := loadedChars;
      for i := 0 to |list|
        invariant Valid() && Alone(Snapshot(), ch) && Snapshot() == ReleaseFollowers(s, list[..i], ch)
      {
        ReleaseNext(s, list, i, ch);
        Release(list[i], ch);
      }
      assert list[..|list|] == list;
    }

    /** die_follower: nobody is left with ch as master or leader. */
    method DoDieFollower(ch: Addr)
      requires Valid() && ch in chars
      modifies this
      ensures Snapshot() == DieFollower(old(Snapshot()), ch) && Valid()
      ensures forall c :: c in chars ==> chars[c].master != ch && chars[c].leader != ch
    {
      DieFollowerFrees(Snapshot(), ch);
      DetachSelfInv(Snapshot(), ch);
      Detach(ch);
      ReleaseAll(ch);
    }

    // ----- Questions the commands ask

    /** group_command_leader */
    method CommandLeaderOf(ch: Addr) returns (leader: Addr)
      requires Valid() && ch in chars
      ensures leader == CommandLeader(Snapshot(), ch) && leader in chars
      ensures leader == if chars[ch].group in groups then groups[chars[ch].group].leader else ch
    {
      CommandLeaderMeaning(Snapshot(), ch);
      var c := chars[ch];
      if c.group in groups && groups[c.group].leader in chars { return groups[c.group].leader; }
      if c.leader in chars { return c.leader; }
      leader := ch;
    }

    /** group_actor_is_leader */
    method IsActingLeader(ch: Addr) returns (yes: bool)
      requires Valid()
      ensures yes == ActorIsLeader(Snapshot(), ch)
      ensures yes <==> && ch in chars && chars[ch].master == NULL
                       && (chars[ch].group in groups ==> groups[chars[ch].group].leader == ch)
    {
      ActingLeaderMeaning(Snapshot(), ch);
      if ch !in chars { return false; }
      var leader := CommandLeaderOf(ch);
      yes := leader == ch && chars[ch].master == NULL && (chars[ch].leader == NULL || chars[ch].leader == ch);
    }

    /** is_same_group */
    method SameGroup(a: Addr, b: Addr) returns (same: bool)
      requires Valid() && a in chars && b in chars
      ensures same == IsSameGroup(Snapshot(), a, b)
      ensures same <==> SameParty(Snapshot(), a, b) || MountPair(Snapshot(), a, b)
    {
      SameGroupMeaning(Snapshot(), a, b);
      if a == b { return true; }
      if a == chars[b].mounted || b == chars[a].mounted { return true; }
      if chars[a].group in groups && chars[a].group == chars[b].group { return true; }
      var x, y := a, b;
      if chars[x].leader != NULL { x := chars[x].leader; }
      if chars[y].leader != NULL { y := chars[y].leader; }
      same := x == y;
    }

    method HasInvite(ch: Addr) returns (yes: bool)
      ensures yes == HasActiveInvite(Snapshot(), ch)
    {
      yes := ch in chars && !chars[ch].npc && chars[ch].inviteExpires > now && chars[ch].inviter != 0;
    }

    // ----- The arms of the group command

    method DoPromote(ch: Addr, arg: string)
      requires Valid()
      modifies this
      ensures Snapshot() == Promote(old(Snapshot()), ch, arg) && Valid()
    {
      if arg == "" { return; }
      var leads := IsActingLeader(ch);
      if !leads || chars[ch].group !in groups { return; }
      var target := FindMemberByName(chars[ch].group, arg);
      if target !in chars || target == ch || chars[target].npc { return; }
      var ok := GroupSetLeader(chars[ch].group, target);
    }

    method InviteInto(g: Addr, ch: Addr, victim: Addr)
      requires Valid() && g in groups && ch in chars
      modifies this`chars
      ensures Snapshot() == InviteTo(old(Snapshot()), g, ch, victim)
    {
      if victim !in chars || chars[victim].npc || victim == ch || chars[victim].group in groups { return; }
      var same := SameGroup(victim, ch);
      if same { return; }
      var pending := HasInvite(victim);
      if pending { return; }
      chars := chars[victim := chars[victim].(
        inviter := chars[ch].id, inviteGroup := groups[g].id, inviteExpires := now + PENDING_TTL)];
    }

    method DoInvite(ch: Addr, victim: Addr)
      requires Valid()
      modifies this
      ensures Snapshot() == Invite(old(Snapshot()), ch, victim) && Valid()
    {
      InviteInv(Snapshot(), ch, victim);
      var leads := IsActingLeader(ch);
      if !leads { return; }
      CreateInv(Snapshot(), ch, false);
      var g := GroupCreate(ch, false);
      InviteInto(g, ch, victim);
    }

    method AppendRequest(g: Addr, ch: Addr)
      requires g in groups && ch in chars
      modifies this`chars, this`groups
      ensures Snapshot() == Enqueue(old(Snapshot()), g, ch)
    {
      var entry := Request(chars[ch].id, chars[ch].name, now + PENDING_TTL);
      groups := groups[g := groups[g].(requests := groups[g].requests + [entry])];
      chars := chars[ch := chars[ch].(requestGroup := groups[g].id, requestExpires := entry.expires)];
    }

    method QueueRequest(g: Addr, ch: Addr)
      requires Valid() && g in groups && ch in chars && !chars[ch].npc
      modifies this
      ensures Snapshot() == RequestOf(old(Snapshot()), g, ch) && Valid()
    {
      RequestOfInv(Snapshot(), g, ch);
      if chars[ch].requestExpires > now && chars[ch].requestGroup != 0 && chars[ch].requestGroup != groups[g].id { return; }
      RemoveExpiredRequests(g, false);
      var found := FindRequestById(g, chars[ch].id);
      if found || |groups[g].requests| >= PENDING_MAX { return; }
      AppendRequest(g, ch);
    }

    method DoRequest(ch: Addr, leader: Addr)
      requires Valid()
      modifies this
      ensures Snapshot() == RequestJoin(old(Snapshot()), ch, leader) && Valid()
    {
      if ch !in chars || chars[ch].npc || leader !in chars || chars[leader].npc || leader == ch { return; }
      var leads := IsActingLeader(leader);
      if !leads { return; }
      var same := SameGroup(ch, leader);
      if same { return; }
      CreateInv(Snapshot(), leader, false);
      var g := GroupCreate(leader, false);
      QueueRequest(g, ch);
    }

    method ForgetInvite(ch: Addr)
      requires Valid()
      modifies this`chars
      ensures Snapshot() == ClearInvite(old(Snapshot()), ch) && Valid()
    {
      ClearInviteInv(Snapshot(), ch);
      if ch in chars {
        chars := chars[ch := ClearInviteState(chars[ch])];
      }
    }

    method TakeInvite(ch: Addr, arg: string)
      requires Valid() && ch in chars
      modifies this
      ensures Snapshot() == AcceptInvite(old(Snapshot()), ch, arg) && Valid()
    {
      var inviter := IdFindPlayer(chars[ch].inviter);
      var g := FindGroupById(chars[ch].inviteGroup);
      if arg != "" && (inviter !in chars || !IsPrefix(arg, chars[inviter].name)) { return; }
      var leads := IsActingLeader(inviter);
      if !leads || g !in groups || chars[inviter].group != g {
        ForgetInvite(ch);
        return;
      }
      if chars[ch].group in groups && chars[ch].group != g { return; }
      var same := SameGroup(ch, inviter);
      if !same {
        var ok := DoAddGrouped(ch, inviter);
      }
      ForgetInvite(ch);
    }

    method Settle(g: Addr, id: nat, requester: Addr)
      modifies this
      ensures Snapshot() == ClearInvite(ClearRequest(RemoveRequest(old(Snapshot()), g, id), requester), requester)
    {
      RemoveRequestById(g, id);
      if requester in chars {
        chars := chars[requester := ClearRequestState(chars[requester])];
        chars := chars[requester := ClearInviteState(chars[requester])];
      }
    }

    method Admit(g: Addr, ch: Addr, id: nat)
      requires Valid() && g in groups && ch in chars && chars[ch].group == g
      modifies this
      ensures Snapshot() == AdmitRequester(old(Snapshot()), g, ch, id) && Valid()
    {
      AdmitRequesterInv(Snapshot(), g, ch, id);
      var requester := IdFindPlayer(id);
      if requester !in chars {
        RemoveRequestById(g, id);
        return;
      }
      var ok := DoAddGrouped(requester, ch);
      if ok {
        Settle(g, id, requester);
      }
    }

    method TakeRequest(ch: Addr, arg: string)
      requires Valid()
      modifies this
      ensures Snapshot() == AcceptRequest(old(Snapshot()), ch, arg) && Valid()
    {
      var leads := IsActingLeader(ch);
      if !leads { return; }
      CreateInv(Snapshot(), ch, false);
      var g := GroupCreate(ch, false);
      RemoveExpiredInv(Snapshot(), g, true);
      RemoveExpiredKeepsGroups(Snapshot(), g, true);
      RemoveExpiredRequests(g, true);
      var r := FindRequestByName(g, arg);
      if r.Some? {
        Admit(g, ch, r.value.requester);
      }
    }

    method DoAccept(ch: Addr, arg: string)
      requires Valid()
      modifies this
      ensures Snapshot() == Accept(old(Snapshot()), ch, arg) && Valid()
    {
      if ch !in chars { return; }
      var pending := HasInvite(ch);
      if pending {
        TakeInvite(ch, arg);
      } else if arg != "" {
        TakeRequest(ch, arg);
      }
    }

    method TurnAwayId(g: Addr, id: nat)
      modifies this
      ensures Snapshot() == Reject(old(Snapshot()), g, id)
    {
      var requester := IdFindPlayer(id);
      if requester in chars {
        chars := chars[requester := ClearRequestState(chars[requester])];
      }
      RemoveRequestById(g, id);
    }

    method TurnAway(ch: Addr, arg: string)
      requires Valid()
      modifies this
      ensures Snapshot() == DeclineRequest(old(Snapshot()), ch, arg) && Valid()
    {
      DeclineRequestInv(Snapshot(), ch, arg);
      var leads := IsActingLeader(ch);
      if !leads || chars[ch].group !in groups { return; }
      var g := chars[ch].group;
      RemoveExpiredInv(Snapshot(), g, true);
      RemoveExpiredRequests(g, true);
      var r := FindRequestByName(g, arg);
      if r.Some? {
        TurnAwayId(g, r.value.requester);
      }
    }

    method DoDecline(ch: Addr, arg: string)
      requires Valid()
      modifies this
      ensures Snapshot() == Decline(old(Snapshot()), ch, arg) && Valid()
    {
      if ch !in chars { return; }
      var pending := HasInvite(ch);
      if pending {
        var inviter := IdFindPlayer(chars[ch].inviter);
        if arg != "" && (inviter !in chars || !IsPrefix(arg, chars[inviter].name)) { return; }
        ForgetInvite(ch);
      } else if arg != "" {
        TurnAway(ch, arg);
      }
    }

    method DoShowRequests(ch: Addr, tell: bool)
      requires Valid()
      modifies this
      ensures Snapshot() == ShowRequests(old(Snapshot()), ch, tell) && Valid()
    {
      var leads := IsActingLeader(ch);
      if !leads || chars[ch].group !in groups { return; }
      RemoveExpiredInv(Snapshot(), chars[ch].group, tell);
      RemoveExpiredRequests(chars[ch].group, tell);
    }

    method DropOwnExpired(ch: Addr)
      requires Valid() && ch in chars
      modifies this`chars
      ensures Snapshot() == ExpireOwn(old(Snapshot()), ch) && Valid()
    {
      assert CharOk(Snapshot(), ch);
      TouchInv(Snapshot(), ch, ExpireOwn(Snapshot(), ch).chars[ch]);
      var c := chars[ch];
      if c.inviteExpires > 0 && c.inviteExpires <= now {
        c := ClearInviteState(c);
      }
      if c.requestExpires > 0 && c.requestExpires <= now {
        c := ClearRequestState(c);
      }
      chars := chars[ch := c];
    }

    /** group_pending_update */
    method DoPendingUpdate(ch: Addr)
      requires Valid()
      modifies this
      ensures Snapshot() == PendingUpdate(old(Snapshot()), ch) && Valid()
    {
      if ch !in chars || chars[ch].npc { return; }
      DropOwnExpired(ch);
      DoShowRequests(ch, true);
    }

    method DoToggle(ch: Addr, victim: Addr)
      requires Valid()
      modifies this
      ensures Snapshot() == Toggle(old(Snapshot()), ch, victim) && Valid()
    {
      if ch !in chars || victim !in chars { return; }
      if chars[ch].master != NULL || (chars[ch].leader != NULL && chars[ch].leader != ch) { return; }
      if chars[victim].master != ch && ch != victim { return; }
      if chars[victim].charmed || chars[ch].charmed { return; }
      var same := SameGroup(victim, ch);
      if same && ch != victim {
        DoStopGrouped(victim);
        return;
      }
      if ch == victim { return; }
      var ok := DoAddGrouped(victim, ch);
    }

    // ----- Comings and goings

    method DoLogin(ch: Addr, name: string, npc: bool, id: nat)
      requires Valid()
      modifies this
      ensures Snapshot() == Login(old(Snapshot()), ch, name, npc, id) && Valid()
    {
      LoginInv(Snapshot(), ch, name, npc, id);
      if ch == NULL || ch in chars || id == 0 { return; }
      var online := IdFindPlayer(id);
      if !npc && online != NULL { return; }
      chars := chars[ch := NewChar(name, npc, id)];
      loadedChars := loadedChars + [ch];
    }

    method DoExtract(ch: Addr)
      requires Valid() && ch in chars
      modifies this
      ensures Snapshot() == Extract(old(Snapshot()), ch) && Valid()
    {
      ExtractInv(Snapshot(), ch);
      DoDieFollower(ch);
      chars := chars - {ch};
      loadedChars := Without(loadedChars, ch);
    }

    method DoOutside(op: Op)
      requires Valid() && !ChangesMembers(op) && !ChangesPending(op) && !ChangesFollowing(op)
      modifies this
      ensures Snapshot() == StepOutside(old(Snapshot()), op) && Valid()
    {
      StepInvOutside(Snapshot(), op);
      match op {
        case OpLogin(ch, name, npc, id) => DoLogin(ch, name, npc, id);
        case OpMount(ch, m) => if ch in chars { chars := chars[ch := chars[ch].(mounted := m)]; }
        case OpCharm(ch) => if ch in chars { chars := chars[ch := chars[ch].(charmed := true)]; }
        case OpTick(seconds) => now := now + seconds;
      }
    }

    method DoMembers(op: Op)
      requires Valid() && ChangesMembers(op)
      modifies this
      ensures Snapshot() == StepMembers(old(Snapshot()), op) && Valid()
    {
      StepInvMembership(Snapshot(), op);
      match op {
        case OpCreate(ch, allow) => var g := GroupCreate(ch, allow);
        case OpAddGrouped(ch, master) => var ok := DoAddGrouped(ch, master);
        case OpStopGrouped(ch) => DoStopGrouped(ch);
        case OpDisband(g) => GroupDisband(g);
        case OpClearAll => GroupsClearAll();
        case OpPromote(ch, arg) => DoPromote(ch, arg);
      }
    }

    method DoPending(op: Op)
      requires Valid() && ChangesPending(op)
      modifies this
      ensures Snapshot() == StepPending(old(Snapshot()), op) && Valid()
    {
      match op {
        case OpInvite(ch, victim) => DoInvite(ch, victim);
        case OpRequest(ch, leader) => DoRequest(ch, leader);
        case OpAccept(ch, arg) => DoAccept(ch, arg);
        case OpDecline(ch, arg) => DoDecline(ch, arg);
        case OpShowRequests(ch, tell) => DoShowRequests(ch, tell);
        case OpPendingUpdate(ch) => DoPendingUpdate(ch);
      }
    }

    method DoFollowing(op: Op)
      requires Valid() && ChangesFollowing(op)
      modifies this
      ensures Snapshot() == StepFollowing(old(Snapshot()), op) && Valid()
    {
      match op {
        case OpAddFollower(ch, master) => if master in chars { DoAddFollower(ch, master); }
        case OpStopFollower(ch) => DoStopFollower(ch);
        case OpDieFollower(ch) => if ch in chars { DoDieFollower(ch); }
        case OpToggle(ch, victim) => DoToggle(ch, victim);
        case OpExtract(ch) => if ch in chars { DoExtract(ch); }
      }
    }

    /** Any one operation, in place. */
    method Perform(op: Op)
      requires Valid()
      modifies this
      ensures Snapshot() == Step(old(Snapshot()), op) && Valid()
    {
      if ChangesMembers(op) {
        DoMembers(op);
      } else if ChangesPending(op) {
        DoPending(op);
      } else if ChangesFollowing(op) {
        DoFollowing(op);
      } else {
        DoOutside(op);
      }
    }

    /** A whole run, in place: what GroupTheorems says of runs holds of this object. */
    method PerformAll(ops: seq<Op>)
      requires Valid()
      modifies this
      ensures Snapshot() == Run(old(Snapshot()), ops) && Valid()
    {
      ghost var s := Snapshot();
      for i := 0 to |ops|
        invariant Valid() && Snapshot() == Run(s, ops[..i])
      {
        assert ops[..i + 1][..i] == ops[..i];
        Perform(ops[i]);
      }
      assert ops[..|ops|] == ops;
    }
  }
}
