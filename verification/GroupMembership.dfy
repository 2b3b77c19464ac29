/** Every membership operation keeps the group invariant. */
module GroupMembership {
  import opened Lists
  import opened GroupModel
  import opened GroupInvariants

  /** t and s agree on which characters live, on what they are and on nothing else in particular. */
  ghost predicate SameCast(s: State, t: State) {
    && t.chars.Keys == s.chars.Keys
    && t.loadedChars == s.loadedChars
    && (forall c :: c in s.chars ==> t.chars[c].npc == s.chars[c].npc && t.chars[c].id == s.chars[c].id)
  }

  lemma SameCastIds(s: State, t: State)
    requires SameCast(s, t) && PlayerIdsOk(s.chars)
    ensures PlayerIdsOk(t.chars)
  {
  }

  /** Heap bookkeeping survives when the cast, the group addresses and the group ids are the same. */
  lemma KeepHeap(s: State, t: State)
    requires HeapOk(s) && SameCast(s, t)
    requires t.groups.Keys == s.groups.Keys && (forall g :: g in s.groups ==> t.groups[g].id == s.groups[g].id)
    requires t.loadedGroups == s.loadedGroups && t.nextGroup == s.nextGroup && t.lastPcId == s.lastPcId
    ensures HeapOk(t)
  {
    SameCastIds(s, t);
    assert forall g, h :: g in t.groups && h in t.groups && t.groups[g].id == t.groups[h].id ==>
      s.groups[g].id == s.groups[h].id;
  }

  lemma SameCastLed(s: State, t: State, g: Addr)
    requires SameCast(s, t) && g in s.groups && g in t.groups && Roster(s, g) && Led(s, g)
    requires t.groups[g] == s.groups[g]
    ensures Led(t, g)
  {
    CountSame(s.chars, t.chars, s.groups[g].members);
  }

  lemma RostersDisjoint(s: State, g: Addr, h: Addr)
    requires g in s.groups && h in s.groups && g != h && Roster(s, g) && Roster(s, h)
    ensures forall m :: m in s.groups[h].members ==> m !in s.groups[g].members
  {
  }

  /** Two versions of a character that agree on the group fields. */
  ghost predicate SameStanding(c: Char, d: Char) {
    c.group == d.group && c.leader == d.leader && c.numGrouped == d.numGrouped && c.lgroup == d.lgroup
  }

  /** A group whose record and whose members' group fields are untouched keeps everything it had. */
  lemma KeepGroup(s: State, t: State, h: Addr)
    requires SameCast(s, t) && h in s.groups && h in t.groups && t.groups[h] == s.groups[h]
    requires Roster(s, h) && QueueOk(s, h) && Led(s, h) && LegacyOk(s, h)
    requires forall m :: m in s.groups[h].members ==> SameStanding(s.chars[m], t.chars[m])
    ensures Roster(t, h) && QueueOk(t, h) && Led(t, h) && LegacyOk(t, h)
  {
    SameCastLed(s, t, h);
    forall m | m in t.groups[h].members && m in t.chars
      ensures t.chars[m] == LegacyOf(t.groups[h], t.groups[h].leader, m, t.chars[m])
    {
      assert SameStanding(s.chars[m], t.chars[m]);
    }
  }

  // ----- Sync

  lemma SyncChars(s: State, g: Addr)
    requires g in s.groups && Led(s, g) && Roster(s, g)
    ensures Sync(s, g).groups == s.groups && SameCast(s, Sync(s, g))
    ensures Sync(s, g) == s.(chars := Sync(s, g).chars)
    ensures forall c :: c in s.chars ==>
      Sync(s, g).chars[c] == if c in s.groups[g].members then LegacyOf(s.groups[g], s.groups[g].leader, c, s.chars[c])
                             else s.chars[c]
  {
    assert EffectiveLeader(s, s.groups[g]) == s.groups[g].leader;
  }

  lemma SyncGroups(s: State, g: Addr, h: Addr)
    requires InvExcept(s, g) && g in s.groups && Led(s, g) && h in s.groups
    ensures h in Sync(s, g).groups && Roster(Sync(s, g), h) && QueueOk(Sync(s, g), h)
    ensures Led(Sync(s, g), h) && LegacyOk(Sync(s, g), h)
  {
    SyncChars(s, g);
    if h == g {
      SameCastLed(s, Sync(s, g), g);
    } else {
      RostersDisjoint(s, g, h);
      KeepGroup(s, Sync(s, g), h);
    }
  }

  lemma SyncCharOk(s: State, g: Addr, c: Addr)
    requires InvExcept(s, g) && g in s.groups && Led(s, g) && c in s.chars
    ensures c in Sync(s, g).chars && CharOk(Sync(s, g), c)
  {
    SyncChars(s, g);
    assert CharOk(s, c);
  }

  lemma SyncInv(s: State, g: Addr)
    requires InvExcept(s, g) && g in s.groups && Led(s, g)
    ensures Inv(Sync(s, g)) && SameCast(s, Sync(s, g))
  {
    var t := Sync(s, g);
    SyncChars(s, g);
    SameCastIds(s, t);
    forall h | h in t.groups
      ensures Roster(t, h) && QueueOk(t, h) && Led(t, h) && LegacyOk(t, h)
    {
      SyncGroups(s, g, h);
    }
    forall c | c in t.chars
      ensures CharOk(t, c)
    {
      SyncCharOk(s, g, c);
    }
  }

  // ----- Disband

  lemma DisbandCharStanding(grp: Group, g: Addr, addr: Addr, c: Char)
    ensures DisbandChar(grp, g, addr, c).npc == c.npc && DisbandChar(grp, g, addr, c).id == c.id
    ensures addr !in grp.members ==> SameStanding(c, DisbandChar(grp, g, addr, c))
  {
  }

  lemma DisbandCast(s: State, g: Addr)
    requires g in s.groups
    ensures SameCast(s, Disband(s, g))
    ensures forall c :: c in s.chars && c !in s.groups[g].members ==> SameStanding(s.chars[c], Disband(s, g).chars[c])
  {
    forall c | c in s.chars
      ensures Disband(s, g).chars[c].npc == s.chars[c].npc && Disband(s, g).chars[c].id == s.chars[c].id
      ensures c !in s.groups[g].members ==> SameStanding(s.chars[c], Disband(s, g).chars[c])
    {
      DisbandCharStanding(s.groups[g], g, c, s.chars[c]);
    }
  }

  lemma DisbandGroups(s: State, g: Addr, h: Addr)
    requires InvExcept(s, g) && g in s.groups && h in s.groups && h != g
    ensures h in Disband(s, g).groups && Roster(Disband(s, g), h) && QueueOk(Disband(s, g), h)
    ensures Led(Disband(s, g), h) && LegacyOk(Disband(s, g), h)
  {
    DisbandCast(s, g);
    RostersDisjoint(s, g, h);
    KeepGroup(s, Disband(s, g), h);
  }

  lemma DisbandCharOk(s: State, g: Addr, c: Addr)
    requires InvExcept(s, g) && g in s.groups && c in s.chars
    ensures CharOk(Disband(s, g), c)
  {
    var t := Disband(s, g);
    var ch, ch' := s.chars[c], t.chars[c];
    assert CharOk(s, c);
    if !ch'.npc && ch'.requestExpires > t.now {
      var q :| q in s.groups && s.groups[q].id == ch.requestGroup && HasEntry(s.groups[q].requests, ch.id, ch.requestExpires);
      assert q in t.groups && t.groups[q] == s.groups[q];
    }
  }

  lemma DisbandInv(s: State, g: Addr)
    requires InvExcept(s, g) && g in s.groups
    ensures Inv(Disband(s, g)) && SameCast(s, Disband(s, g))
  {
    var t := Disband(s, g);
    WithoutNoDup(s.loadedGroups, g);
    DisbandCast(s, g);
    SameCastIds(s, t);
    forall h | h in t.groups
      ensures Roster(t, h) && QueueOk(t, h) && Led(t, h) && LegacyOk(t, h)
    {
      DisbandGroups(s, g, h);
    }
    forall c | c in t.chars
      ensures CharOk(t, c)
    {
      DisbandCharOk(s, g, c);
    }
  }

  // ----- Leaving

  /** Every queue of s is still there in t. */
  ghost predicate QueuesKept(s: State, t: State) {
    forall g :: g in s.groups ==> g in t.groups && t.groups[g].id == s.groups[g].id && t.groups[g].requests == s.groups[g].requests
  }

  lemma KeepQueued(s: State, t: State, groupId: nat, id: nat, expires: nat)
    requires QueuesKept(s, t) && Queued(s, groupId, id, expires)
    ensures Queued(t, groupId, id, expires)
  {
    var g :| g in s.groups && s.groups[g].id == groupId && HasEntry(s.groups[g].requests, id, expires);
    assert g in t.groups;
  }

  /** Succession: with an exact count, some member can lead unless the group must go. */
  lemma SuccessorLeads(chars: map<Addr, Char>, grp: Group)
    requires NULL !in chars && grp.members != [] && (forall m :: m in grp.members ==> m in chars)
    requires grp.playerCount == PlayerCount(chars, grp.members)
    requires grp.leader in chars ==> grp.leader in grp.members && (chars[grp.leader].npc ==> grp.playerCount == 0)
    requires grp.allowNpcOnly || grp.playerCount >= 1
    ensures Successor(chars, grp) in grp.members
    ensures chars[Successor(chars, grp)].npc ==> grp.playerCount == 0
  {
    FirstPlayerFound(chars, grp.members);
    assert grp.members[0] in chars;
    assert FirstLive(chars, grp.members) == grp.members[0];
  }

  /** The state after the departure, before the group is synchronised or disbanded. */
  function Leaving(s: State, ch: Addr): State
    requires ch in s.chars && s.chars[ch].group in s.groups
  {
    var g := s.chars[ch].group;
    SetGroup(SetChar(s, ch, Departed(s.chars[ch])), g, WithoutMember(s.chars, s.groups[g], ch))
  }

  lemma LeavingGroups(s: State, ch: Addr, h: Addr)
    requires Inv(s) && ch in s.chars && s.chars[ch].group in s.groups && h in s.groups
    ensures Roster(Leaving(s, ch), h) && QueueOk(Leaving(s, ch), h)
    ensures h != s.chars[ch].group ==> Led(Leaving(s, ch), h) && LegacyOk(Leaving(s, ch), h)
  {
    var g := s.chars[ch].group;
    assert CharOk(s, ch) && Roster(s, g);
    if h == g {
      WithoutNoDup(s.groups[g].members, ch);
    } else {
      RostersDisjoint(s, g, h);
      KeepGroup(s, Leaving(s, ch), h);
    }
  }

  lemma LeavingCharOk(s: State, ch: Addr, c: Addr)
    requires Inv(s) && ch in s.chars && s.chars[ch].group in s.groups && c in s.chars
    ensures CharOk(Leaving(s, ch), c)
  {
    var t := Leaving(s, ch);
    assert CharOk(s, c) && QueuesKept(s, t);
    if c != ch && !s.chars[c].npc && s.chars[c].requestExpires > s.now {
      KeepQueued(s, t, s.chars[c].requestGroup, s.chars[c].id, s.chars[c].requestExpires);
    }
  }

  lemma LeavingInv(s: State, ch: Addr)
    requires Inv(s) && ch in s.chars && s.chars[ch].group in s.groups
    ensures InvExcept(Leaving(s, ch), s.chars[ch].group) && SameCast(s, Leaving(s, ch))
  {
    var t := Leaving(s, ch);
    KeepHeap(s, t);
    forall h | h in t.groups
      ensures Roster(t, h) && QueueOk(t, h) && (h != s.chars[ch].group ==> Led(t, h) && LegacyOk(t, h))
    {
      LeavingGroups(s, ch, h);
    }
    forall c | c in t.chars
      ensures CharOk(t, c)
    {
      LeavingCharOk(s, ch, c);
    }
  }

  lemma LeavingLed(s: State, ch: Addr)
    requires Inv(s) && ch in s.chars && s.chars[ch].group in s.groups
    requires var grp := WithoutMember(s.chars, s.groups[s.chars[ch].group], ch);
      grp.members != [] && (grp.allowNpcOnly || grp.playerCount >= 1)
    ensures Led(Leaving(s, ch), s.chars[ch].group)
  {
    var g := s.chars[ch].group;
    var old', t := s.groups[g], Leaving(s, ch);
    assert CharOk(s, ch) && Roster(s, g) && Led(s, g);
    CountWithout(s.chars, old'.members, ch);
    WithoutNoDup(old'.members, ch);
    var left := old'.(
      members := Without(old'.members, ch),
      playerCount := if !s.chars[ch].npc && old'.playerCount > 0 then old'.playerCount - 1 else old'.playerCount,
      leader := if old'.leader == ch then NULL else old'.leader);
    SuccessorLeads(s.chars, left);
    CountSame(s.chars, t.chars, left.members);
  }

  /** group_remove_member, unfolded: the departure, then synchronise or disband. */
  lemma RemoveUnfolds(s: State, ch: Addr)
    requires ch in s.chars && s.chars[ch].group in s.groups
    ensures var g, t := s.chars[ch].group, Leaving(s, ch);
      RemoveMember(s, ch, true)
        == if t.groups[g].members != [] && (t.groups[g].allowNpcOnly || t.groups[g].playerCount >= 1)
           then Sync(t, g) else Disband(t, g)
  {
  }

  lemma RemovedHasNoGroup(s: State, ch: Addr)
    requires Inv(s) && ch in s.chars
    ensures ch in RemoveMember(s, ch, true).chars && RemoveMember(s, ch, true).chars[ch].group == NULL
  {
    assert CharOk(s, ch);
    if s.chars[ch].group in s.groups {
      RemoveUnfolds(s, ch);
      assert Leaving(s, ch).chars[ch].group == NULL;
    }
  }

  lemma RemoveInv(s: State, ch: Addr)
    requires Inv(s)
    ensures Inv(RemoveMember(s, ch, true)) && SameCast(s, RemoveMember(s, ch, true))
    ensures ch in s.chars ==> RemoveMember(s, ch, true).chars[ch].group == NULL
  {
    if ch in s.chars {
      RemovedHasNoGroup(s, ch);
      if s.chars[ch].group in s.groups {
        var g := s.chars[ch].group;
        var t := Leaving(s, ch);
        RemoveUnfolds(s, ch);
        LeavingInv(s, ch);
        if t.groups[g].members != [] && (t.groups[g].allowNpcOnly || t.groups[g].playerCount >= 1) {
          LeavingLed(s, ch);
          SyncInv(t, g);
        } else {
          DisbandInv(t, g);
        }
      }
    }
  }

  // ----- Joining

  /** The state after ch is on the list, before the group is synchronised. */
  function Joining(s: State, g: Addr, ch: Addr): State
    requires ch in s.chars && g in s.groups
  {
    SetChar(SetGroup(s, g, WithMember(s, s.groups[g], ch)), ch, Joined(s.chars[ch], g))
  }

  /** g is led, or it is the empty group that ch is about to found. */
  ghost predicate Joinable(s: State, g: Addr, ch: Addr)
    requires g in s.groups
  {
    Led(s, g) || (s.groups[g].members == [] && s.groups[g].leader == ch && s.groups[g].playerCount == 0)
  }

  lemma JoiningGroups(s: State, g: Addr, ch: Addr, h: Addr)
    requires InvExcept(s, g) && g in s.groups && ch in s.chars && s.chars[ch].group == NULL && h in s.groups
    ensures Roster(Joining(s, g, ch), h) && QueueOk(Joining(s, g, ch), h)
    ensures h != g ==> Led(Joining(s, g, ch), h) && LegacyOk(Joining(s, g, ch), h)
  {
    assert Roster(s, g) && Roster(s, h) && QueueOk(s, h);
    assert ch !in s.groups[h].members && ch !in s.groups[g].members;
    if h == g {
      NoDupAppend(s.groups[g].members, ch);
    } else {
      KeepGroup(s, Joining(s, g, ch), h);
    }
  }

  lemma JoiningCharOk(s: State, g: Addr, ch: Addr, c: Addr)
    requires InvExcept(s, g) && g in s.groups && g != NULL && ch in s.chars && s.chars[ch].group == NULL && c in s.chars
    ensures CharOk(Joining(s, g, ch), c)
  {
    var t := Joining(s, g, ch);
    assert CharOk(s, c) && QueuesKept(s, t);
    if c != ch && !s.chars[c].npc && s.chars[c].requestExpires > s.now {
      KeepQueued(s, t, s.chars[c].requestGroup, s.chars[c].id, s.chars[c].requestExpires);
    }
  }

  lemma JoiningLed(s: State, g: Addr, ch: Addr)
    requires InvExcept(s, g) && g in s.groups && ch in s.chars && s.chars[ch].group == NULL
    requires Joinable(s, g, ch)
    ensures Led(Joining(s, g, ch), g)
  {
    var t := Joining(s, g, ch);
    var members := s.groups[g].members;
    assert Roster(s, g);
    assert ch !in members;
    CountAppend(s.chars, members, ch);
    CountSame(s.chars, t.chars, members + [ch]);
  }

  lemma JoiningExcept(s: State, g: Addr, ch: Addr)
    requires InvExcept(s, g) && g in s.groups && g != NULL && ch in s.chars && s.chars[ch].group == NULL
    ensures InvExcept(Joining(s, g, ch), g) && SameCast(s, Joining(s, g, ch))
  {
    var t := Joining(s, g, ch);
    KeepHeap(s, t);
    forall h | h in t.groups
      ensures Roster(t, h) && QueueOk(t, h) && (h != g ==> Led(t, h) && LegacyOk(t, h))
    {
      JoiningGroups(s, g, ch, h);
    }
    forall c | c in t.chars
      ensures CharOk(t, c)
    {
      JoiningCharOk(s, g, ch, c);
    }
  }

  lemma JoiningInv(s: State, g: Addr, ch: Addr)
    requires InvExcept(s, g) && g in s.groups && g != NULL && ch in s.chars && s.chars[ch].group == NULL
    requires Joinable(s, g, ch)
    ensures Inv(Sync(Joining(s, g, ch), g)) && SameCast(s, Sync(Joining(s, g, ch), g))
    ensures Sync(Joining(s, g, ch), g).chars[ch].group == g
    ensures g in Sync(Joining(s, g, ch), g).groups
  {
    JoiningExcept(s, g, ch);
    JoiningLed(s, g, ch);
    SyncInv(Joining(s, g, ch), g);
  }

  /** A group other than the one ch leaves is untouched by the departure. */
  lemma RemoveOthers(s: State, ch: Addr, h: Addr)
    requires Inv(s) && ch in s.chars && h in s.groups && h != s.chars[ch].group
    ensures h in RemoveMember(s, ch, true).groups && RemoveMember(s, ch, true).groups[h] == s.groups[h]
  {
  }

  lemma AddInv(s: State, g: Addr, ch: Addr)
    requires Inv(s)
    ensures Inv(AddMember(s, g, ch).0) && SameCast(s, AddMember(s, g, ch).0)
    ensures AddMember(s, g, ch).1 == (g in s.groups && ch in s.chars)
    ensures AddMember(s, g, ch).1 ==> AddMember(s, g, ch).0.chars[ch].group == g && g in AddMember(s, g, ch).0.groups
  {
    if g in s.groups && ch in s.chars && s.chars[ch].group != g {
      var s1 := if s.chars[ch].group in s.groups then RemoveMember(s, ch, true) else s;
      assert CharOk(s, ch);
      RemoveInv(s, ch);
      RemoveOthers(s, ch, g);
      assert s1 == RemoveMember(s, ch, true);
      assert Led(s1, g);
      JoiningInv(s1, g, ch);
    }
  }

  // ----- Founding

  /** The state with the new, still empty group. */
  function Founding(s: State, leader: Addr, allowNpcOnly: bool): State {
    s.(groups := s.groups[s.nextGroup := Group(PcId(s), leader, [], [], 0, allowNpcOnly)],
       loadedGroups := s.loadedGroups + [s.nextGroup],
       nextGroup := s.nextGroup + 1,
       lastPcId := PcId(s))
  }

  lemma FoundingInv(s: State, leader: Addr, allowNpcOnly: bool)
    requires Inv(s) && leader in s.chars && s.chars[leader].group !in s.groups
    ensures InvExcept(Founding(s, leader, allowNpcOnly), s.nextGroup)
    ensures s.nextGroup !in s.groups
  {
    var g, t := s.nextGroup, Founding(s, leader, allowNpcOnly);
    assert g !in s.groups;
    NoDupAppend(s.loadedGroups, g);
    assert t.groups.Keys == s.groups.Keys + {g};
    assert GroupIdsOk(t.groups, t.nextGroup, t.lastPcId);
    forall h | h in t.groups
      ensures Roster(t, h) && QueueOk(t, h) && (h != g ==> Led(t, h) && LegacyOk(t, h))
    {
      if h != g {
        KeepGroup(s, t, h);
      }
    }
    forall c | c in t.chars
      ensures CharOk(t, c)
    {
      assert CharOk(s, c);
      if !s.chars[c].npc && s.chars[c].requestExpires > s.now {
        KeepQueued(s, t, s.chars[c].requestGroup, s.chars[c].id, s.chars[c].requestExpires);
      }
    }
  }

  lemma CreateInv(s: State, leader: Addr, allowNpcOnly: bool)
    requires Inv(s) && leader in s.chars
    ensures var (t, g) := Create(s, leader, allowNpcOnly);
      Inv(t) && SameCast(s, t) && g in t.groups && t.chars[leader].group == g
  {
    assert CharOk(s, leader);
    if s.chars[leader].group !in s.groups {
      FoundingInv(s, leader, allowNpcOnly);
      JoiningInv(Founding(s, leader, allowNpcOnly), s.nextGroup, leader);
    }
  }

  lemma AddGroupedInv(s: State, ch: Addr, master: Addr)
    requires Inv(s)
    ensures var (t, ok) := AddGrouped(s, ch, master);
      && Inv(t) && SameCast(s, t)
      && (ok ==> ch in t.chars && master in t.chars && t.chars[ch].group != NULL)
  {
    if ch in s.chars && master in s.chars {
      if s.chars[ch].group in s.groups && s.chars[ch].group == s.chars[master].group {
        assert AddGrouped(s, ch, master) == (s, true);
      } else {
        CreateInv(s, master, s.chars[master].npc);
        var (s1, g) := Create(s, master, s.chars[master].npc);
        if s1.chars[master].numGrouped >= FOLLOWER_CAP {
          assert AddGrouped(s, ch, master) == (s1, false);
        } else {
          AddInv(s1, g, ch);
          assert AddGrouped(s, ch, master) == AddMember(s1, g, ch);
        }
      }
    }
  }

  lemma StopGroupedInv(s: State, ch: Addr)
    requires Inv(s)
    ensures Inv(StopGrouped(s, ch)) && SameCast(s, StopGrouped(s, ch))
    ensures StopGrouped(s, ch) == RemoveMember(s, ch, true)
    ensures ch in s.chars ==> StopGrouped(s, ch).chars[ch].group == NULL
  {
    RemoveInv(s, ch);
    if ch in s.chars && s.chars[ch].group !in s.groups {
      assert CharOk(s, ch);
      assert s.chars[ch].(leader := NULL) == s.chars[ch];
      assert s.chars[ch := s.chars[ch]] == s.chars;
    }
  }

  /** The state with the new leader written, before the group is synchronised. */
  function Crowned(s: State, g: Addr, n: Addr): State
    requires g in s.groups
  {
    SetGroup(s, g, s.groups[g].(leader := n))
  }

  lemma CrownedGroups(s: State, g: Addr, n: Addr, h: Addr)
    requires Inv(s) && g in s.groups && n in s.groups[g].members && h in s.groups
    requires n in s.chars && (s.chars[n].npc ==> s.groups[g].playerCount <= 0)
    ensures Roster(Crowned(s, g, n), h) && QueueOk(Crowned(s, g, n), h) && Led(Crowned(s, g, n), h)
    ensures h != g ==> LegacyOk(Crowned(s, g, n), h)
  {
    assert Roster(s, h) && QueueOk(s, h) && Led(s, h);
    if h != g {
      KeepGroup(s, Crowned(s, g, n), h);
    }
  }

  lemma CrownedCharOk(s: State, g: Addr, n: Addr, c: Addr)
    requires Inv(s) && g in s.groups && c in s.chars
    ensures CharOk(Crowned(s, g, n), c)
  {
    var t := Crowned(s, g, n);
    assert CharOk(s, c) && QueuesKept(s, t);
    if !s.chars[c].npc && s.chars[c].requestExpires > s.now {
      KeepQueued(s, t, s.chars[c].requestGroup, s.chars[c].id, s.chars[c].requestExpires);
    }
  }

  lemma CrownedInv(s: State, g: Addr, n: Addr)
    requires Inv(s) && g in s.groups && n in s.groups[g].members
    requires n in s.chars && (s.chars[n].npc ==> s.groups[g].playerCount <= 0)
    ensures InvExcept(Crowned(s, g, n), g) && Led(Crowned(s, g, n), g)
  {
    var t := Crowned(s, g, n);
    KeepHeap(s, t);
    forall h | h in t.groups
      ensures Roster(t, h) && QueueOk(t, h) && Led(t, h) && (h != g ==> LegacyOk(t, h))
    {
      CrownedGroups(s, g, n, h);
    }
    forall c | c in t.chars
      ensures CharOk(t, c)
    {
      CrownedCharOk(s, g, n, c);
    }
  }

  lemma SetLeaderInv(s: State, g: Addr, n: Addr)
    requires Inv(s)
    ensures Inv(SetLeader(s, g, n)) && SameCast(s, SetLeader(s, g, n))
  {
    var t := SetLeader(s, g, n);
    if t != s {
      assert CharOk(s, n);
      CrownedInv(s, g, n);
      SyncInv(Crowned(s, g, n), g);
      assert t == Sync(Crowned(s, g, n), g);
    }
  }
}
