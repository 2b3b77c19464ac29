/** What the operations leave alone: invitations are only ever dropped, groups only grow by the one who joins. */
module GroupFrames {
  import opened GroupModel
  import opened GroupInvariants
  import opened GroupMembership
  import opened GroupFollowing

  function InviteOf(c: Char): (nat, nat, nat) {
    (c.inviter, c.inviteGroup, c.inviteExpires)
  }

  /** Every invitation pending in t was already pending, unchanged, in s. */
  ghost predicate InvitesFade(s: State, t: State) {
    forall c :: c in t.chars && !t.chars[c].npc && t.chars[c].inviteExpires > 0 ==>
      c in s.chars && !s.chars[c].npc && InviteOf(s.chars[c]) == InviteOf(t.chars[c])
  }

  /** Every group of t is a group of s with no more members. */
  ghost predicate GroupsShrink(s: State, t: State) {
    forall g :: g in t.groups ==> g in s.groups && |t.groups[g].members| <= |s.groups[g].members|
  }

  ghost predicate Quiet(s: State, t: State) {
    InvitesFade(s, t) && GroupsShrink(s, t)
  }

  lemma InvitesFadeTrans(s: State, t: State, u: State)
    requires InvitesFade(s, t) && InvitesFade(t, u)
    ensures InvitesFade(s, u)
  {
  }

  lemma QuietTrans(s: State, t: State, u: State)
    requires Quiet(s, t) && Quiet(t, u)
    ensures Quiet(s, u)
  {
  }

  // ----- Leaving

  lemma SyncQuiet(s: State, g: Addr)
    ensures Quiet(s, Sync(s, g))
    ensures g in s.groups ==> Sync(s, g).groups[g].members == s.groups[g].members
    ensures Sync(s, g).groups.Keys == s.groups.Keys
  {
  }

  lemma DisbandQuiet(s: State, g: Addr)
    ensures Quiet(s, Disband(s, g))
  {
    if g in s.groups {
      var t := Disband(s, g);
      forall c | c in t.chars && !t.chars[c].npc && t.chars[c].inviteExpires > 0
        ensures c in s.chars && !s.chars[c].npc && InviteOf(s.chars[c]) == InviteOf(t.chars[c])
      {
        assert t.chars[c] == DisbandChar(s.groups[g], g, c, s.chars[c]);
      }
    }
  }

  lemma RemoveQuiet(s: State, ch: Addr)
    ensures Quiet(s, RemoveMember(s, ch, true))
  {
    if ch in s.chars && s.chars[ch].group in s.groups {
      var g, t, u := s.chars[ch].group, Leaving(s, ch), RemoveMember(s, ch, true);
      assert u == Disband(t, g) || u == Sync(t, g);
      assert Quiet(s, t);
      DisbandQuiet(t, g);
      SyncQuiet(t, g);
      QuietTrans(s, t, u);
    }
  }

  // ----- Joining

  /** Nobody outside `who` enters a group between s and t. */
  ghost predicate OnlyEnter(s: State, t: State, who: set<Addr>) {
    forall c :: c in t.chars && c !in who ==> c in s.chars && (t.chars[c].group == s.chars[c].group || t.chars[c].group == NULL)
  }

  lemma OnlyEnterTrans(s: State, t: State, u: State, who: set<Addr>)
    requires OnlyEnter(s, t, who) && OnlyEnter(t, u, who)
    ensures OnlyEnter(s, u, who)
  {
  }

  /** The pending state group_add_member clears. */
  ghost predicate NothingPending(c: Char) {
    c.npc || (c.inviteExpires == 0 && c.inviter == 0 && c.inviteGroup == 0 && c.requestExpires == 0 && c.requestGroup == 0)
  }

  lemma JoiningGroupsFrame(s: State, g: Addr, ch: Addr)
    requires g in s.groups && ch in s.chars
    ensures var t := Sync(Joining(s, g, ch), g);
      && t.groups.Keys == s.groups.Keys
      && (forall h :: h in s.groups && h != g ==> t.groups[h] == s.groups[h])
      && (ch !in s.groups[g].members ==> |t.groups[g].members| == |s.groups[g].members| + 1)
  {
    SyncQuiet(Joining(s, g, ch), g);
  }

  lemma JoiningStays(s: State, g: Addr, ch: Addr)
    requires g in s.groups && ch in s.chars
    ensures InvitesFade(s, Joining(s, g, ch)) && OnlyEnter(s, Joining(s, g, ch), {ch})
    ensures NothingPending(Joining(s, g, ch).chars[ch])
  {
  }

  lemma SyncStays(s: State, g: Addr)
    ensures forall c :: c in s.chars ==>
      c in Sync(s, g).chars && Sync(s, g).chars[c].group == s.chars[c].group
      && (NothingPending(s.chars[c]) ==> NothingPending(Sync(s, g).chars[c]))
  {
  }

  lemma JoiningFrame(s: State, g: Addr, ch: Addr)
    requires g in s.groups && ch in s.chars
    ensures var t := Sync(Joining(s, g, ch), g);
      InvitesFade(s, t) && OnlyEnter(s, t, {ch}) && NothingPending(t.chars[ch])
  {
    var s1 := Joining(s, g, ch);
    JoiningStays(s, g, ch);
    SyncQuiet(s1, g);
    SyncStays(s1, g);
    InvitesFadeTrans(s, s1, Sync(s1, g));
  }

  lemma AddFrame(s: State, g: Addr, ch: Addr)
    requires Inv(s) && g in s.groups && ch in s.chars && s.chars[ch].group != g
    ensures var t := AddMember(s, g, ch).0;
      && InvitesFade(s, t) && OnlyEnter(s, t, {ch})
      && (forall h :: h in t.groups && h != g ==> h in s.groups && |t.groups[h].members| <= |s.groups[h].members|)
      && g in t.groups && |t.groups[g].members| == |s.groups[g].members| + 1
      && NothingPending(t.chars[ch])
  {
    var s1 := RemoveMember(s, ch, true);
    RemoveInv(s, ch);
    RemoveOthers(s, ch, g);
    RemoveQuiet(s, ch);
    RemoveOnlyLeaves(s, ch);
    assert Roster(s1, g);
    JoiningFrame(s1, g, ch);
    JoiningGroupsFrame(s1, g, ch);
    var t := AddMember(s, g, ch).0;
    assert t == Sync(Joining(s1, g, ch), g);
    InvitesFadeTrans(s, s1, t);
    assert OnlyEnter(s, s1, {ch});
    OnlyEnterTrans(s, s1, t, {ch});
  }

  /** group_create, unfolded for a leader without a group. */
  lemma CreateUnfolds(s: State, leader: Addr, allowNpcOnly: bool)
    requires Inv(s) && leader in s.chars && s.chars[leader].group !in s.groups
    ensures s.nextGroup !in s.groups && leader != NULL
    ensures Create(s, leader, allowNpcOnly)
         == (Sync(Joining(Founding(s, leader, allowNpcOnly), s.nextGroup, leader), s.nextGroup), s.nextGroup)
  {
    FoundingInv(s, leader, allowNpcOnly);
    assert CharOk(s, leader);
  }

  /** The new group: just its founder, leading, nobody waiting. */
  lemma FoundedGroup(s: State, leader: Addr, allowNpcOnly: bool)
    requires Inv(s) && leader in s.chars && s.chars[leader].group !in s.groups
    ensures var (t, g) := Create(s, leader, allowNpcOnly);
      && g !in s.groups && t.groups.Keys == s.groups.Keys + {g}
      && (forall h :: h in s.groups ==> t.groups[h] == s.groups[h])
      && t.groups[g].members == [leader] && t.groups[g].leader == leader && t.groups[g].requests == []
      && t.groups[g].allowNpcOnly == allowNpcOnly
  {
    CreateUnfolds(s, leader, allowNpcOnly);
    FoundedSync(Joining(Founding(s, leader, allowNpcOnly), s.nextGroup, leader), s.nextGroup, leader);
  }

  lemma FoundedSync(s: State, g: Addr, leader: Addr)
    requires g in s.groups && s.groups[g].members == [leader] && s.groups[g].leader == leader && leader in s.chars
    ensures var t := Sync(s, g);
      && t.groups.Keys == s.groups.Keys && (forall h :: h in s.groups && h != g ==> t.groups[h] == s.groups[h])
      && t.groups[g] == s.groups[g]
  {
    assert EffectiveLeader(s, s.groups[g]) == leader;
  }

  lemma FoundedChars(s: State, leader: Addr, allowNpcOnly: bool)
    requires Inv(s) && leader in s.chars && s.chars[leader].group !in s.groups
    ensures InvitesFade(s, Create(s, leader, allowNpcOnly).0) && OnlyEnter(s, Create(s, leader, allowNpcOnly).0, {leader})
  {
    var s1, g := Founding(s, leader, allowNpcOnly), s.nextGroup;
    CreateUnfolds(s, leader, allowNpcOnly);
    JoiningFrame(s1, g, leader);
    var t := Sync(Joining(s1, g, leader), g);
    InvitesFadeTrans(s, s1, t);
    OnlyEnterTrans(s, s1, t, {leader});
  }

  lemma CreateFrame(s: State, leader: Addr, allowNpcOnly: bool)
    requires Inv(s) && leader in s.chars
    ensures var (t, g) := Create(s, leader, allowNpcOnly);
      && InvitesFade(s, t) && OnlyEnter(s, t, {leader})
      && (s.chars[leader].group in s.groups ==> t == s && g == s.chars[leader].group)
  {
    if s.chars[leader].group !in s.groups {
      FoundedChars(s, leader, allowNpcOnly);
    }
  }

  // ----- add_grouped: who may enter, and the exact cap

  ghost predicate CapOk(s: State) {
    forall g :: g in s.groups ==> |s.groups[g].members| <= 10
  }

  /** The call that slips past the cap: the caller passes a member of a full group who does not lead it. */
  predicate SlipsPastCap(s: State, ch: Addr, master: Addr) {
    && ch in s.chars && master in s.chars
    && s.chars[master].group in s.groups && s.chars[ch].group != s.chars[master].group
    && s.groups[s.chars[master].group].leader != master
    && |s.groups[s.chars[master].group].members| > 9
  }

  /** What the cap test reads: zero for a member who does not lead, the followers for one who does. */
  lemma CapReading(s: State, master: Addr)
    requires Inv(s) && master in s.chars && s.chars[master].group in s.groups
    ensures var grp := s.groups[s.chars[master].group];
      s.chars[master].numGrouped == if grp.leader == master then |grp.members| - 1 else 0
  {
    assert CharOk(s, master) && LegacyOk(s, s.chars[master].group);
  }

  /** Nothing but entries of the two, and invitations dropped. */
  ghost predicate FramedFor(s: State, t: State, ch: Addr, master: Addr) {
    InvitesFade(s, t) && OnlyEnter(s, t, {ch, master})
  }

  lemma FramedTrans(s: State, t: State, u: State, ch: Addr, master: Addr)
    requires FramedFor(s, t, ch, master) && FramedFor(t, u, ch, master)
    ensures FramedFor(s, u, ch, master)
  {
    InvitesFadeTrans(s, t, u);
    OnlyEnterTrans(s, t, u, {ch, master});
  }

  lemma AddFramed(s: State, g: Addr, ch: Addr, master: Addr)
    requires Inv(s) && g in s.groups && ch in s.chars
    ensures FramedFor(s, AddMember(s, g, ch).0, ch, master)
  {
    if s.chars[ch].group != g {
      AddFrame(s, g, ch);
    }
  }

  /** The three ways add_grouped ends. */
  lemma AddGroupedEnds(s: State, ch: Addr, master: Addr)
    requires ch in s.chars && master in s.chars
    ensures var (s1, g) := Create(s, master, s.chars[master].npc);
      AddGrouped(s, ch, master).0 in {s, s1, AddMember(s1, g, ch).0}
  {
  }

  lemma AddGroupedFrame(s: State, ch: Addr, master: Addr)
    requires Inv(s)
    ensures InvitesFade(s, AddGrouped(s, ch, master).0) && OnlyEnter(s, AddGrouped(s, ch, master).0, {ch, master})
  {
    if ch in s.chars && master in s.chars {
      var (s1, g) := Create(s, master, s.chars[master].npc);
      CreateInv(s, master, s.chars[master].npc);
      CreateFrame(s, master, s.chars[master].npc);
      assert FramedFor(s, s1, ch, master);
      AddFramed(s1, g, ch, master);
      FramedTrans(s, s1, AddMember(s1, g, ch).0, ch, master);
      AddGroupedEnds(s, ch, master);
    }
  }

  /**
   add_grouped keeps every group within a leader and nine others exactly when the caller does not pass a
   non-leading member of a full group.
   */
  lemma AddGroupedCap(s: State, ch: Addr, master: Addr)
    requires Inv(s) && CapOk(s)
    ensures CapOk(AddGrouped(s, ch, master).0) <==> !SlipsPastCap(s, ch, master)
  {
    if ch in s.chars && master in s.chars && !(s.chars[ch].group in s.groups && s.chars[ch].group == s.chars[master].group) {
      if s.chars[master].group in s.groups {
        CapWithGroup(s, ch, master);
      } else {
        CapWithoutGroup(s, ch, master);
      }
    }
  }

  lemma CapWithGroup(s: State, ch: Addr, master: Addr)
    requires Inv(s) && CapOk(s) && ch in s.chars && master in s.chars
    requires s.chars[master].group in s.groups && s.chars[ch].group != s.chars[master].group
    ensures CapOk(AddGrouped(s, ch, master).0) <==> !SlipsPastCap(s, ch, master)
  {
    var g := s.chars[master].group;
    CapReading(s, master);
    AddToCap(s, g, ch);
    assert AddGrouped(s, ch, master).0 == if s.chars[master].numGrouped >= FOLLOWER_CAP then s else AddMember(s, g, ch).0;
  }

  lemma CapWithoutGroup(s: State, ch: Addr, master: Addr)
    requires Inv(s) && CapOk(s) && ch in s.chars && master in s.chars && s.chars[master].group !in s.groups
    ensures CapOk(AddGrouped(s, ch, master).0)
  {
    var (s1, g) := Create(s, master, s.chars[master].npc);
    CreateInv(s, master, s.chars[master].npc);
    CapAfterCreate(s, master, s.chars[master].npc);
    if s1.chars[ch].group != g {
      AddToCap(s1, g, ch);
    } else {
      assert AddMember(s1, g, ch).0 == s1;
    }
    AddGroupedEnds(s, ch, master);
  }

  lemma CapAfterCreate(s: State, leader: Addr, allowNpcOnly: bool)
    requires Inv(s) && CapOk(s) && leader in s.chars && s.chars[leader].group !in s.groups
    ensures var (t, g) := Create(s, leader, allowNpcOnly);
      CapOk(t) && g in t.groups && |t.groups[g].members| <= FOLLOWER_CAP
  {
    FoundedGroup(s, leader, allowNpcOnly);
  }

  lemma AddToCap(s: State, g: Addr, ch: Addr)
    requires Inv(s) && CapOk(s) && g in s.groups && ch in s.chars && s.chars[ch].group != g
    ensures CapOk(AddMember(s, g, ch).0) <==> |s.groups[g].members| <= FOLLOWER_CAP
  {
    AddFrame(s, g, ch);
    var t := AddMember(s, g, ch).0;
    if |s.groups[g].members| <= FOLLOWER_CAP {
      forall h | h in t.groups
        ensures |t.groups[h].members| <= FOLLOWER_CAP + 1
      {
      }
    }
  }
}
