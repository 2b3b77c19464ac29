/** The promises of the group code, read off the invariant in plain terms. */
module GroupFacts {
  import opened Lists
  import opened GroupModel
  import opened GroupInvariants
  import opened GroupMembership
  import opened GroupRuns

  // ----- One fact, six places

  /** After any run: the two directions of membership agree, and count, leader and lists are exact. */
  lemma ReachableMembership(now: nat, ops: seq<Op>)
    ensures var s := Run(Boot(now), ops);
      && (forall c, g :: c in s.chars && g in s.groups ==> (c in s.groups[g].members <==> s.chars[c].group == g))
      && (forall c :: c in s.chars && s.chars[c].group !in s.groups ==> s.chars[c].group == NULL && s.chars[c].leader == NULL)
      && (forall g, h, m :: g in s.groups && h in s.groups && m in s.groups[g].members && m in s.groups[h].members ==> g == h)
      && (forall g :: g in s.groups ==>
            && NoDup(s.groups[g].members) && s.groups[g].members != [] && s.groups[g].leader in s.groups[g].members
            && s.groups[g].playerCount == PlayerCount(s.chars, s.groups[g].members)
            && (forall m :: m in s.groups[g].members ==> m in s.chars))
  {
    var s := Run(Boot(now), ops);
    RunInv(now, ops);
    forall c, g | c in s.chars && g in s.groups
      ensures c in s.groups[g].members <==> s.chars[c].group == g
    {
      assert CharOk(s, c) && Roster(s, g);
    }
    forall c | c in s.chars && s.chars[c].group !in s.groups
      ensures s.chars[c].group == NULL && s.chars[c].leader == NULL
    {
      assert CharOk(s, c);
    }
    forall g | g in s.groups
      ensures NoDup(s.groups[g].members) && s.groups[g].members != [] && s.groups[g].leader in s.groups[g].members
      ensures s.groups[g].playerCount == PlayerCount(s.chars, s.groups[g].members)
      ensures forall m :: m in s.groups[g].members ==> m in s.chars && s.chars[m].group == g
    {
      assert Roster(s, g) && Led(s, g);
    }
  }

  /** After any run the legacy fields of a grouped character are a function of its group. */
  lemma ReachableLegacy(now: nat, ops: seq<Op>, c: Addr)
    requires var s := Run(Boot(now), ops); c in s.chars && s.chars[c].group != NULL
    ensures var s := Run(Boot(now), ops);
      var d := s.chars[c];
      && d.group in s.groups
      && var grp := s.groups[d.group];
      if c == grp.leader
      then d.leader == NULL && d.numGrouped == |grp.members| - 1 && d.lgroup == Without(grp.members, c)
      else d.leader == grp.leader && d.numGrouped == 0 && d.lgroup == []
  {
    var s := Run(Boot(now), ops);
    RunInv(now, ops);
    assert CharOk(s, c);
    assert LegacyOk(s, s.chars[c].group);
  }

  /** After any run: queues are short and duplicate-free, and whoever waits is queued with the same expiry. */
  lemma ReachableRequests(now: nat, ops: seq<Op>)
    ensures var s := Run(Boot(now), ops);
      && (forall g :: g in s.groups ==> |s.groups[g].requests| <= 10 && RequesterIdsDistinct(s.groups[g].requests))
      && (forall c :: HasActiveRequest(s, c) ==>
            Queued(s, s.chars[c].requestGroup, s.chars[c].id, s.chars[c].requestExpires))
  {
    var s := Run(Boot(now), ops);
    RunInv(now, ops);
    forall g | g in s.groups
      ensures QueueOk(s, g)
    {
    }
    forall c | HasActiveRequest(s, c)
      ensures Queued(s, s.chars[c].requestGroup, s.chars[c].id, s.chars[c].requestExpires)
    {
      assert CharOk(s, c);
    }
  }

  // ----- is_same_group

  ghost predicate SameParty(s: State, a: Addr, b: Addr)
    requires a in s.chars && b in s.chars
  {
    a == b || (s.chars[a].group != NULL && s.chars[a].group == s.chars[b].group)
  }

  ghost predicate MountPair(s: State, a: Addr, b: Addr)
    requires a in s.chars && b in s.chars
  {
    a == s.chars[b].mounted || b == s.chars[a].mounted
  }

  /** The legacy pointer comparison alone decides group equality. */
  lemma LegacyComparison(s: State, a: Addr, b: Addr)
    requires Inv(s) && a in s.chars && b in s.chars
    ensures LegacyHead(s, a) == LegacyHead(s, b) <==> SameParty(s, a, b)
  {
    HeadIsLeader(s, a);
    HeadIsLeader(s, b);
  }

  lemma HeadIsLeader(s: State, a: Addr)
    requires Inv(s) && a in s.chars
    ensures s.chars[a].group == NULL ==> LegacyHead(s, a) == a
    ensures s.chars[a].group != NULL ==>
      s.chars[a].group in s.groups && LegacyHead(s, a) == s.groups[s.chars[a].group].leader
      && LegacyHead(s, a) in s.chars && s.chars[LegacyHead(s, a)].group == s.chars[a].group
  {
    assert CharOk(s, a);
    var g := s.chars[a].group;
    if g != NULL {
      assert Roster(s, g) && Led(s, g) && LegacyOk(s, g);
    }
  }

  /** is_same_group is group equality plus the mount rule, nothing else. */
  lemma SameGroupMeaning(s: State, a: Addr, b: Addr)
    requires Inv(s) && a in s.chars && b in s.chars
    ensures IsSameGroup(s, a, b) <==> SameParty(s, a, b) || MountPair(s, a, b)
    ensures IsSameGroup(s, a, b) == IsSameGroup(s, b, a)
  {
    LegacyComparison(s, a, b);
    assert CharOk(s, a) && CharOk(s, b);
  }

  /** Mounts aside the relation is transitive; a break in a chain always sits at a mount and its rider. */
  lemma SameGroupChain(s: State, a: Addr, b: Addr, c: Addr)
    requires Inv(s) && a in s.chars && b in s.chars && c in s.chars
    requires IsSameGroup(s, a, b) && IsSameGroup(s, b, c)
    ensures IsSameGroup(s, a, c) || MountPair(s, a, b) || MountPair(s, b, c)
    ensures !MountPair(s, a, b) && !MountPair(s, b, c) ==> SameParty(s, a, c)
  {
    SameGroupMeaning(s, a, b);
    SameGroupMeaning(s, b, c);
    SameGroupMeaning(s, a, c);
  }

  /** An ungrouped mount is in the group of its rider but not in that of its rider's companions. */
  lemma MountBreaksChain(s: State, mount: Addr, rider: Addr, friend: Addr)
    requires Inv(s) && mount in s.chars && rider in s.chars && friend in s.chars
    requires s.chars[rider].mounted == mount && s.chars[mount].group == NULL && SameParty(s, rider, friend)
    ensures IsSameGroup(s, mount, rider) && IsSameGroup(s, rider, friend)
    ensures IsSameGroup(s, mount, friend) <==> mount == friend || MountPair(s, mount, friend)
  {
    SameGroupMeaning(s, mount, rider);
    SameGroupMeaning(s, rider, friend);
    SameGroupMeaning(s, mount, friend);
  }

  // ----- Who acts as leader

  /** The leader a command acts for: that of the character's group, or the character itself when it has none. */
  lemma CommandLeaderMeaning(s: State, ch: Addr)
    requires Inv(s) && ch in s.chars
    ensures CommandLeader(s, ch) in s.chars
    ensures CommandLeader(s, ch) == if s.chars[ch].group in s.groups then s.groups[s.chars[ch].group].leader else ch
  {
    assert CharOk(s, ch);
    HeadIsLeader(s, ch);
  }

  /** An acting leader follows nobody, and leads its group or has none; and whoever does so is one. */
  lemma ActingLeaderMeaning(s: State, ch: Addr)
    requires Inv(s)
    ensures ActorIsLeader(s, ch) <==>
      && ch in s.chars && s.chars[ch].master == NULL
      && (s.chars[ch].group in s.groups ==> s.groups[s.chars[ch].group].leader == ch)
  {
    if ch in s.chars {
      assert CharOk(s, ch);
      CommandLeaderMeaning(s, ch);
      HeadIsLeader(s, ch);
    }
  }

  // ----- Succession

  ghost predicate NpcsBefore(chars: map<Addr, Char>, members: seq<Addr>, i: nat)
    requires i <= |members|
  {
    forall j :: 0 <= j < i && members[j] in chars ==> chars[members[j]].npc
  }

  lemma {:induction false} FirstPlayerIsFirst(chars: map<Addr, Char>, members: seq<Addr>, p: Addr)
    requires NULL !in chars && p == FirstPlayer(chars, members) && p != NULL
    ensures p in chars && !chars[p].npc
    ensures exists i :: 0 <= i < |members| && members[i] == p && NpcsBefore(chars, members, i)
  {
    if members[0] in chars && !chars[members[0]].npc {
      assert members[0] == p && NpcsBefore(chars, members, 0);
    } else {
      FirstPlayerIsFirst(chars, members[1..], p);
      var i :| 0 <= i < |members[1..]| && members[1..][i] == p && NpcsBefore(chars, members[1..], i);
      assert forall j :: 0 < j < i + 1 ==> members[j] == members[1..][j - 1];
      assert members[i + 1] == p && NpcsBefore(chars, members, i + 1);
    }
  }

  /** Who leads g once ch is off its list: the old leader, else the first player, else the first member. */
  function Heir(s: State, grp: Group, ch: Addr): Addr {
    var rest := Without(grp.members, ch);
    if grp.leader != ch then grp.leader
    else if PlayerCount(s.chars, rest) > 0 then FirstPlayer(s.chars, rest)
    else if rest != [] then rest[0] else NULL
  }

  lemma LeavingRecord(s: State, ch: Addr)
    requires Inv(s) && ch in s.chars && s.chars[ch].group in s.groups
    ensures var g := s.chars[ch].group;
      var grp, rest, left := s.groups[g], Without(s.groups[g].members, ch), Leaving(s, ch).groups[g];
      && left.members == rest && left.playerCount == PlayerCount(s.chars, rest) && left.allowNpcOnly == grp.allowNpcOnly
      && (rest != [] && (grp.allowNpcOnly || PlayerCount(s.chars, rest) > 0) ==> left.leader == Heir(s, grp, ch))
  {
    var g := s.chars[ch].group;
    var grp, rest := s.groups[g], Without(s.groups[g].members, ch);
    assert CharOk(s, ch) && Roster(s, g) && Led(s, g);
    CountWithout(s.chars, grp.members, ch);
    FirstPlayerFound(s.chars, rest);
    if rest != [] {
      assert rest[0] in s.chars;
      assert FirstLive(s.chars, rest) == rest[0];
    }
  }

  /**
   Removal, exactly. The group is disbanded when nobody is left, or when no player is left and it may not
   consist of NPCs; otherwise it keeps its other members in order and is led: by its old leader if that one
   stays, else by the first player on the list, else by its first member.
   */
  lemma Succession(s: State, ch: Addr)
    requires Inv(s) && ch in s.chars && s.chars[ch].group in s.groups
    ensures var g := s.chars[ch].group;
      var grp, rest, t := s.groups[g], Without(s.groups[g].members, ch), RemoveMember(s, ch, true);
      && (g in t.groups <==> rest != [] && (grp.allowNpcOnly || PlayerCount(s.chars, rest) > 0))
      && (g in t.groups ==>
            && t.groups[g].members == rest
            && t.groups[g].playerCount == PlayerCount(s.chars, rest)
            && t.groups[g].leader == Heir(s, grp, ch) && Heir(s, grp, ch) in rest)
  {
    var g, t := s.chars[ch].group, Leaving(s, ch);
    LeavingRecord(s, ch);
    RemoveUnfolds(s, ch);
    if t.groups[g].members != [] && (t.groups[g].allowNpcOnly || t.groups[g].playerCount >= 1) {
      LeavingLed(s, ch);
      assert Roster(t, g) by { LeavingGroups(s, ch, g); }
      SyncChars(t, g);
    }
  }

  /** A player leads every group that has one; an NPC leads only a group without players. */
  lemma PlayersLead(now: nat, ops: seq<Op>, g: Addr)
    requires g in Run(Boot(now), ops).groups
    ensures var s := Run(Boot(now), ops);
      var grp := s.groups[g];
      grp.leader in s.chars && (s.chars[grp.leader].npc <==> forall m :: m in grp.members ==> m in s.chars && s.chars[m].npc)
  {
    var s := Run(Boot(now), ops);
    RunInv(now, ops);
    assert Roster(s, g) && Led(s, g);
    FirstPlayerFound(s.chars, s.groups[g].members);
    CountZero(s.chars, s.groups[g].members);
  }

  lemma {:induction false} CountZero(chars: map<Addr, Char>, members: seq<Addr>)
    ensures PlayerCount(chars, members) == 0 <==> forall m :: m in members && m in chars ==> chars[m].npc
  {
    if members == [] {
    } else {
      CountZero(chars, members[1..]);
      assert members == [members[0]] + members[1..];
    }
  }

  lemma OnlyMember(members: seq<Addr>, ch: Addr)
    requires NoDup(members) && ch in members
    ensures Without(members, ch) == [] <==> members == [ch]
  {
    WithoutNoDup(members, ch);
    assert |members| == 1 ==> members == [members[0]];
    assert Without([ch], ch) == Without([ch][1..], ch);
  }

  /** Without disband-if-empty, removal keeps the invariant exactly when ch was not alone in a group. */
  lemma RemoveWithoutDisband(s: State, ch: Addr)
    requires Inv(s) && ch in s.chars
    ensures Inv(RemoveMember(s, ch, false)) <==>
      s.chars[ch].group !in s.groups || s.groups[s.chars[ch].group].members != [ch]
  {
    assert CharOk(s, ch);
    var g, t := s.chars[ch].group, RemoveMember(s, ch, false);
    if g in s.groups {
      assert Roster(s, g);
      OnlyMember(s.groups[g].members, ch);
      RemoveInv(s, ch);
      if s.groups[g].members == [ch] {
        assert !Led(t, g);
      } else {
        assert t == RemoveMember(s, ch, true);
      }
    }
  }

  // ----- groups_clear_all

  /** groups_clear_all leaves no group loaded and nobody grouped. */
  lemma ClearAllEmpties(s: State)
    requires Inv(s)
    ensures var t := ClearAll(s);
      Inv(t) && t.groups == map[] && t.loadedGroups == []
      && forall c :: c in t.chars ==> t.chars[c].group == NULL && t.chars[c].leader == NULL
  {
    var t := ClearAll(s);
    DisbandAllEmpties(s, s.loadedGroups);
    assert t.groups.Keys == {};
    forall c | c in t.chars
      ensures t.chars[c].group == NULL && t.chars[c].leader == NULL
    {
      assert CharOk(t, c);
    }
    EmptyIffNone(t.loadedGroups);
  }
}
