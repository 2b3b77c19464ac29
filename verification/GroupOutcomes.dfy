/** What becomes of an attempt: who gets in behind whom, and what one command does to what another one did. */
module GroupOutcomes {
  import opened Lists
  import opened Strings
  import opened GroupModel
  import opened GroupInvariants
  import opened GroupMembership
  import opened GroupCommands
  import opened GroupFollowing
  import opened GroupRuns
  import opened GroupFrames
  import opened GroupTheorems
  import opened GroupFacts
  import opened GroupSteps

  // ----- Joining and leaving

  /** group_add_member for a character elsewhere, read as leaving there and joining here. */
  lemma AddUnfolds(s: State, g: Addr, ch: Addr)
    requires Inv(s) && g in s.groups && ch in s.chars && s.chars[ch].group != g
    ensures var s1 := RemoveMember(s, ch, true);
      && Inv(s1) && g in s1.groups && s1.groups[g] == s.groups[g] && ch in s1.chars && s1.chars[ch].group == NULL
      && SameCast(s, s1) && AddMember(s, g, ch) == (Sync(Joining(s1, g, ch), g), true)
  {
    assert CharOk(s, ch);
    RemoveInv(s, ch);
    RemoveOthers(s, ch, g);
  }

  lemma AddToGroup(s: State, g: Addr, ch: Addr)
    requires Inv(s) && g in s.groups && ch in s.chars && s.chars[ch].group != g
    ensures var (t, ok) := AddMember(s, g, ch);
      ok && g in t.groups && t.groups[g].members == s.groups[g].members + [ch] && ch in t.chars && t.chars[ch].group == g
  {
    var s1 := RemoveMember(s, ch, true);
    AddInv(s, g, ch);
    AddUnfolds(s, g, ch);
    assert Roster(s, g) && ch !in s.groups[g].members;
    SyncQuiet(Joining(s1, g, ch), g);
  }

  /** Who gets in behind a grouped master, exactly, and where: at the end of the master's list. */
  lemma JoinBehind(s: State, ch: Addr, master: Addr)
    requires Inv(s) && ch in s.chars && master in s.chars
    requires s.chars[master].group in s.groups && s.chars[ch].group != s.chars[master].group
    ensures var g := s.chars[master].group;
      var (t, ok) := AddGrouped(s, ch, master);
      && (ok <==> (s.groups[g].leader == master ==> |s.groups[g].members| <= 9))
      && (ok ==> g in t.groups && t.groups[g].members == s.groups[g].members + [ch] && t.chars[ch].group == g)
      && (!ok ==> t == s)
  {
    CapReading(s, master);
    AddToGroup(s, s.chars[master].group, ch);
  }

  lemma JoinFounder(s1: State, g: Addr, ch: Addr, master: Addr)
    requires Inv(s1) && g in s1.groups && s1.groups[g].members == [master] && s1.groups[g].leader == master
    requires ch in s1.chars && master in s1.chars && s1.chars[ch].group != g
    ensures var (t, ok) := AddMember(s1, g, ch);
      && ok && ch in t.chars && t.chars[ch].group == g && g in t.groups && t.groups[g].members == [master, ch]
      && t.groups[g].leader == if s1.chars[master].npc && !s1.chars[ch].npc then ch else master
  {
    AddToGroup(s1, g, ch);
    LeaderAfterJoin(s1, g, ch);
    assert [master] + [ch] == [master, ch];
  }

  /** Behind an ungrouped master: a new group of the two, led by the master unless it is an NPC and ch a player. */
  lemma JoinLoner(s: State, ch: Addr, master: Addr)
    requires Inv(s) && ch in s.chars && master in s.chars && s.chars[master].group !in s.groups && ch != master
    ensures var (t, ok) := AddGrouped(s, ch, master);
      && ok && ch in t.chars && t.chars[ch].group == s.nextGroup && s.nextGroup !in s.groups
      && s.nextGroup in t.groups && t.groups[s.nextGroup].members == [master, ch]
      && t.groups[s.nextGroup].leader == if s.chars[master].npc && !s.chars[ch].npc then ch else master
  {
    var s1 := LonerStart(s, ch, master);
    JoinFounder(s1, s.nextGroup, ch, master);
  }

  /** The state with the master's new group, into which ch then goes. */
  lemma LonerStart(s: State, ch: Addr, master: Addr) returns (s1: State)
    requires Inv(s) && ch in s.chars && master in s.chars && s.chars[master].group !in s.groups && ch != master
    ensures s1 == Create(s, master, s.chars[master].npc).0 && Inv(s1) && s.nextGroup !in s.groups
    ensures AddGrouped(s, ch, master) == AddMember(s1, s.nextGroup, ch)
    ensures s.nextGroup in s1.groups && s1.groups[s.nextGroup].members == [master] && s1.groups[s.nextGroup].leader == master
    ensures ch in s1.chars && s1.chars[ch].group != s.nextGroup && s1.chars[ch].npc == s.chars[ch].npc
    ensures master in s1.chars && s1.chars[master].npc == s.chars[master].npc
  {
    s1 := Create(s, master, s.chars[master].npc).0;
    CreateInv(s, master, s.chars[master].npc);
    FoundedGroup(s, master, s.chars[master].npc);
    LonerUnfolds(s, ch, master);
    NotYetIn(s1, s.nextGroup, ch);
  }

  lemma LonerUnfolds(s: State, ch: Addr, master: Addr)
    requires Inv(s) && ch in s.chars && master in s.chars && s.chars[master].group !in s.groups
    ensures var (s1, g) := Create(s, master, s.chars[master].npc); AddGrouped(s, ch, master) == AddMember(s1, g, ch)
  {
    var (s1, g) := Create(s, master, s.chars[master].npc);
    CreateInv(s, master, s.chars[master].npc);
    FoundedGroup(s, master, s.chars[master].npc);
    CapReading(s1, master);
  }

  lemma NotYetIn(s: State, g: Addr, ch: Addr)
    requires Inv(s) && g in s.groups && ch in s.chars && ch !in s.groups[g].members
    ensures s.chars[ch].group != g
  {
    assert CharOk(s, ch);
  }

  lemma LeaderAfterJoin(s: State, g: Addr, ch: Addr)
    requires Inv(s) && g in s.groups && ch in s.chars && s.chars[ch].group != g
    ensures var t := AddMember(s, g, ch).0;
      g in t.groups && s.groups[g].leader in s.chars
      && t.groups[g].leader == if !s.chars[ch].npc && s.chars[s.groups[g].leader].npc then ch else s.groups[g].leader
  {
    var s1 := RemoveMember(s, ch, true);
    AddUnfolds(s, g, ch);
    assert Led(s1, g) && Roster(s1, g);
    assert JoiningExceptHolds(s1, g, ch) by {
      JoiningExcept(s1, g, ch);
      JoiningLed(s1, g, ch);
    }
    SyncChars(Joining(s1, g, ch), g);
  }

  ghost predicate JoiningExceptHolds(s: State, g: Addr, ch: Addr)
    requires g in s.groups && ch in s.chars
  {
    Led(Joining(s, g, ch), g) && Roster(Joining(s, g, ch), g)
  }

  lemma AddKeepsRights(s: State, g: Addr, ch: Addr)
    requires Inv(s) && g in s.groups && ch in s.chars && s.chars[ch].group == NULL
    ensures var t := AddMember(s, g, ch).0;
      g in t.groups && t.groups[g].allowNpcOnly == s.groups[g].allowNpcOnly
  {
    AddInv(s, g, ch);
  }

  /**
   Joining a group and leaving it again. The group is back with its members and its leader exactly when it has a
   player, or may do without one and either the visitor was an NPC or the leader heads the list: a player visiting
   a group of NPCs takes the lead, and on leaving passes it to the first on the list.
   */
  lemma JoinThenLeave(s: State, ch: Addr, g: Addr)
    requires Inv(s) && g in s.groups && ch in s.chars && s.chars[ch].group == NULL
    ensures var u := StopGrouped(AddMember(s, g, ch).0, ch);
      var grp := s.groups[g];
      grp.members != [] && (
        g in u.groups && u.groups[g].members == grp.members && u.groups[g].leader == grp.leader <==>
          grp.playerCount > 0 || (grp.allowNpcOnly && (s.chars[ch].npc || grp.leader == grp.members[0])))
  {
    var t, members := AddMember(s, g, ch).0, s.groups[g].members;
    assert Roster(s, g) && Led(s, g) && NULL !in s.groups;
    AddInv(s, g, ch);
    AddToGroup(s, g, ch);
    AddKeepsRights(s, g, ch);
    LeaderAfterJoin(s, g, ch);
    StopGroupedInv(t, ch);
    WithoutAppend(members, ch, ch);
    WithoutAbsent(members, ch);
    CountSame(s.chars, t.chars, members);
    FirstPlayerFound(s.chars, members);
    CountZero(s.chars, members);
    Succession(t, ch);
  }

  // ----- What creating a group leaves alone

  /** The parts of a character no group operation of the invite and request arms changes. */
  ghost predicate SameNature(c: Char, d: Char) {
    && c.npc == d.npc && c.id == d.id && c.name == d.name && c.charmed == d.charmed
    && c.master == d.master && c.mounted == d.mounted
  }

  lemma CreateNature(s: State, leader: Addr, allowNpcOnly: bool)
    requires Inv(s) && leader in s.chars
    ensures var t := Create(s, leader, allowNpcOnly).0;
      forall c :: c in s.chars ==> c in t.chars && SameNature(s.chars[c], t.chars[c])
  {
    if s.chars[leader].group !in s.groups {
      CreateUnfolds(s, leader, allowNpcOnly);
    }
  }

  /** Creating a group for its leader changes nobody else. */
  lemma CreateStays(s: State, leader: Addr, allowNpcOnly: bool, c: Addr)
    requires Inv(s) && leader in s.chars && c in s.chars && c != leader
    ensures var t := Create(s, leader, allowNpcOnly).0;
      c in t.chars && t.chars[c] == s.chars[c] && t.now == s.now
  {
    if s.chars[leader].group !in s.groups {
      CreateUnfolds(s, leader, allowNpcOnly);
      assert CharOk(s, c);
    }
  }

  /** How many the group of ch counts, or will when it is created. */
  function PartySize(s: State, ch: Addr): nat
    requires ch in s.chars
  {
    if s.chars[ch].group in s.groups then |s.groups[s.chars[ch].group].members| else 1
  }

  /** An acting leader with its group at hand. */
  ghost predicate Leads(s: State, ch: Addr, g: Addr) {
    ch in s.chars && g in s.groups && s.chars[ch].group == g && s.groups[g].leader == ch && s.chars[ch].master == NULL
  }

  lemma LeadsActs(s: State, ch: Addr, g: Addr)
    requires Inv(s) && Leads(s, ch, g)
    ensures ActorIsLeader(s, ch)
  {
    assert CharOk(s, ch) && LegacyOk(s, g) && Roster(s, g);
  }

  lemma CreatedSize(s: State, ch: Addr)
    requires Inv(s) && ActorIsLeader(s, ch)
    ensures var (t, g) := Create(s, ch, false);
      Leads(t, ch, g) && |t.groups[g].members| == PartySize(s, ch)
  {
    CreatedLeads(s, ch);
    CreateNature(s, ch, false);
    if s.chars[ch].group !in s.groups {
      FoundedGroup(s, ch, false);
    }
  }

  // ----- An invitation, and accepting it

  /** Everything the invite arm asks of the victim. */
  ghost predicate Invitable(s: State, ch: Addr, victim: Addr) {
    && ch in s.chars && victim in s.chars && victim != ch && !s.chars[victim].npc && s.chars[victim].group == NULL
    && !MountPair(s, victim, ch) && !HasActiveInvite(s, victim)
  }

  lemma InviteToOutcome(s: State, g: Addr, ch: Addr, victim: Addr)
    requires Inv(s) && Leads(s, ch, g) && victim in s.chars && victim != ch
    ensures var t := InviteTo(s, g, ch, victim);
      t == if Invitable(s, ch, victim)
           then SetChar(s, victim, s.chars[victim].(
                  inviter := s.chars[ch].id, inviteGroup := s.groups[g].id, inviteExpires := s.now + PENDING_TTL))
           else s
  {
    assert CharOk(s, victim) && CharOk(s, ch);
    SameGroupMeaning(s, victim, ch);
  }

  /** The invite arm with the inviter's group at hand: nothing it asks of the victim has changed. */
  lemma InviteStart(s: State, ch: Addr, victim: Addr) returns (s1: State, g: Addr)
    requires Inv(s) && ActorIsLeader(s, ch) && victim in s.chars && victim != ch
    ensures (s1, g) == Create(s, ch, false) && Inv(s1) && s1.now == s.now && Invite(s, ch, victim) == InviteTo(s1, g, ch, victim)
    ensures Leads(s1, ch, g) && |s1.groups[g].members| == PartySize(s, ch) && SameNature(s.chars[ch], s1.chars[ch])
    ensures victim in s1.chars && s1.chars[victim] == s.chars[victim]
    ensures Invitable(s1, ch, victim) <==> Invitable(s, ch, victim)
  {
    s1, g := Create(s, ch, false).0, Create(s, ch, false).1;
    CreateInv(s, ch, false);
    CreateNature(s, ch, false);
    CreatedSize(s, ch);
    CreateStays(s, ch, false, victim);
  }

  lemma InvitedIn(s: State, s1: State, g: Addr, ch: Addr, victim: Addr, t: State)
    requires ch in s.chars && victim in s.chars && victim != ch && Inv(s1) && Leads(s1, ch, g)
    requires SameNature(s.chars[ch], s1.chars[ch]) && victim in s1.chars && s1.chars[victim] == s.chars[victim] && s1.now == s.now
    requires t == InviteTo(s1, g, ch, victim)
    ensures ch in t.chars && t.chars[ch] == s1.chars[ch] && t.groups == s1.groups && t.now == s.now
    ensures victim in t.chars && t.chars[victim].group == s.chars[victim].group && SameNature(s.chars[victim], t.chars[victim])
    ensures InviteOf(t.chars[victim]) == (
      if Invitable(s1, ch, victim) then (s.chars[ch].id, s1.groups[g].id, s.now + PENDING_TTL) else InviteOf(s.chars[victim]))
  {
    InviteToOutcome(s1, g, ch, victim);
  }

  /** The invitation is made exactly to the invitable; the inviter's group exists afterwards in any case. */
  lemma InviteOutcome(s: State, ch: Addr, victim: Addr)
    requires Inv(s) && ActorIsLeader(s, ch) && victim in s.chars && victim != ch
    ensures var t := Invite(s, ch, victim);
      && ch in t.chars && Leads(t, ch, t.chars[ch].group) && |t.groups[t.chars[ch].group].members| == PartySize(s, ch)
      && victim in t.chars && t.chars[victim].group == s.chars[victim].group && t.now == s.now
      && SameNature(s.chars[ch], t.chars[ch]) && SameNature(s.chars[victim], t.chars[victim])
      && InviteOf(t.chars[victim]) == (
           if Invitable(s, ch, victim) then (s.chars[ch].id, t.groups[t.chars[ch].group].id, s.now + 60)
           else InviteOf(s.chars[victim]))
  {
    var s1, g := InviteStart(s, ch, victim);
    var t := Invite(s, ch, victim);
    InvitedIn(s, s1, g, ch, victim, t);
    assert t.chars[ch].group == g;
  }

  lemma AdmitStanding(s: State, ch: Addr, victim: Addr, g: Addr)
    requires Inv(s) && Leads(s, ch, g) && victim in s.chars && !s.chars[victim].npc && s.chars[victim].group == NULL
    ensures var t := AdmitInvited(s, victim, ch);
      && victim in t.chars && t.chars[victim].inviteExpires == 0
      && (if |s.groups[g].members| <= FOLLOWER_CAP
          then t.chars[victim].group == g && g in t.groups && t.groups[g].members == s.groups[g].members + [victim]
          else t.chars[victim].group == NULL && t.groups == s.groups)
  {
    assert NULL !in s.groups;
    JoinBehind(s, victim, ch);
    AddGroupedInv(s, victim, ch);
  }

  /** Accepting an unexpired invitation of a player who leads the group it names: by its name, or without one. */
  lemma AcceptStanding(s: State, ch: Addr, victim: Addr, arg: string, g: Addr)
    requires Inv(s) && Leads(s, ch, g) && !s.chars[ch].npc && victim in s.chars && victim != ch
    requires HasActiveInvite(s, victim) && !MountPair(s, victim, ch)
    requires s.chars[victim].inviter == s.chars[ch].id && s.chars[victim].inviteGroup == s.groups[g].id
    ensures s.chars[victim].group == NULL
    ensures Accept(s, victim, arg) == if IsPrefix(arg, s.chars[ch].name) then AdmitInvited(s, victim, ch) else s
  {
    assert CharOk(s, victim) && CharOk(s, ch);
    FindPlayerSound(s, s.chars[ch].id);
    FindGroupFound(s, g);
    LeadsActs(s, ch, g);
    SameGroupMeaning(s, victim, ch);
  }

  /** An NPC that leads may invite, but its invitation names an id under which no acting leader of the group is found. */
  lemma NpcInvitation(s: State, ch: Addr, victim: Addr, arg: string, g: Addr)
    requires Inv(s) && Leads(s, ch, g) && s.chars[ch].npc && HasActiveInvite(s, victim)
    requires s.chars[victim].inviteGroup == s.groups[g].id
    ensures Accept(s, victim, arg) in {s, ClearInvite(s, victim)}
  {
    var inviter := FindPlayer(s, s.chars[victim].inviter);
    FindPlayerSound(s, s.chars[victim].inviter);
    IdFindPlayerSound(s.chars, s.loadedChars, s.chars[victim].inviter);
    FindGroupFound(s, g);
    assert inviter != ch;
    assert inviter in s.chars && s.chars[inviter].group == g ==> CommandLeader(s, inviter) == ch;
  }

  /** A name given to `accept` without an invitation, by a player without a group: a leader's search for requests. */
  lemma AcceptNothing(s: State, ch: Addr, arg: string)
    requires Inv(s) && ch in s.chars && s.chars[ch].group == NULL && !HasActiveInvite(s, ch)
    ensures Accept(s, ch, arg) == if arg != "" && ActorIsLeader(s, ch) then Create(s, ch, false).0 else s
  {
    assert NULL !in s.groups;
    if arg != "" && ActorIsLeader(s, ch) {
      FoundedGroup(s, ch, false);
      EmptyQueueAccept(Create(s, ch, false).0, Create(s, ch, false).1, ch, arg);
    }
  }

  /**
   An invitation lets the invited player in exactly if it was made by a player, is accepted within its sixty ticks
   and without a name or by the beginning of the inviter's, and there is room. Another name changes nothing; and once
   the sixty ticks are over a name only makes a leader of itself found its own group.
   */
  lemma InviteThenAccept(s: State, ch: Addr, victim: Addr, arg: string, ticks: nat)
    requires Inv(s) && ActorIsLeader(s, ch) && Invitable(s, ch, victim)
    ensures var u := Tick(Invite(s, ch, victim), ticks);
      var t := Accept(u, victim, arg);
      && ch in u.chars && u.chars[ch].group in u.groups && victim in t.chars
      && (t.chars[victim].group == u.chars[ch].group
          <==> && ticks < 60 && PartySize(s, ch) <= 9 && !s.chars[ch].npc
               && (arg == "" || IsPrefix(arg, s.chars[ch].name)))
      && (ticks < 60 && t.chars[victim].group != u.chars[ch].group ==> t.chars[victim].group == NULL)
      && (ticks < 60 && !s.chars[ch].npc && arg != "" && !IsPrefix(arg, s.chars[ch].name) ==> t == u)
      && (ticks >= 60 ==> t == if arg != "" && ActorIsLeader(u, victim) then Create(u, victim, false).0 else u)
  {
    var u := Tick(Invite(s, ch, victim), ticks);
    InvitedLater(s, ch, victim, ticks);
    InvitationTaken(s, ch, victim, arg, u);
  }

  /** Some ticks after the invitation: the inviter leads, and the victim has the invitation and no group. */
  ghost predicate Invited(s: State, ch: Addr, victim: Addr, u: State)
    requires ch in s.chars && victim in s.chars
  {
    && Inv(u) && ch in u.chars && victim in u.chars && ch != victim && Leads(u, ch, u.chars[ch].group)
    && |u.groups[u.chars[ch].group].members| == PartySize(s, ch) && SameNature(s.chars[ch], u.chars[ch])
    && u.chars[ch].id != 0 && !u.chars[victim].npc && u.chars[victim].group == NULL && !MountPair(u, victim, ch)
    && u.chars[victim].inviter == u.chars[ch].id && u.chars[victim].inviteGroup == u.groups[u.chars[ch].group].id
    && u.chars[victim].inviteExpires == s.now + PENDING_TTL
  }

  lemma InvitedLater(s: State, ch: Addr, victim: Addr, ticks: nat)
    requires Inv(s) && ActorIsLeader(s, ch) && Invitable(s, ch, victim)
    ensures Invited(s, ch, victim, Tick(Invite(s, ch, victim), ticks))
    ensures Tick(Invite(s, ch, victim), ticks).now == s.now + ticks
  {
    InviteInv(s, ch, victim);
    TickInv(Invite(s, ch, victim), ticks);
    InviteOutcome(s, ch, victim);
    IdNonzero(s, ch);
  }

  lemma InvitationTaken(s: State, ch: Addr, victim: Addr, arg: string, u: State)
    requires ch in s.chars && victim in s.chars && Invited(s, ch, victim, u)
    ensures var t, name := Accept(u, victim, arg), s.chars[ch].name;
      && victim in t.chars
      && (t.chars[victim].group == u.chars[ch].group
          <==> && u.chars[victim].inviteExpires > u.now && PartySize(s, ch) <= FOLLOWER_CAP && !s.chars[ch].npc
               && (arg == "" || IsPrefix(arg, name)))
      && (u.chars[victim].inviteExpires > u.now && t.chars[victim].group != u.chars[ch].group ==> t.chars[victim].group == NULL)
      && (u.chars[victim].inviteExpires > u.now && !s.chars[ch].npc && arg != "" && !IsPrefix(arg, name) ==> t == u)
      && (u.chars[victim].inviteExpires <= u.now ==>
            t == if arg != "" && ActorIsLeader(u, victim) then Create(u, victim, false).0 else u)
  {
    assert NULL !in u.groups;
    if u.chars[victim].inviteExpires <= u.now {
      AcceptNothing(u, victim, arg);
      FoundsApart(u, ch, victim);
    } else if u.chars[ch].npc {
      NpcInvitation(u, ch, victim, arg, u.chars[ch].group);
    } else {
      AcceptStanding(u, ch, victim, arg, u.chars[ch].group);
      AdmitStanding(u, ch, victim, u.chars[ch].group);
    }
  }

  /** A group that a character founds for itself is nobody else's. */
  lemma FoundsApart(s: State, ch: Addr, victim: Addr)
    requires Inv(s) && victim in s.chars && s.chars[victim].group == NULL && ch in s.chars && s.chars[ch].group in s.groups
    ensures var t := Create(s, victim, false).0; victim in t.chars && t.chars[victim].group != s.chars[ch].group
  {
    assert NULL !in s.groups;
    CreateInv(s, victim, false);
    FoundedGroup(s, victim, false);
  }

  /** A player with this id answers to the name. */
  ghost predicate PlayerAnswers(s: State, id: nat, name: string) {
    exists q :: q in s.chars && !s.chars[q].npc && s.chars[q].id == id && IsPrefix(name, s.chars[q].name)
  }

  /**
   Declining, within the sixty ticks, undoes an invitation: what is left is the inviter's group and a clean invitation
   record. A name that no player with the inviter's id answers to changes nothing, nor does anything after that time.
   */
  lemma InviteThenDecline(s: State, ch: Addr, victim: Addr, arg: string, ticks: nat)
    requires Inv(s) && ActorIsLeader(s, ch) && Invitable(s, ch, victim)
    ensures var u := Tick(Invite(s, ch, victim), ticks);
      Decline(u, victim, arg) == (
        if ticks < 60 && (arg == "" || PlayerAnswers(u, s.chars[ch].id, arg))
        then ClearInvite(Tick(Create(s, ch, false).0, ticks), victim) else u)
    ensures var u := Tick(Invite(s, ch, victim), ticks);
      !s.chars[ch].npc ==> (PlayerAnswers(u, s.chars[ch].id, arg) <==> IsPrefix(arg, s.chars[ch].name))
  {
    var s1, g := InviteStart(s, ch, victim);
    var u := Tick(Invite(s, ch, victim), ticks);
    InviteToOutcome(s1, g, ch, victim);
    InvitedLater(s, ch, victim, ticks);
    InvitationDeclined(s, ch, victim, arg, u);
    InvitationCleared(s1, victim, s1.chars[ch].id, s1.groups[g].id, ticks);
  }

  lemma InvitationDeclined(s: State, ch: Addr, victim: Addr, arg: string, u: State)
    requires ch in s.chars && victim in s.chars && Invited(s, ch, victim, u)
    ensures Decline(u, victim, arg) == (
      if u.chars[victim].inviteExpires > u.now && (arg == "" || PlayerAnswers(u, s.chars[ch].id, arg))
      then ClearInvite(u, victim) else u)
    ensures !s.chars[ch].npc ==> (PlayerAnswers(u, s.chars[ch].id, arg) <==> IsPrefix(arg, s.chars[ch].name))
  {
    var id := s.chars[ch].id;
    assert NULL !in u.groups;
    FindPlayerSound(u, id);
    IdFindPlayerSound(u.chars, u.loadedChars, id);
    assert !s.chars[ch].npc ==> forall q :: q in u.chars && !u.chars[q].npc && u.chars[q].id == id ==> q == ch;
  }

  lemma InvitationCleared(s: State, victim: Addr, inviter: nat, groupId: nat, ticks: nat)
    requires victim in s.chars && !s.chars[victim].npc
    ensures var c := s.chars[victim].(inviter := inviter, inviteGroup := groupId, inviteExpires := s.now + PENDING_TTL);
      ClearInvite(Tick(SetChar(s, victim, c), ticks), victim) == ClearInvite(Tick(s, ticks), victim)
  {
    var c := s.chars[victim].(inviter := inviter, inviteGroup := groupId, inviteExpires := s.now + PENDING_TTL);
    assert s.chars[victim := c][victim := ClearInviteState(c)] == s.chars[victim := ClearInviteState(s.chars[victim])];
  }

  // ----- A request, and accepting it

  /** Nobody in the queue answers to the name. */
  ghost predicate NameFree(requests: seq<Request>, name: string) {
    name != "" && forall r :: r in requests ==> !IsPrefix(name, r.name)
  }

  /** The search by name reads the queue from the front. */
  lemma {:induction false} FindAppend(requests: seq<Request>, entry: Request, name: string)
    ensures FindRequest(requests + [entry], name) == (
      if FindRequest(requests, name).Some? then FindRequest(requests, name)
      else if name != "" && IsPrefix(name, entry.name) then Some(entry) else None)
    ensures name != "" ==> (FindRequest(requests, name).None? <==> NameFree(requests, name))
  {
    if requests == [] {
      assert requests + [entry] == [entry] && [entry][1..] == [];
    } else {
      assert requests == [requests[0]] + requests[1..] && (requests + [entry])[1..] == requests[1..] + [entry];
      FindAppend(requests[1..], entry, name);
    }
  }

  /** The queue of an acting leader's group, or of the group it is about to have. */
  function QueueOf(s: State, ch: Addr): seq<Request>
    requires ch in s.chars
  {
    if s.chars[ch].group in s.groups then s.groups[s.chars[ch].group].requests else []
  }

  /** What the request arm asks of the player, of the leader and of its queue, where no request is pending elsewhere. */
  ghost predicate MayRequest(s: State, ch: Addr, leader: Addr) {
    && ch in s.chars && leader in s.chars && ch != leader && !s.chars[ch].npc && !s.chars[leader].npc
    && ActorIsLeader(s, leader) && !SameParty(s, ch, leader) && !MountPair(s, ch, leader)
    && !HasActiveRequest(s, ch)
    && !HasRequest(Unexpired(QueueOf(s, leader), s.now), s.chars[ch].id)
    && |Unexpired(QueueOf(s, leader), s.now)| < 10
  }

  function NewRequest(s: State, ch: Addr): Request
    requires ch in s.chars
  {
    Request(s.chars[ch].id, s.chars[ch].name, s.now + 60)
  }

  lemma CreatedQueue(s: State, ch: Addr)
    requires Inv(s) && ActorIsLeader(s, ch)
    ensures var (t, g) := Create(s, ch, false);
      g in t.groups && t.groups[g].requests == QueueOf(s, ch)
  {
    if s.chars[ch].group !in s.groups {
      FoundedGroup(s, ch, false);
    }
  }

  /** The request arm with the leader's group at hand. */
  lemma RequestStart(s: State, ch: Addr, leader: Addr) returns (s1: State, g: Addr)
    requires Inv(s) && MayRequest(s, ch, leader)
    ensures (s1, g) == Create(s, leader, false) && s1.now == s.now && RequestJoin(s, ch, leader) == RequestOf(s1, g, ch)
    ensures Leads(s1, leader, g) && |s1.groups[g].members| == PartySize(s, leader) && SameNature(s.chars[leader], s1.chars[leader])
    ensures s1.groups[g].requests == QueueOf(s, leader) && ch in s1.chars && s1.chars[ch] == s.chars[ch]
  {
    s1, g := Create(s, leader, false).0, Create(s, leader, false).1;
    SameGroupMeaning(s, ch, leader);
    CreateNature(s, leader, false);
    CreatedSize(s, leader);
    CreatedQueue(s, leader);
    CreateStays(s, leader, false, ch);
  }

  lemma RequestedIn(s: State, s1: State, g: Addr, leader: Addr, ch: Addr, t: State)
    requires MayRequest(s, ch, leader) && s1.now == s.now && Leads(s1, leader, g) && |s1.groups[g].members| == PartySize(s, leader)
    requires s1.groups[g].requests == QueueOf(s, leader) && ch in s1.chars && s1.chars[ch] == s.chars[ch]
    requires SameNature(s.chars[leader], s1.chars[leader]) && t == RequestOf(s1, g, ch)
    ensures Leads(t, leader, g) && |t.groups[g].members| == PartySize(s, leader) && SameNature(s.chars[leader], t.chars[leader])
    ensures t.groups[g].requests == Unexpired(QueueOf(s, leader), s.now) + [NewRequest(s, ch)]
    ensures ch in t.chars && SameNature(s.chars[ch], t.chars[ch]) && t.chars[ch].group == s.chars[ch].group && t.now == s.now
    ensures t.chars[ch].requestGroup == t.groups[g].id && t.chars[ch].requestExpires == s.now + PENDING_TTL
  {
    RequestOfOutcome(s1, g, leader, ch, t);
  }

  /** A request that may be made is queued last, behind the unexpired ones, and remembered. */
  lemma RequestOutcome(s: State, ch: Addr, leader: Addr)
    requires Inv(s) && MayRequest(s, ch, leader)
    ensures var t := RequestJoin(s, ch, leader);
      && leader in t.chars && t.chars[leader].group == Create(s, leader, false).1 && Leads(t, leader, t.chars[leader].group)
      && |t.groups[t.chars[leader].group].members| == PartySize(s, leader)
      && t.groups[t.chars[leader].group].requests == Unexpired(QueueOf(s, leader), s.now) + [NewRequest(s, ch)]
      && SameNature(s.chars[leader], t.chars[leader])
      && ch in t.chars && SameNature(s.chars[ch], t.chars[ch]) && t.chars[ch].group == s.chars[ch].group && t.now == s.now
      && t.chars[ch].requestGroup == t.groups[t.chars[leader].group].id && t.chars[ch].requestExpires == s.now + 60
  {
    var s1, g := RequestStart(s, ch, leader);
    var t := RequestJoin(s, ch, leader);
    RequestedIn(s, s1, g, leader, ch, t);
    assert t.chars[leader].group == g;
  }

  lemma RequestOfOutcome(s: State, g: Addr, leader: Addr, ch: Addr, t: State)
    requires Leads(s, leader, g) && ch in s.chars && ch != leader && !HasActiveRequest(s, ch)
    requires !HasRequest(Unexpired(s.groups[g].requests, s.now), s.chars[ch].id)
    requires |Unexpired(s.groups[g].requests, s.now)| < PENDING_MAX && t == RequestOf(s, g, ch)
    ensures
      && Leads(t, leader, g) && t.chars[leader] == s.chars[leader] && t.now == s.now
      && t.groups[g] == s.groups[g].(requests := Unexpired(s.groups[g].requests, s.now) + [NewRequest(s, ch)])
      && ch in t.chars
      && t.chars[ch] == s.chars[ch].(requestGroup := s.groups[g].id, requestExpires := s.now + PENDING_TTL)
  {
    assert RequestOf(s, g, ch) == Enqueue(RemoveExpired(s, g, false), g, ch);
  }

  /** Whoever has an unexpired request with a group stands in its queue, unexpired. */
  lemma ActiveIsQueued(s: State, ch: Addr, g: Addr)
    requires Inv(s) && HasActiveRequest(s, ch) && g in s.groups && s.chars[ch].requestGroup == s.groups[g].id
    ensures HasRequest(Unexpired(s.groups[g].requests, s.now), s.chars[ch].id)
  {
    assert CharOk(s, ch) && QueueOk(s, g);
    var requests, id := s.groups[g].requests, s.chars[ch].id;
    assert HasEntry(requests, id, s.chars[ch].requestExpires);
    var i :| 0 <= i < |requests| && requests[i].requester == id && requests[i].expires == s.chars[ch].requestExpires;
    UnexpiredSound(requests, s.now);
    assert requests[i] in Unexpired(requests, s.now);
  }

  /** Any other request leaves the player's record as it was. */
  lemma RequestRefused(s: State, ch: Addr, leader: Addr)
    requires Inv(s) && ch in s.chars && !MayRequest(s, ch, leader)
    ensures var t := RequestJoin(s, ch, leader);
      && ch in t.chars && t.chars[ch].requestGroup == s.chars[ch].requestGroup
      && t.chars[ch].requestExpires == s.chars[ch].requestExpires
  {
    if leader in s.chars && leader != ch && ActorIsLeader(s, leader) {
      var (s1, g) := Create(s, leader, false);
      CreateInv(s, leader, false);
      SameGroupMeaning(s, ch, leader);
      CreatedQueue(s, leader);
      CreateStays(s, leader, false, ch);
      CreateNature(s, leader, false);
      if HasActiveRequest(s1, ch) && s1.chars[ch].requestGroup == s1.groups[g].id {
        ActiveIsQueued(s1, ch, g);
      }
      RefusedIn(s1, g, ch);
    }
  }

  lemma RefusedIn(s: State, g: Addr, ch: Addr)
    requires g in s.groups && ch in s.chars
    ensures var live := Unexpired(s.groups[g].requests, s.now);
      (|| (HasActiveRequest(s, ch) && s.chars[ch].requestGroup != s.groups[g].id)
       || HasRequest(live, s.chars[ch].id)
       || |live| >= PENDING_MAX) ==> RequestOf(s, g, ch).chars == s.chars
  {
  }

  /** Expiry leaves a group led as it was, and changes nobody's group or nature. */
  lemma RemoveExpiredLeads(s: State, ch: Addr, g: Addr)
    requires Inv(s) && Leads(s, ch, g)
    ensures var t := RemoveExpired(s, g, true);
      Leads(t, ch, g) && t.groups[g].members == s.groups[g].members
      && forall c :: c in s.chars ==> c in t.chars && t.chars[c].npc == s.chars[c].npc && t.chars[c].id == s.chars[c].id
  {
    RemoveExpiredStays(s, g);
    var t := RemoveExpired(s, g, true);
    assert t.chars[ch] == ExpireChar(s.groups[g], s.now, s.chars[ch]);
  }

  /** Taking the player behind an entry: in, exactly if there is room. */
  lemma AdmitOutcome(s: State, g: Addr, leader: Addr, ch: Addr)
    requires Inv(s) && Leads(s, leader, g) && ch in s.chars && !s.chars[ch].npc && s.chars[ch].group != g
    ensures var t := AdmitRequester(s, g, leader, s.chars[ch].id);
      ch in t.chars && (t.chars[ch].group == g <==> |s.groups[g].members| <= FOLLOWER_CAP)
  {
    FindPlayerSound(s, s.chars[ch].id);
    JoinBehind(s, ch, leader);
    var (s1, ok) := AddGrouped(s, ch, leader);
    if ok {
      SettledStays(s1, g, s.chars[ch].id, ch);
      assert AdmitRequester(s, g, leader, s.chars[ch].id) == Settled(s1, g, s.chars[ch].id, ch);
    }
  }

  lemma {:induction false} UnexpiredTwice(requests: seq<Request>, now: nat, later: nat)
    requires now <= later
    ensures Unexpired(Unexpired(requests, now), later) == Unexpired(requests, later)
  {
    if requests == [] {
    } else {
      var rest := Unexpired(requests[1..], now);
      UnexpiredTwice(requests[1..], now, later);
      assert ([requests[0]] + rest)[1..] == rest;
    }
  }

  /** The queue some ticks after a request, and the entry a name finds there. */
  lemma EntryThere(queue: seq<Request>, entry: Request, name: string, now: nat, later: nat)
    requires IsPrefix(name, entry.name) && now <= later
    ensures var still, r := Unexpired(queue, later), FindRequest(Unexpired(Unexpired(queue, now) + [entry], later), name);
      && (name != "" ==> (FindRequest(still, name).None? <==> NameFree(still, name)))
      && r == if FindRequest(still, name).Some? then FindRequest(still, name)
              else if name != "" && entry.expires > later then Some(entry) else None
  {
    UnexpiredTwice(queue, now, later);
    UnexpiredAppend(Unexpired(queue, now), entry, later);
    FindAppend(Unexpired(queue, later), entry, name);
  }

  /** The entry a leader's accept or decline of a name is about: the first unexpired one that answers to it. */
  function NamedEntry(s: State, g: Addr, name: string): Option<Request>
    requires g in s.groups
  {
    FindRequest(Unexpired(s.groups[g].requests, s.now), name)
  }

  /** The player p is the one behind the entry that the name finds. */
  ghost predicate Answers(s: State, g: Addr, name: string, p: Addr)
    requires g in s.groups && p in s.chars
  {
    NamedEntry(s, g, name).Some? && !s.chars[p].npc && NamedEntry(s, g, name).value.requester == s.chars[p].id
  }

  lemma LeaderHasNoInvite(s: State, leader: Addr, g: Addr)
    requires Inv(s) && Leads(s, leader, g)
    ensures ActorIsLeader(s, leader) && !HasActiveInvite(s, leader)
  {
    assert CharOk(s, leader);
    LeadsActs(s, leader, g);
  }

  lemma AdmitElse(s: State, g: Addr, leader: Addr, id: nat, p: Addr)
    requires Inv(s) && Leads(s, leader, g) && p in s.chars && s.chars[p].group != g
    requires s.chars[p].npc || s.chars[p].id != id
    ensures var t := AdmitRequester(s, g, leader, id); p in t.chars && t.chars[p].group != g
  {
    FindPlayerSound(s, id);
    var q := FindPlayer(s, id);
    if q in s.chars {
      var (s1, ok) := AddGrouped(s, q, leader);
      AddGroupedWithGroup(s, q, leader);
      SettledStays(s1, g, id, q);
      assert AdmitRequester(s, g, leader, id) == if ok then Settled(s1, g, id, q) else s1;
    }
  }

  /**
   Who comes into a leader's group by its accepting a name, exactly: the player behind the first unexpired entry
   that answers to the name, if there is room. The player need not be ungrouped: one who has joined another group
   since it asked is taken out of that group.
   */
  lemma AcceptMoves(s: State, leader: Addr, g: Addr, name: string, p: Addr)
    requires Inv(s) && Leads(s, leader, g) && p in s.chars && s.chars[p].group != g
    ensures var t := Accept(s, leader, name);
      p in t.chars
      && (t.chars[p].group == g <==> Answers(s, g, name, p) && |s.groups[g].members| <= 9)
      && (t.chars[p].group == g && s.chars[p].group in t.groups ==> p !in t.groups[s.chars[p].group].members)
  {
    var s1 := RemoveExpired(s, g, true);
    LeaderHasNoInvite(s, leader, g);
    RemoveExpiredInv(s, g, true);
    RemoveExpiredStays(s, g);
    RemoveExpiredLeads(s, leader, g);
    AcceptInv(s, leader, name);
    AcceptUnfolds(s, leader, g, name);
    if name != "" && NamedEntry(s, g, name).Some? {
      var id := NamedEntry(s, g, name).value.requester;
      if Answers(s, g, name, p) {
        AdmitOutcome(s1, g, leader, p);
      } else {
        AdmitElse(s1, g, leader, id, p);
      }
    }
    NotInBoth(Accept(s, leader, name), s.chars[p].group, p);
  }

  lemma SyncKeepsMasters(s: State, g: Addr)
    ensures forall c :: c in s.chars ==> c in Sync(s, g).chars && Sync(s, g).chars[c].master == s.chars[c].master
    ensures Sync(s, g).now == s.now
  {
  }

  lemma JoiningElsewhere(s: State, g: Addr, ch: Addr)
    requires g in s.groups && ch in s.chars
    ensures var t := Sync(Joining(s, g, ch), g);
      t.now == s.now && forall c :: c in s.chars ==> c in t.chars && t.chars[c].master == s.chars[c].master
  {
    SyncKeepsMasters(Joining(s, g, ch), g);
  }

  /** Joining a group leaves every group alone that the character does not come from, and changes no master. */
  lemma AddElsewhere(s: State, g: Addr, ch: Addr, h: Addr, c: Addr)
    requires Inv(s) && g in s.groups && h in s.groups && h != g && ch in s.chars && s.chars[ch].group !in {g, h} && c in s.chars
    ensures var t := AddMember(s, g, ch).0;
      h in t.groups && t.groups[h] == s.groups[h] && t.now == s.now && c in t.chars && t.chars[c].master == s.chars[c].master
  {
    var s1 := RemoveMember(s, ch, true);
    AddUnfolds(s, g, ch);
    RemoveOthers(s, ch, h);
    RemoveOnlyLeaves(s, ch);
    RemoveKeepsTime(s, ch);
    JoiningGroupsFrame(s1, g, ch);
    JoiningElsewhere(s1, g, ch);
  }

  lemma RemoveKeepsTime(s: State, ch: Addr)
    ensures RemoveMember(s, ch, true).now == s.now
  {
  }

  /** Where add_grouped puts ch behind other: into the group of the other, founded for it if it has none. */
  lemma FoundElsewhere(s: State, ch: Addr, other: Addr, leader: Addr, g: Addr)
    requires Inv(s) && Leads(s, leader, g) && ch in s.chars && other in s.chars
    requires s.chars[ch].group != g && s.chars[other].group != g
    ensures var (s1, h) := Create(s, other, s.chars[other].npc);
      && Inv(s1) && h in s1.groups && h != g && g in s1.groups && s1.groups[g] == s.groups[g] && s1.now == s.now
      && leader in s1.chars && s1.chars[leader] == s.chars[leader]
      && ch in s1.chars && s1.chars[ch].group != g && s1.chars[ch].npc == s.chars[ch].npc && s1.chars[ch].id == s.chars[ch].id
  {
    var npc := s.chars[other].npc;
    CreateInv(s, other, npc);
    CreateStays(s, other, npc, leader);
    if s.chars[other].group !in s.groups {
      FoundedGroup(s, other, npc);
    }
    if ch != other {
      CreateStays(s, other, npc, ch);
    }
  }

  lemma AddLeavesLeader(s: State, h: Addr, ch: Addr, leader: Addr, g: Addr)
    requires Inv(s) && Leads(s, leader, g) && ch in s.chars && h in s.groups && h != g && s.chars[ch].group !in {g, h}
    ensures var u := AddMember(s, h, ch).0;
      Leads(u, leader, g) && u.groups[g] == s.groups[g] && u.now == s.now && ch in u.chars && u.chars[ch].group != g
  {
    AddElsewhere(s, h, ch, g, leader);
    AddInv(s, h, ch);
    LeaderStays(s, AddMember(s, h, ch).0, leader, g);
  }

  /** A join of others elsewhere: the leader's group, queue included, is as it was. */
  lemma GroupUntouched(s: State, ch: Addr, other: Addr, leader: Addr, g: Addr)
    requires Inv(s) && Leads(s, leader, g) && ch in s.chars && other in s.chars
    requires s.chars[ch].group != g && s.chars[other].group != g
    ensures var u := AddGrouped(s, ch, other).0;
      && Leads(u, leader, g) && u.groups[g] == s.groups[g] && u.now == s.now && ch in u.chars && u.chars[ch].group != g
  {
    var (s1, h) := Create(s, other, s.chars[other].npc);
    FoundElsewhere(s, ch, other, leader, g);
    if s1.chars[ch].group != h {
      AddLeavesLeader(s1, h, ch, leader, g);
    }
    AddGroupedEnds(s, ch, other);
  }

  lemma LeaderStays(s: State, t: State, leader: Addr, g: Addr)
    requires Leads(s, leader, g) && Inv(t) && g in t.groups && t.groups[g] == s.groups[g]
    requires leader in t.chars && t.chars[leader].master == s.chars[leader].master
    ensures Leads(t, leader, g)
  {
    assert Led(t, g) && Roster(t, g);
  }

  lemma FoundingClears(s: State, ch: Addr, npc: bool)
    requires Inv(s) && ch in s.chars
    ensures var (s1, h) := Create(s, ch, npc);
      ch in s1.chars && s1.chars[ch].group == h && (h != s.chars[ch].group ==> NothingPending(s1.chars[ch]))
  {
    CreateInv(s, ch, npc);
    if s.chars[ch].group !in s.groups {
      CreateUnfolds(s, ch, npc);
      JoiningFrame(Founding(s, ch, npc), s.nextGroup, ch);
    }
  }

  lemma AddClears(s: State, h: Addr, ch: Addr)
    requires Inv(s) && h in s.groups && ch in s.chars
    ensures var t := AddMember(s, h, ch).0;
      ch in t.chars && if s.chars[ch].group == h then t == s else NothingPending(t.chars[ch])
  {
    if s.chars[ch].group != h {
      AddFrame(s, h, ch);
    }
  }

  /** A character that add_grouped puts into a group has no invitation and no request of its own left. */
  lemma JoinClears(s: State, ch: Addr, other: Addr)
    requires Inv(s) && ch in s.chars && other in s.chars
    ensures var u := AddGrouped(s, ch, other).0;
      ch in u.chars && (u.chars[ch].group != s.chars[ch].group ==> NothingPending(u.chars[ch]))
  {
    var npc := s.chars[other].npc;
    var (s1, h) := Create(s, other, npc);
    AddGroupedEnds(s, ch, other);
    CreateInv(s, other, npc);
    AddClears(s1, h, ch);
    if ch == other {
      FoundingClears(s, ch, npc);
    } else {
      CreateStays(s, other, npc, ch);
    }
  }

  /**
   A queue entry outlives the record of the player who made it. Joining another group, whichever, clears the record
   and leaves the entry, and the leader who then accepts it takes the player out of that group if there is room.
   */
  lemma EntryOutlivesJoin(s: State, leader: Addr, g: Addr, name: string, ch: Addr, other: Addr)
    requires Inv(s) && Leads(s, leader, g) && ch in s.chars && Answers(s, g, name, ch)
    requires other in s.chars && s.chars[ch].group != g && s.chars[other].group != g
    ensures var u := AddGrouped(s, ch, other).0;
      var t := Accept(u, leader, name);
      && g in u.groups && u.groups[g] == s.groups[g] && ch in u.chars && u.chars[ch].group != g && ch in t.chars
      && (u.chars[ch].group != s.chars[ch].group ==> !HasActiveRequest(u, ch))
      && (t.chars[ch].group == g <==> |s.groups[g].members| <= 9)
      && (t.chars[ch].group == g && u.chars[ch].group in t.groups ==> ch !in t.groups[u.chars[ch].group].members)
  {
    var u := AddGrouped(s, ch, other).0;
    AddGroupedInv(s, ch, other);
    GroupUntouched(s, ch, other, leader, g);
    JoinClears(s, ch, other);
    AcceptMoves(u, leader, g, name, ch);
  }

  lemma NotInBoth(s: State, h: Addr, p: Addr)
    requires Inv(s) && p in s.chars
    ensures h in s.groups && s.chars[p].group != h ==> p !in s.groups[h].members
  {
    if h in s.groups {
      assert Roster(s, h);
    }
  }

  lemma AcceptUnfolds(s: State, leader: Addr, g: Addr, name: string)
    requires Inv(s) && Leads(s, leader, g)
    ensures Accept(s, leader, name) == (
      if name == "" then s
      else if NamedEntry(s, g, name).None? then RemoveExpired(s, g, true)
      else AdmitRequester(RemoveExpired(s, g, true), g, leader, NamedEntry(s, g, name).value.requester))
  {
    LeaderHasNoInvite(s, leader, g);
  }

  /** Some ticks after ch's request the leader of g may answer it: what the request has left behind. */
  ghost predicate Standing(s: State, ch: Addr, leader: Addr, u: State, g: Addr)
    requires ch in s.chars && leader in s.chars
  {
    && Inv(u) && Leads(u, leader, g) && u.chars[leader].group == g && |u.groups[g].members| == PartySize(s, leader)
    && u.now >= s.now && u.groups[g].requests == Unexpired(QueueOf(s, leader), s.now) + [NewRequest(s, ch)]
    && ch in u.chars && SameNature(s.chars[ch], u.chars[ch]) && u.chars[ch].group != g
    && u.chars[ch].requestGroup == u.groups[g].id && u.chars[ch].requestExpires == s.now + PENDING_TTL
  }

  lemma Asked(s: State, ch: Addr, leader: Addr, ticks: nat, u: State) returns (g: Addr)
    requires Inv(s) && MayRequest(s, ch, leader) && u == Tick(RequestJoin(s, ch, leader), ticks)
    ensures leader in u.chars && g == u.chars[leader].group && u.now == s.now + ticks && Standing(s, ch, leader, u, g)
  {
    RequestJoinInv(s, ch, leader);
    TickInv(RequestJoin(s, ch, leader), ticks);
    RequestOutcome(s, ch, leader);
    NotTogether(s, ch, leader);
    g := u.chars[leader].group;
  }

  /** An entry that stood before the request is not the requester's own. */
  lemma OthersFirst(s: State, ch: Addr, leader: Addr, later: nat, name: string)
    requires Inv(s) && MayRequest(s, ch, leader) && s.now <= later
    ensures var found := FindRequest(Unexpired(QueueOf(s, leader), later), name);
      found.Some? ==> found.value.requester != s.chars[ch].id
  {
    var still := Unexpired(QueueOf(s, leader), later);
    if FindRequest(still, name).Some? {
      FindRequestSound(still, name);
      StillLive(s, leader, later, FindRequest(still, name).value);
    }
  }

  lemma StillLive(s: State, leader: Addr, later: nat, r: Request)
    requires Inv(s) && leader in s.chars && s.now <= later && r in Unexpired(QueueOf(s, leader), later)
    ensures HasRequest(Unexpired(QueueOf(s, leader), s.now), r.requester)
  {
    var queue := QueueOf(s, leader);
    LiveDistinct(s, leader);
    UnexpiredSound(Unexpired(queue, s.now), later);
    UnexpiredTwice(queue, s.now, later);
    assert r in Unexpired(queue, s.now);
  }

  /** Its player answers to its own name exactly while it stands and nobody before it answers to that name. */
  lemma NewestAnswers(s: State, ch: Addr, leader: Addr, u: State, g: Addr)
    requires Inv(s) && MayRequest(s, ch, leader) && Standing(s, ch, leader, u, g)
    ensures Answers(u, g, s.chars[ch].name, ch)
      <==> s.now + PENDING_TTL > u.now && NameFree(Unexpired(QueueOf(s, leader), u.now), s.chars[ch].name)
  {
    OthersFirst(s, ch, leader, u.now, s.chars[ch].name);
    LastAnswers(u, g, QueueOf(s, leader), NewRequest(s, ch), ch, s.now);
  }

  lemma LastAnswers(s: State, g: Addr, queue: seq<Request>, entry: Request, p: Addr, asked: nat)
    requires g in s.groups && p in s.chars && !s.chars[p].npc && asked <= s.now
    requires s.groups[g].requests == Unexpired(queue, asked) + [entry]
    requires entry.requester == s.chars[p].id && entry.name == s.chars[p].name
    requires var found := FindRequest(Unexpired(queue, s.now), entry.name);
      found.Some? ==> found.value.requester != entry.requester
    ensures Answers(s, g, entry.name, p) <==> entry.expires > s.now && NameFree(Unexpired(queue, s.now), entry.name)
  {
    EntryThere(queue, entry, entry.name, asked, s.now);
  }

  /**
   A request gets the player in by its own name exactly if the leader accepts within sixty ticks, there is room, and
   no earlier entry still unexpired at that moment answers to the name; AcceptMoves says who gets in otherwise.
   */
  lemma RequestThenAccept(s: State, ch: Addr, leader: Addr, ticks: nat, u: State)
    requires Inv(s) && MayRequest(s, ch, leader) && u == Tick(RequestJoin(s, ch, leader), ticks)
    ensures var t := Accept(u, leader, s.chars[ch].name);
      && leader in u.chars && ch in t.chars
      && (t.chars[ch].group == u.chars[leader].group
          <==> && ticks < 60 && PartySize(s, leader) <= 9
               && NameFree(Unexpired(QueueOf(s, leader), u.now), s.chars[ch].name))
  {
    var g := Asked(s, ch, leader, ticks, u);
    AcceptedRequest(s, ch, leader, u, g);
  }

  lemma AcceptedRequest(s: State, ch: Addr, leader: Addr, u: State, g: Addr)
    requires Inv(s) && MayRequest(s, ch, leader) && Standing(s, ch, leader, u, g)
    ensures var t := Accept(u, leader, s.chars[ch].name);
      && ch in t.chars
      && (t.chars[ch].group == g
          <==> && s.now + PENDING_TTL > u.now && PartySize(s, leader) <= FOLLOWER_CAP
               && NameFree(Unexpired(QueueOf(s, leader), u.now), s.chars[ch].name))
  {
    NewestAnswers(s, ch, leader, u, g);
    AcceptMoves(u, leader, g, s.chars[ch].name, ch);
  }

  lemma DeclineUnfolds(s: State, leader: Addr, g: Addr, name: string)
    requires Inv(s) && Leads(s, leader, g)
    ensures Decline(s, leader, name) == (
      if name == "" then s
      else if NamedEntry(s, g, name).None? then RemoveExpired(s, g, true)
      else Reject(RemoveExpired(s, g, true), g, NamedEntry(s, g, name).value.requester))
  {
    LeaderHasNoInvite(s, leader, g);
  }

  /** Turning an id away ends the request of the player with that id and of nobody else. */
  lemma RejectOutcome(s: State, g: Addr, id: nat, p: Addr)
    requires Inv(s) && g in s.groups && p in s.chars && HasActiveRequest(s, p)
    ensures var t := Reject(s, g, id);
      p in t.chars && t.now == s.now && g in t.groups && (HasActiveRequest(t, p) <==> s.chars[p].id != id)
  {
    FindPlayerSound(s, id);
  }

  /** An unexpired request with a group survives the expiry of that group's queue. */
  lemma ExpiryKeepsActive(s: State, g: Addr, p: Addr)
    requires Inv(s) && g in s.groups && HasActiveRequest(s, p)
    ensures var t := RemoveExpired(s, g, true); p in t.chars && t.chars[p] == s.chars[p] && HasActiveRequest(t, p)
  {
    StillWaiting(s, p, g);
    assert RemoveExpired(s, g, true).chars[p] == ExpireChar(s.groups[g], s.now, s.chars[p]);
  }

  /** Whose pending request a leader ends by declining a name: exactly that of the player who answers to it. */
  lemma DeclineEnds(s: State, leader: Addr, g: Addr, name: string, p: Addr)
    requires Inv(s) && Leads(s, leader, g) && HasActiveRequest(s, p)
    ensures var t := Decline(s, leader, name); p in t.chars && (HasActiveRequest(t, p) <==> !Answers(s, g, name, p))
  {
    DeclineUnfolds(s, leader, g, name);
    ExpiryKeepsActive(s, g, p);
    RemoveExpiredInv(s, g, true);
    RemoveExpiredLeads(s, leader, g);
    if name != "" && NamedEntry(s, g, name).Some? {
      RejectOutcome(RemoveExpired(s, g, true), g, NamedEntry(s, g, name).value.requester, p);
    }
  }

  lemma DropHas(requests: seq<Request>, gone: nat, id: nat)
    requires RequesterIdsDistinct(requests)
    ensures HasRequest(DropRequester(requests, gone), id) <==> HasRequest(requests, id) && id != gone
  {
    var left := DropRequester(requests, gone);
    DropSound(requests, gone);
    if HasRequest(left, id) {
      var i :| 0 <= i < |left| && left[i].requester == id;
      assert left[i] in left;
      var j :| 0 <= j < |requests| && requests[j] == left[i];
    }
    if HasRequest(requests, id) && id != gone {
      var j :| 0 <= j < |requests| && requests[j].requester == id;
      assert requests[j] in left;
      var i :| 0 <= i < |left| && left[i] == requests[j];
    }
  }

  /** Who is still in a leader's queue after it declines a name: the unexpired, but the one who answers to it. */
  lemma DeclineQueue(s: State, leader: Addr, g: Addr, name: string, id: nat)
    requires Inv(s) && Leads(s, leader, g) && name != ""
    ensures var t, entry := Decline(s, leader, name), NamedEntry(s, g, name);
      g in t.groups
      && (HasRequest(t.groups[g].requests, id)
          <==> HasRequest(Unexpired(s.groups[g].requests, s.now), id) && !(entry.Some? && entry.value.requester == id))
  {
    DeclineUnfolds(s, leader, g, name);
    var live := Unexpired(s.groups[g].requests, s.now);
    assert QueueOk(s, g);
    UnexpiredSound(s.groups[g].requests, s.now);
    if NamedEntry(s, g, name).Some? {
      DropHas(live, NamedEntry(s, g, name).value.requester, id);
    }
  }

  /** A fresh entry stays in the queue until it expires. */
  lemma NewestQueued(live: seq<Request>, entry: Request, later: nat)
    requires RequesterIdsDistinct(live) && !HasRequest(live, entry.requester)
    ensures HasRequest(Unexpired(live + [entry], later), entry.requester) <==> entry.expires > later
  {
    var rest := Unexpired(live, later);
    UnexpiredSound(live, later);
    UnexpiredAppend(live, entry, later);
    forall i | 0 <= i < |rest| ensures rest[i].requester != entry.requester {
      assert rest[i] in live;
    }
    LastHas(rest, entry);
  }

  /**
   Declining by name ends a request, and takes it off the queue, exactly if it had expired or no earlier entry still
   unexpired answers to the name; a nameless player cannot be declined at all.
   */
  lemma RequestThenDecline(s: State, ch: Addr, leader: Addr, ticks: nat, u: State)
    requires Inv(s) && MayRequest(s, ch, leader) && u == Tick(RequestJoin(s, ch, leader), ticks)
    ensures var t, name := Decline(u, leader, s.chars[ch].name), s.chars[ch].name;
      var kept := ticks < 60 && !NameFree(Unexpired(QueueOf(s, leader), u.now), name);
      && leader in u.chars && ch in t.chars && (HasActiveRequest(t, ch) <==> kept)
      && u.chars[leader].group in t.groups
      && (HasRequest(t.groups[u.chars[leader].group].requests, s.chars[ch].id) <==> name == "" || kept)
  {
    var g := Asked(s, ch, leader, ticks, u);
    DeclinedRecord(s, ch, leader, u, g);
    DeclinedEntry(s, ch, leader, u, g);
  }

  lemma DeclinedRecord(s: State, ch: Addr, leader: Addr, u: State, g: Addr)
    requires Inv(s) && MayRequest(s, ch, leader) && Standing(s, ch, leader, u, g)
    ensures var name := s.chars[ch].name;
      var t := Decline(u, leader, name);
      && ch in t.chars
      && (HasActiveRequest(t, ch)
          <==> s.now + PENDING_TTL > u.now && !NameFree(Unexpired(QueueOf(s, leader), u.now), name))
  {
    NewestAnswers(s, ch, leader, u, g);
    GroupIdNonzero(u, g);
    if s.now + PENDING_TTL > u.now {
      DeclineEnds(u, leader, g, s.chars[ch].name, ch);
    } else {
      DeclineStartsNothing(u, leader, g, s.chars[ch].name, ch);
    }
  }

  lemma LastHas(requests: seq<Request>, entry: Request)
    ensures HasRequest(requests + [entry], entry.requester)
  {
    assert (requests + [entry])[|requests|] == entry;
  }

  lemma DeclinedEntry(s: State, ch: Addr, leader: Addr, u: State, g: Addr)
    requires Inv(s) && MayRequest(s, ch, leader) && Standing(s, ch, leader, u, g)
    ensures var name := s.chars[ch].name;
      var t := Decline(u, leader, name);
      && g in t.groups
      && (HasRequest(t.groups[g].requests, s.chars[ch].id)
          <==> name == "" || (s.now + PENDING_TTL > u.now && !NameFree(Unexpired(QueueOf(s, leader), u.now), name)))
  {
    var queue, entry := QueueOf(s, leader), NewRequest(s, ch);
    NewestAnswers(s, ch, leader, u, g);
    LiveDistinct(s, leader);
    NewestQueued(Unexpired(queue, s.now), entry, u.now);
    DeclinedLast(u, leader, g, ch, queue, entry, s.now);
  }

  lemma DeclinedLast(s: State, leader: Addr, g: Addr, p: Addr, queue: seq<Request>, entry: Request, asked: nat)
    requires Inv(s) && Leads(s, leader, g) && p in s.chars && !s.chars[p].npc && entry.requester == s.chars[p].id
    requires s.groups[g].requests == Unexpired(queue, asked) + [entry]
    requires Answers(s, g, entry.name, p) <==> entry.expires > s.now && NameFree(Unexpired(queue, s.now), entry.name)
    requires HasRequest(Unexpired(s.groups[g].requests, s.now), entry.requester) <==> entry.expires > s.now
    ensures var t := Decline(s, leader, entry.name);
      g in t.groups
      && (HasRequest(t.groups[g].requests, entry.requester)
          <==> entry.name == "" || (entry.expires > s.now && !NameFree(Unexpired(queue, s.now), entry.name)))
  {
    LastHas(Unexpired(queue, asked), entry);
    DeclinedOrNot(s, leader, g, entry.name, entry.requester);
  }

  /** The same, a nameless decline included, which is no decline. */
  lemma DeclinedOrNot(s: State, leader: Addr, g: Addr, name: string, id: nat)
    requires Inv(s) && Leads(s, leader, g) && HasRequest(s.groups[g].requests, id)
    ensures var t, entry := Decline(s, leader, name), NamedEntry(s, g, name);
      g in t.groups
      && (HasRequest(t.groups[g].requests, id)
          <==> name == "" || (HasRequest(Unexpired(s.groups[g].requests, s.now), id) && !(entry.Some? && entry.value.requester == id)))
  {
    DeclineUnfolds(s, leader, g, name);
    if name != "" {
      DeclineQueue(s, leader, g, name, id);
    }
  }

  lemma GroupIdNonzero(s: State, g: Addr)
    requires Inv(s) && g in s.groups
    ensures s.groups[g].id != 0
  {
  }

  lemma DeclineStartsNothing(s: State, leader: Addr, g: Addr, name: string, p: Addr)
    requires Inv(s) && Leads(s, leader, g) && p in s.chars && !HasActiveRequest(s, p)
    ensures var t := Decline(s, leader, name); p in t.chars && !HasActiveRequest(t, p)
  {
    DeclineUnfolds(s, leader, g, name);
    assert RemoveExpired(s, g, true).chars[p] == ExpireChar(s.groups[g], s.now, s.chars[p]);
  }

  lemma LiveDistinct(s: State, ch: Addr)
    requires Inv(s) && ch in s.chars
    ensures RequesterIdsDistinct(Unexpired(QueueOf(s, ch), s.now))
  {
    if s.chars[ch].group in s.groups {
      assert QueueOk(s, s.chars[ch].group);
      UnexpiredSound(QueueOf(s, ch), s.now);
    }
  }

  lemma NotTogether(s: State, ch: Addr, leader: Addr)
    requires Inv(s) && MayRequest(s, ch, leader)
    ensures s.chars[ch].group != Create(s, leader, false).1
  {
    assert CharOk(s, ch) && CharOk(s, leader);
    if s.chars[leader].group !in s.groups {
      FoundedGroup(s, leader, false);
    }
  }

  // ----- Promotion

  lemma {:induction false} FindMemberSound(chars: map<Addr, Char>, members: seq<Addr>, name: string)
    requires NULL !in chars
    ensures var m := FindMember(chars, members, name);
      if m == NULL then name == "" || forall x :: x in members && x in chars ==> !IsPrefix(name, chars[x].name)
      else m in members && m in chars && IsPrefix(name, chars[m].name)
  {
    if members == [] {
    } else {
      FindMemberSound(chars, members[1..], name);
    }
  }

  /** Promotion makes the named member leader exactly if it is another player; the members stay who they are. */
  lemma Promotion(s: State, ch: Addr, arg: string)
    requires Inv(s) && ActorIsLeader(s, ch) && s.chars[ch].group in s.groups
    ensures var g := s.chars[ch].group;
      var target, t := FindMember(s.chars, s.groups[g].members, arg), Promote(s, ch, arg);
      && g in t.groups && t.groups[g].members == s.groups[g].members
      && t.groups[g].leader == (
           if target in s.chars && target != ch && !s.chars[target].npc then target else s.groups[g].leader)
  {
    var g := s.chars[ch].group;
    var target := FindMember(s.chars, s.groups[g].members, arg);
    assert CharOk(s, ch) && Roster(s, g);
    FindMemberSound(s.chars, s.groups[g].members, arg);
    if arg != "" && target in s.chars && target != ch && !s.chars[target].npc {
      CrownedInv(s, g, target);
      SyncQuiet(Crowned(s, g, target), g);
      assert Promote(s, ch, arg) == Sync(Crowned(s, g, target), g);
    }
  }

  /** After a join behind a master the two are together. */
  lemma MasterKeepsGroup(s: State, ch: Addr, master: Addr)
    requires Inv(s) && ch in s.chars && master in s.chars && ch != master
    ensures var (t, ok) := AddGrouped(s, ch, master);
      ok ==> ch in t.chars && master in t.chars && t.chars[ch].group == t.chars[master].group != NULL
  {
    var (t, ok) := AddGrouped(s, ch, master);
    AddGroupedInv(s, ch, master);
    assert CharOk(s, ch) && CharOk(s, master);
    if ok && s.chars[master].group in s.groups && s.chars[ch].group != s.chars[master].group {
      var g := s.chars[master].group;
      JoinBehind(s, ch, master);
      assert Roster(s, g);
      assert master in t.groups[g].members && Roster(t, g);
    } else if ok && s.chars[master].group !in s.groups {
      JoinLoner(s, ch, master);
      assert master in t.groups[s.nextGroup].members && Roster(t, s.nextGroup);
    }
  }

  // ----- Following, the bare command, and the periodic update

  /** A masterless character that starts following leaves its group; nobody else's master changes. */
  lemma FollowOutcome(s: State, ch: Addr, master: Addr)
    requires Inv(s) && ch in s.chars && master in s.chars && s.chars[ch].master == NULL
    ensures var t := AddFollower(s, ch, master);
      ch in t.chars && t.chars[ch].master == master && t.chars[ch].group == NULL
      && forall c :: c in s.chars && c != ch ==> c in t.chars && t.chars[c].master == s.chars[c].master
  {
    var d := s.chars[ch].(master := master);
    assert CharOk(s, ch);
    TouchInv(s, ch, d);
    var s1 := SetChar(s, ch, d);
    StopGroupedInv(s1, ch);
    RemoveOnlyLeaves(s1, ch);
  }

  /** The bare command takes a companion out, and a follower in exactly if there is room. */
  lemma ToggleOutcome(s: State, ch: Addr, victim: Addr)
    requires Inv(s) && ch in s.chars && victim in s.chars && victim != ch && s.chars[victim].master == ch
    requires ActorIsLeader(s, ch) && !s.chars[ch].charmed && !s.chars[victim].charmed
    ensures var t := Toggle(s, ch, victim);
      && ch in t.chars && victim in t.chars
      && (if SameParty(s, victim, ch) || MountPair(s, victim, ch) then t.chars[victim].group == NULL
          else t.chars[victim].group != NULL && t.chars[victim].group == t.chars[ch].group <==> PartySize(s, ch) <= 9)
  {
    SameGroupMeaning(s, victim, ch);
    if SameParty(s, victim, ch) || MountPair(s, victim, ch) {
      StopGroupedInv(s, victim);
      assert Toggle(s, ch, victim) == StopGrouped(s, victim);
    } else {
      assert Toggle(s, ch, victim) == AddGrouped(s, victim, ch).0;
      AddGroupedInv(s, victim, ch);
      RoomBehind(s, victim, ch);
      MasterKeepsGroup(s, victim, ch);
    }
  }

  /**
   The bare command refuses: one who follows somebody, or is in a group it does not lead; about anybody who does not
   follow it, or itself; and wherever one of the two is charmed. Then nothing changes.
   */
  lemma ToggleRefused(s: State, ch: Addr, victim: Addr)
    requires Inv(s) && ch in s.chars && victim in s.chars
    requires || s.chars[ch].master != NULL
             || (s.chars[ch].group in s.groups && s.groups[s.chars[ch].group].leader != ch)
             || s.chars[victim].master != ch || victim == ch
             || s.chars[ch].charmed || s.chars[victim].charmed
    ensures Toggle(s, ch, victim) == s
  {
    assert CharOk(s, ch);
    if s.chars[ch].group in s.groups {
      assert Roster(s, s.chars[ch].group) && LegacyOk(s, s.chars[ch].group);
    }
  }

  lemma RoomBehind(s: State, ch: Addr, leader: Addr)
    requires Inv(s) && ch in s.chars && ActorIsLeader(s, leader) && ch != leader && !SameParty(s, ch, leader)
    ensures var (t, ok) := AddGrouped(s, ch, leader);
      (ok <==> PartySize(s, leader) <= FOLLOWER_CAP) && (!ok ==> t == s)
  {
    assert CharOk(s, ch) && CharOk(s, leader);
    if s.chars[leader].group in s.groups {
      ActorLeads(s, leader);
      JoinBehind(s, ch, leader);
    } else {
      JoinLoner(s, ch, leader);
    }
  }

  // ----- The periodic update

  /** An unexpired request is not told that it has expired: its player has only one entry. */
  lemma StillWaiting(s: State, ch: Addr, g: Addr)
    requires Inv(s) && g in s.groups && HasActiveRequest(s, ch)
    ensures s.chars[ch].requestGroup == s.groups[g].id ==> !HasExpired(s.groups[g].requests, s.now, s.chars[ch].id)
  {
    if s.chars[ch].requestGroup == s.groups[g].id {
      assert CharOk(s, ch) && QueueOk(s, g);
      EntryOf(s, g, ch);
    }
  }

  lemma OwnOutcome(s: State, ch: Addr)
    requires ch in s.chars && !s.chars[ch].npc
    ensures var c, d := s.chars[ch], ExpireOwn(s, ch).chars[ch];
      && !(0 < d.inviteExpires <= s.now) && !(0 < d.requestExpires <= s.now)
      && (c.inviteExpires > s.now ==> InviteOf(d) == InviteOf(c))
      && (c.requestExpires > s.now ==> d.requestGroup == c.requestGroup && d.requestExpires == c.requestExpires)
      && SameNature(c, d) && SameStanding(c, d)
  {
  }

  /** group_pending_update, read as two steps. */
  lemma PendingUnfolds(s: State, ch: Addr)
    requires ch in s.chars && !s.chars[ch].npc
    ensures PendingUpdate(s, ch) ==
      if ActorIsLeader(s, ch) && s.chars[ch].group in s.groups then RemoveExpired(ExpireOwn(s, ch), s.chars[ch].group, true)
      else ExpireOwn(s, ch)
  {
    OwnOutcome(s, ch);
    assert ActorIsLeader(ExpireOwn(s, ch), ch) == ActorIsLeader(s, ch);
  }

  /** Afterwards nothing of the player's own has expired, and nothing unexpired is lost. */
  lemma PendingUpdateOutcome(s: State, ch: Addr)
    requires Inv(s) && ch in s.chars && !s.chars[ch].npc
    ensures var t := PendingUpdate(s, ch);
      && ch in t.chars && !(0 < t.chars[ch].inviteExpires <= s.now) && !(0 < t.chars[ch].requestExpires <= s.now)
      && (s.chars[ch].inviteExpires > s.now ==> InviteOf(t.chars[ch]) == InviteOf(s.chars[ch]))
      && (HasActiveRequest(s, ch) ==> HasActiveRequest(t, ch))
  {
    var u, g := ExpireOwn(s, ch), s.chars[ch].group;
    PendingUnfolds(s, ch);
    OwnOutcome(s, ch);
    if ActorIsLeader(s, ch) && g in s.groups {
      assert PendingUpdate(s, ch).chars[ch] == ExpireChar(u.groups[g], u.now, u.chars[ch]);
      if HasActiveRequest(s, ch) {
        StillWaiting(s, ch, g);
      }
    }
  }

  /** The queue of a leader is clean afterwards, and no other queue has changed. */
  lemma PendingUpdateQueues(s: State, ch: Addr, g: Addr)
    requires Inv(s) && ch in s.chars && !s.chars[ch].npc && g in s.groups
    ensures var t := PendingUpdate(s, ch);
      g in t.groups && t.groups[g].requests == (
        if ActorIsLeader(s, ch) && s.chars[ch].group == g then Unexpired(s.groups[g].requests, s.now)
        else s.groups[g].requests)
  {
    PendingUnfolds(s, ch);
  }
}
