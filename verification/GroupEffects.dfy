/** What the commands leave behind besides membership: cleared records, and the kind of group that is founded. */
module GroupEffects {
  import opened GroupModel
  import opened GroupInvariants
  import opened GroupMembership
  import opened GroupCommands
  import opened GroupFollowing
  import opened GroupRuns
  import opened GroupFrames
  import opened GroupTheorems
  import opened GroupFacts
  import opened GroupOutcomes

  // ----- Invitations that no longer hold

  /** The player i still leads the group from which ch has its invitation. */
  ghost predicate Stands(s: State, ch: Addr, i: Addr)
    requires ch in s.chars
  {
    && i in s.chars && !s.chars[i].npc && s.chars[i].id == s.chars[ch].inviter && Leads(s, i, s.chars[i].group)
    && s.groups[s.chars[i].group].id == s.chars[ch].inviteGroup
  }

  /** A character with a clean invitation record, and otherwise as it was. */
  ghost predicate OnlyInviteCleared(s: State, t: State, ch: Addr)
    requires ch in s.chars
  {
    t == s.(chars := s.chars[ch := s.chars[ch].(inviter := 0, inviteGroup := 0, inviteExpires := 0)])
  }

  /**
   Accepting an invitation whose inviter no longer leads that group, or is by now the mount or the rider of the
   invited: the invitation is dropped, unless the name given is not the inviter's.
   */
  lemma InvitationDead(s: State, ch: Addr, arg: string)
    requires Inv(s) && HasActiveInvite(s, ch)
    requires forall i :: Stands(s, ch, i) ==> MountPair(s, ch, i)
    ensures if arg == "" || PlayerAnswers(s, s.chars[ch].inviter, arg) then OnlyInviteCleared(s, Accept(s, ch, arg), ch)
            else Accept(s, ch, arg) == s
  {
    var id := s.chars[ch].inviter;
    var i, g := FindPlayer(s, id), FindGroup(s, s.chars[ch].inviteGroup);
    assert CharOk(s, ch);
    FindPlayerSound(s, id);
    IdFindPlayerSound(s.chars, s.loadedChars, id);
    FindGroupInSound(s.groups, s.loadedGroups, s.chars[ch].inviteGroup);
    if i in s.chars && g in s.groups && s.chars[i].group == g && ActorIsLeader(s, i) {
      ActorLeads(s, i);
      assert Stands(s, ch, i);
      SameGroupMeaning(s, ch, i);
    }
  }

  // ----- The kind of group that is founded

  /**
   A new group has an id that no group had before, and that is the time unless ids have run ahead of the clock; it
   may do without players only if it was founded so.
   */
  lemma NewGroup(s: State, founder: Addr, allowNpcOnly: bool)
    requires Inv(s) && founder in s.chars && s.chars[founder].group !in s.groups
    ensures var (t, g) := Create(s, founder, allowNpcOnly);
      && g in t.groups && t.groups[g].allowNpcOnly == allowNpcOnly && (forall h :: h in s.groups ==> s.groups[h].id < t.groups[g].id)
      && t.groups[g].id == if s.lastPcId < s.now then s.now else s.lastPcId + 1
  {
    FoundedGroup(s, founder, allowNpcOnly);
    CreateUnfolds(s, founder, allowNpcOnly);
  }

  lemma AddKeepsKind(s: State, g: Addr, ch: Addr)
    requires Inv(s) && g in s.groups && ch in s.chars && s.chars[ch].group != g
    ensures var t := AddMember(s, g, ch).0;
      g in t.groups && t.groups[g].allowNpcOnly == s.groups[g].allowNpcOnly && t.groups[g].requests == s.groups[g].requests
  {
    AddUnfolds(s, g, ch);
  }

  /** A group founded behind an ungrouped master may do without players exactly if the master is an NPC. */
  lemma FoundedBehind(s: State, ch: Addr, master: Addr)
    requires Inv(s) && ch in s.chars && master in s.chars && s.chars[master].group !in s.groups && ch != master
    ensures var t := AddGrouped(s, ch, master).0;
      s.nextGroup in t.groups && t.groups[s.nextGroup].allowNpcOnly == s.chars[master].npc
  {
    var s1 := LonerStart(s, ch, master);
    FoundedGroup(s, master, s.chars[master].npc);
    AddKeepsKind(s1, s.nextGroup, ch);
  }

  /** A group founded by an invitation, or for a request, always needs a player. */
  lemma FoundedByCommand(s: State, ch: Addr, victim: Addr)
    requires Inv(s) && ActorIsLeader(s, ch) && victim in s.chars && victim != ch && s.chars[ch].group !in s.groups
    ensures var t := Invite(s, ch, victim); s.nextGroup in t.groups && !t.groups[s.nextGroup].allowNpcOnly
    ensures MayRequest(s, victim, ch) ==>
      var t := RequestJoin(s, victim, ch); s.nextGroup in t.groups && !t.groups[s.nextGroup].allowNpcOnly
  {
    FoundedGroup(s, ch, false);
    var s1, g := InviteStart(s, ch, victim);
    InviteToOutcome(s1, g, ch, victim);
    if MayRequest(s, victim, ch) {
      var s2, h := RequestStart(s, victim, ch);
      RequestOfOutcome(s2, h, ch, victim, RequestJoin(s, victim, ch));
    }
  }

  // ----- The queue after an accept

  /** Nobody with this id stands outside g for want of room. */
  ghost predicate Settles(s: State, g: Addr, id: nat)
    requires g in s.groups
  {
    forall p :: p in s.chars && !s.chars[p].npc && s.chars[p].id == id ==> s.chars[p].group == g || |s.groups[g].members| <= 9
  }

  lemma AdmitQueue(s: State, g: Addr, leader: Addr, id: nat)
    requires Inv(s) && Leads(s, leader, g)
    ensures var t := AdmitRequester(s, g, leader, id);
      g in t.groups && t.groups[g].requests ==
        if Settles(s, g, id) then DropRequester(s.groups[g].requests, id) else s.groups[g].requests
  {
    var p := FindPlayer(s, id);
    FindPlayerSound(s, id);
    IdFindPlayerSound(s.chars, s.loadedChars, id);
    if p in s.chars && s.chars[p].group != g {
      JoinBehind(s, p, leader);
      AddKeepsKind(s, g, p);
    }
  }

  /**
   Who is still in a leader's queue after it accepts a name: the unexpired, but the one who answers to it. That one
   stays only if it is online, outside the group, and the group full.
   */
  lemma AcceptQueue(s: State, leader: Addr, g: Addr, name: string, id: nat)
    requires Inv(s) && Leads(s, leader, g) && name != ""
    ensures var t, entry := Accept(s, leader, name), NamedEntry(s, g, name);
      g in t.groups
      && (HasRequest(t.groups[g].requests, id)
          <==> HasRequest(Unexpired(s.groups[g].requests, s.now), id)
               && !(entry.Some? && entry.value.requester == id && Settles(s, g, id)))
  {
    var s1, live := RemoveExpired(s, g, true), Unexpired(s.groups[g].requests, s.now);
    AcceptUnfolds(s, leader, g, name);
    RemoveExpiredInv(s, g, true);
    RemoveExpiredLeads(s, leader, g);
    assert QueueOk(s, g);
    UnexpiredSound(s.groups[g].requests, s.now);
    if NamedEntry(s, g, name).Some? {
      var gone := NamedEntry(s, g, name).value.requester;
      AdmitQueue(s1, g, leader, gone);
      SettlesLater(s, g, gone);
      DropHas(live, gone, id);
    }
  }

  lemma SettlesLater(s: State, g: Addr, id: nat)
    requires Inv(s) && g in s.groups
    ensures g in RemoveExpired(s, g, true).groups && (Settles(RemoveExpired(s, g, true), g, id) <==> Settles(s, g, id))
  {
    var t := RemoveExpired(s, g, true);
    assert forall c :: c in s.chars ==> t.chars[c] == ExpireChar(s.groups[g], s.now, s.chars[c]);
  }

  // ----- Who is told that a request has expired

  /** An entry of p in the queue of g has run out, and p still believes it to stand there. */
  ghost predicate RunOut(s: State, g: Addr, p: Addr)
    requires g in s.groups && p in s.chars
  {
    && !s.chars[p].npc && s.chars[p].requestGroup == s.groups[g].id
    && exists r :: r in s.groups[g].requests && r.requester == s.chars[p].id && r.expires <= s.now
  }

  /** Expiry in a queue ends the requests behind the entries that have run out, if it tells, and changes nobody else. */
  lemma ExpiryTells(s: State, g: Addr, tell: bool, p: Addr)
    requires g in s.groups && p in s.chars
    ensures var t := RemoveExpired(s, g, tell);
      p in t.chars && t.chars[p] ==
        if tell && RunOut(s, g, p) then s.chars[p].(requestGroup := 0, requestExpires := 0) else s.chars[p]
  {
    var requests, id := s.groups[g].requests, s.chars[p].id;
    if r :| r in requests && r.requester == id && r.expires <= s.now {
      var i :| 0 <= i < |requests| && requests[i] == r;
      assert HasExpired(requests, s.now, id);
    }
    assert tell ==> RemoveExpired(s, g, tell).chars[p] == ExpireChar(s.groups[g], s.now, s.chars[p]);
  }

  /** A leader that looks at its requests is told of the expired ones and rid of them; its prompt only gets rid of them. */
  lemma LookAtRequests(s: State, leader: Addr, g: Addr, tell: bool, p: Addr)
    requires Inv(s) && Leads(s, leader, g) && p in s.chars
    ensures var t := ShowRequests(s, leader, tell);
      && g in t.groups && t.groups[g].requests == Unexpired(s.groups[g].requests, s.now) && p in t.chars
      && t.chars[p] == if tell && RunOut(s, g, p) then s.chars[p].(requestGroup := 0, requestExpires := 0) else s.chars[p]
  {
    LeadsActs(s, leader, g);
    ExpiryTells(s, g, tell, p);
  }

  /** Whoever is no acting leader of a group looks at none and changes nothing. */
  lemma NothingToLookAt(s: State, ch: Addr, tell: bool)
    requires Inv(s) && ch in s.chars
    requires s.chars[ch].group !in s.groups || s.groups[s.chars[ch].group].leader != ch || s.chars[ch].master != NULL
    ensures ShowRequests(s, ch, tell) == s
  {
    if ActorIsLeader(s, ch) {
      ActorLeads(s, ch);
    }
  }

  /** Declining any name ends every request that has run out in the queue. */
  lemma DeclineTells(s: State, leader: Addr, g: Addr, name: string, p: Addr)
    requires Inv(s) && Leads(s, leader, g) && p in s.chars && RunOut(s, g, p) && name != ""
    ensures var t := Decline(s, leader, name); p in t.chars && t.chars[p].requestExpires == 0
  {
    ExpiryTells(s, g, true, p);
    DeclineUnfolds(s, leader, g, name);
  }

  /** So does accepting a name to which nobody in the queue answers. */
  lemma AcceptTells(s: State, leader: Addr, g: Addr, name: string, p: Addr)
    requires Inv(s) && Leads(s, leader, g) && p in s.chars && RunOut(s, g, p) && name != "" && NamedEntry(s, g, name).None?
    ensures var t := Accept(s, leader, name); p in t.chars && t.chars[p].requestExpires == 0
  {
    ExpiryTells(s, g, true, p);
    AcceptUnfolds(s, leader, g, name);
  }

  /** So does the periodic update of the leader. */
  lemma UpdateTells(s: State, leader: Addr, g: Addr, p: Addr)
    requires Inv(s) && Leads(s, leader, g) && !s.chars[leader].npc && p in s.chars && p != leader && RunOut(s, g, p)
    ensures var t := PendingUpdate(s, leader); p in t.chars && t.chars[p].requestExpires == 0
  {
    LeadsActs(s, leader, g);
    PendingUnfolds(s, leader);
    ExpiryTells(ExpireOwn(s, leader), g, true, p);
  }

  // ----- Following

  /** Nobody's master, pet or charm has changed. */
  ghost predicate SameTies(s: State, t: State) {
    && t.chars.Keys == s.chars.Keys
    && forall c :: c in s.chars ==>
         t.chars[c].master == s.chars[c].master && t.chars[c].pet == s.chars[c].pet && t.chars[c].charmed == s.chars[c].charmed
  }

  lemma DisbandTies(s: State, g: Addr)
    ensures SameTies(s, Disband(s, g))
  {
  }

  lemma SyncTies(s: State, g: Addr)
    ensures SameTies(s, Sync(s, g))
  {
  }

  lemma RemoveTies(s: State, ch: Addr)
    ensures SameTies(s, RemoveMember(s, ch, true))
  {
    if ch in s.chars && s.chars[ch].group in s.groups {
      var g, t := s.chars[ch].group, Leaving(s, ch);
      assert RemoveMember(s, ch, true) == Disband(t, g) || RemoveMember(s, ch, true) == Sync(t, g);
      DisbandTies(t, g);
      SyncTies(t, g);
    }
  }

  lemma StopTies(s: State, ch: Addr)
    requires Inv(s) && ch in s.chars
    ensures SameTies(s, StopGrouped(s, ch))
  {
    StopGroupedInv(s, ch);
    RemoveTies(s, ch);
  }

  /** Between s and t, ch ceased to follow. */
  ghost predicate Freed(s: State, t: State, ch: Addr)
    requires ch in s.chars
  {
    && t.chars.Keys == s.chars.Keys && t.chars[ch].master == NULL && !t.chars[ch].charmed
    && (forall c :: c in s.chars && c != ch ==> t.chars[c].master == s.chars[c].master && t.chars[c].charmed == s.chars[c].charmed)
    && (forall c :: c in s.chars ==>
          t.chars[c].pet == if c == s.chars[ch].master && s.chars[c].pet == ch then NULL else s.chars[c].pet)
  }

  lemma MasterlessFreed(s: State, ch: Addr)
    requires ch in s.chars
    ensures Freed(s, Masterless(s, ch), ch)
  {
  }

  lemma FreedAfter(s: State, t: State, u: State, ch: Addr)
    requires ch in s.chars && Freed(s, t, ch) && SameTies(t, u)
    ensures Freed(s, u, ch)
  {
  }

  /** Who ceases to follow is charmed no more, its master's pet no more, and in no group. */
  lemma UnfollowOutcome(s: State, ch: Addr)
    requires Inv(s) && ch in s.chars && s.chars[ch].master != NULL
    ensures Freed(s, StopFollower(s, ch), ch) && StopFollower(s, ch).chars[ch].group == NULL
  {
    var s1 := Masterless(s, ch);
    MasterlessInv(s, ch);
    MasterlessFreed(s, ch);
    StopFollowerInv(s, ch);
    StopTies(s1, ch);
    FreedAfter(s, s1, StopFollower(s, ch), ch);
  }

  /** Between s and t, those of `who` that followed ch ceased to. */
  ghost predicate Released(s: State, t: State, ch: Addr, who: seq<Addr>) {
    && t.chars.Keys == s.chars.Keys
    && forall c :: c in s.chars ==>
         && t.chars[c].master == (if c in who && s.chars[c].master == ch then NULL else s.chars[c].master)
         && t.chars[c].charmed == (s.chars[c].charmed && !(c in who && s.chars[c].master == ch))
         && t.chars[c].pet == (
              if c == ch && s.chars[c].pet in who && s.chars[c].pet in s.chars && s.chars[s.chars[c].pet].master == ch
              then NULL else s.chars[c].pet)
  }

  /** One pass of the loop: fch ceases to follow ch, if it did. */
  ghost predicate Passed(s: State, t: State, fch: Addr, ch: Addr) {
    if fch in s.chars && s.chars[fch].master == ch then Freed(s, t, fch) else t == s
  }

  lemma PassOutcome(s: State, fch: Addr, ch: Addr)
    requires Inv(s) && Alone(s, ch) && ch != NULL
    ensures Passed(s, ReleaseFollower(s, fch, ch), fch, ch)
  {
    ReleaseFollowerInv(s, fch, ch);
    if fch in s.chars && s.chars[fch].master == ch {
      UnfollowOutcome(s, fch);
    }
  }

  lemma ReleasedNext(s: State, mid: State, t: State, ch: Addr, list: seq<Addr>)
    requires ch != NULL && list != [] && Released(s, mid, ch, list[..|list| - 1]) && Passed(mid, t, list[|list| - 1], ch)
    ensures Released(s, t, ch, list)
  {
    assert list == list[..|list| - 1] + [list[|list| - 1]];
  }

  lemma ReleasedNone(s: State, ch: Addr)
    ensures Released(s, s, ch, [])
  {
  }

  lemma {:induction false} ReleasedAll(s: State, list: seq<Addr>, ch: Addr)
    requires Inv(s) && Alone(s, ch) && ch != NULL
    ensures Released(s, ReleaseFollowers(s, list, ch), ch, list)
  {
    if list == [] {
      ReleasedNone(s, ch);
    } else {
      ReleasedAll(s, list[..|list| - 1], ch);
      ReleaseFollowersInv(s, list[..|list| - 1], ch);
      PassOutcome(ReleaseFollowers(s, list[..|list| - 1], ch), list[|list| - 1], ch);
      ReleasedNext(s, ReleaseFollowers(s, list[..|list| - 1], ch), ReleaseFollowers(s, list, ch), ch, list);
    }
  }

  /** Who followed the dead follows nobody and is charmed no more, and who was followed has no pet; else nothing changes. */
  lemma DeathOutcome(s: State, ch: Addr)
    requires Inv(s) && ch in s.chars
    ensures var t, master := DieFollower(s, ch), s.chars[ch].master;
      && t.chars.Keys == s.chars.Keys && (master != NULL ==> !t.chars[ch].charmed)
      && forall c :: c in s.chars && c != ch ==>
           && t.chars[c].master == (if s.chars[c].master == ch then NULL else s.chars[c].master)
           && t.chars[c].charmed == (s.chars[c].charmed && s.chars[c].master != ch)
           && t.chars[c].pet == (if c == master then NULL else s.chars[c].pet)
  {
    var s1, master := DetachSelf(s, ch), s.chars[ch].master;
    DetachSelfInv(s, ch);
    DetachedTies(s, ch);
    ReleasedAll(s1, s1.loadedChars, ch);
    DeathFrom(s, s1, DieFollower(s, ch), ch);
  }

  /** The dead has left its master, and its master has no pet. */
  ghost predicate Detached(s: State, t: State, ch: Addr)
    requires ch in s.chars
  {
    && t.chars.Keys == s.chars.Keys && (s.chars[ch].master != NULL ==> !t.chars[ch].charmed)
    && forall c :: c in s.chars && c != ch ==>
         && t.chars[c].master == s.chars[c].master && t.chars[c].charmed == s.chars[c].charmed
         && t.chars[c].pet == if c == s.chars[ch].master then NULL else s.chars[c].pet
  }

  lemma DetachedTies(s: State, ch: Addr)
    requires Inv(s) && ch in s.chars
    ensures Detached(s, DetachSelf(s, ch), ch)
  {
    var master := s.chars[ch].master;
    assert CharOk(s, ch);
    if master != NULL {
      var s0 := Petless(s, master);
      PetlessInv(s, master);
      UnfollowOutcome(s0, ch);
      StopFollowerInv(s0, ch);
      StopTies(StopFollower(s0, ch), ch);
      DetachedAfter(s, ch, StopFollower(s0, ch), DetachSelf(s, ch));
    } else {
      StopTies(s, ch);
      DetachedAfter(s, ch, s, DetachSelf(s, ch));
    }
  }

  function Petless(s: State, master: Addr): State
    requires master in s.chars
  {
    SetChar(s, master, s.chars[master].(pet := NULL))
  }

  lemma PetlessInv(s: State, master: Addr)
    requires Inv(s) && master in s.chars
    ensures Inv(Petless(s, master))
  {
    assert CharOk(s, master);
    TouchInv(s, master, s.chars[master].(pet := NULL));
  }

  lemma DetachedAfter(s: State, ch: Addr, u: State, t: State)
    requires ch in s.chars && SameTies(u, t)
    requires if s.chars[ch].master == NULL then NULL !in s.chars && u == s
             else s.chars[ch].master in s.chars && Freed(Petless(s, s.chars[ch].master), u, ch)
    ensures Detached(s, t, ch)
  {
  }

  lemma DeathFrom(s: State, s1: State, t: State, ch: Addr)
    requires ch in s.chars && Inv(s1) && Detached(s, s1, ch) && Released(s1, t, ch, s1.loadedChars)
    ensures t.chars.Keys == s.chars.Keys && (s.chars[ch].master != NULL ==> !t.chars[ch].charmed)
    ensures forall c :: c in s.chars && c != ch ==>
      && t.chars[c].master == (if s.chars[c].master == ch then NULL else s.chars[c].master)
      && t.chars[c].charmed == (s.chars[c].charmed && s.chars[c].master != ch)
      && t.chars[c].pet == (if c == s.chars[ch].master then NULL else s.chars[c].pet)
  {
  }

  /** Who leaves the game is on no list, in no group, and nobody's master or leader; the others stay in it. */
  lemma ExtractOutcome(s: State, ch: Addr)
    requires Inv(s) && ch in s.chars
    ensures var t := Extract(s, ch);
      && t.chars.Keys == s.chars.Keys - {ch} && ch !in t.loadedChars
      && (forall g :: g in t.groups ==> ch !in t.groups[g].members && t.groups[g].leader != ch)
      && (forall c :: c in t.chars ==> t.chars[c].master != ch && t.chars[c].leader != ch)
  {
    var s1 := DieFollower(s, ch);
    DieFollowerFrees(s, ch);
    forall g | g in s1.groups
      ensures ch !in s1.groups[g].members && s1.groups[g].leader != ch
    {
      assert Roster(s1, g) && Led(s1, g);
    }
  }

  // ----- Leaving, disbanding, promoting

  lemma DisbandStays(s: State, g: Addr, c: Addr)
    requires c in s.chars && NothingPending(s.chars[c])
    ensures c in Disband(s, g).chars && NothingPending(Disband(s, g).chars[c])
  {
  }

  /** Who leaves a group keeps no invitation and no request. */
  lemma LeaveClears(s: State, ch: Addr)
    requires Inv(s) && ch in s.chars && s.chars[ch].group in s.groups
    ensures var t := StopGrouped(s, ch); ch in t.chars && NothingPending(t.chars[ch])
  {
    var g, t := s.chars[ch].group, Leaving(s, ch);
    RemoveUnfolds(s, ch);
    SyncStays(t, g);
    DisbandStays(t, g, ch);
  }

  /**
   Disbanding: the members are as if they had never been grouped, whoever else waited in the queue has no request any
   more, and nobody else changes.
   */
  lemma DisbandOutcome(s: State, g: Addr, c: Addr)
    requires Inv(s) && g in s.groups && c in s.chars
    ensures var t := Disband(s, g);
      var was, now := s.chars[c], t.chars[c];
      && t.groups == s.groups - {g} && g !in t.loadedGroups
      && (was.group == g ==> now.group == NULL && now.leader == NULL && now.numGrouped == 0 && now.lgroup == [] && NothingPending(now))
      && (was.group != g && !was.npc && HasRequest(s.groups[g].requests, was.id) ==> now == was.(requestGroup := 0, requestExpires := 0))
      && (was.group != g && (was.npc || !HasRequest(s.groups[g].requests, was.id)) ==> now == was)
  {
    assert NULL !in s.groups && CharOk(s, c) && Roster(s, g);
    assert Disband(s, g).chars[c] == DisbandChar(s.groups[g], g, c, s.chars[c]);
  }

  /** Any player of a group can be made its leader; an NPC only where there is no player and need not be one. */
  lemma SetLeaderOutcome(s: State, g: Addr, n: Addr)
    requires Inv(s) && g in s.groups && n in s.groups[g].members && n in s.chars
    ensures var t, grp := SetLeader(s, g, n), s.groups[g];
      && g in t.groups && t.groups[g].members == grp.members
      && t.groups[g].leader == (
           if !s.chars[n].npc || (grp.allowNpcOnly && forall m :: m in grp.members && m in s.chars ==> s.chars[m].npc) then n
           else grp.leader)
  {
    assert Roster(s, g) && Led(s, g);
    CountZero(s.chars, s.groups[g].members);
    if SetLeader(s, g, n) == Sync(Crowned(s, g, n), g) {
      SyncQuiet(Crowned(s, g, n), g);
    }
  }
}
