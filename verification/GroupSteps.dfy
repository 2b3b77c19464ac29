/** How far the loops of the group code have got: the states between their iterations. */
module GroupSteps {
  import opened Lists
  import opened GroupModel
  import opened GroupInvariants
  import opened GroupMembership
  import opened GroupCommands

  lemma {:induction false} DropAppend(requests: seq<Request>, r: Request, id: nat)
    ensures DropRequester(requests + [r], id)
         == if r.requester == id then DropRequester(requests, id) else DropRequester(requests, id) + [r]
  {
    if requests == [] {
      assert requests + [r] == [r] && [r][1..] == [];
    } else {
      assert (requests + [r])[0] == requests[0] && (requests + [r])[1..] == requests[1..] + [r];
      DropAppend(requests[1..], r, id);
    }
  }

  lemma {:induction false} UnexpiredAppend(requests: seq<Request>, r: Request, now: nat)
    ensures Unexpired(requests + [r], now)
         == if r.expires > now then Unexpired(requests, now) + [r] else Unexpired(requests, now)
  {
    if requests == [] {
      assert requests + [r] == [r] && [r][1..] == [];
    } else {
      assert (requests + [r])[0] == requests[0] && (requests + [r])[1..] == requests[1..] + [r];
      UnexpiredAppend(requests[1..], r, now);
    }
  }

  /** A list of kept links a followed by unvisited links b: what the next link is, and what keeping or removing it gives. */
  lemma NextLink<T>(a: seq<T>, b: seq<T>)
    requires b != []
    ensures (a + b)[|a|] == b[0]
    ensures (a + b)[..|a|] + (a + b)[|a| + 1..] == a + b[1..]
    ensures a + b == (a + [b[0]]) + b[1..]
  {
  }

  /** The groups when the first `done` entries of g's queue have been compared with id. */
  ghost function Sieved(s: State, g: Addr, id: nat, done: nat): map<Addr, Group>
    requires g in s.groups && done <= |s.groups[g].requests|
  {
    var was := s.groups[g].requests;
    s.groups[g := s.groups[g].(requests := DropRequester(was[..done], id) + was[done..])]
  }

  lemma SieveStep(s: State, g: Addr, id: nat, done: nat)
    requires g in s.groups && done < |s.groups[g].requests|
    ensures var was, index := s.groups[g].requests, |DropRequester(s.groups[g].requests[..done], id)|;
      var requests := Sieved(s, g, id, done)[g].requests;
      && index < |requests| && requests[index] == was[done]
      && (was[done].requester != id ==>
            Sieved(s, g, id, done + 1) == Sieved(s, g, id, done) && |DropRequester(was[..done + 1], id)| == index + 1)
      && (was[done].requester == id ==>
            && |DropRequester(was[..done + 1], id)| == index
            && Sieved(s, g, id, done + 1)
               == Sieved(s, g, id, done)[g := Sieved(s, g, id, done)[g].(requests := requests[..index] + requests[index + 1..])])
  {
    var was := s.groups[g].requests;
    NextLink(DropRequester(was[..done], id), was[done..]);
    assert was[..done + 1] == was[..done] + [was[done]];
    DropAppend(was[..done], was[done], id);
  }

  lemma SieveStart(s: State, g: Addr, id: nat)
    requires g in s.groups
    ensures Sieved(s, g, id, 0) == s.groups && DropRequester(s.groups[g].requests[..0], id) == []
  {
    var was := s.groups[g].requests;
    assert DropRequester(was[..0], id) + was[0..] == was;
  }

  lemma SieveEnd(s: State, g: Addr, id: nat, done: nat, index: nat)
    requires g in s.groups && done <= |s.groups[g].requests|
    requires index == |DropRequester(s.groups[g].requests[..done], id)| && index >= |Sieved(s, g, id, done)[g].requests|
    ensures s.(groups := Sieved(s, g, id, done)) == RemoveRequest(s, g, id)
  {
    var was := s.groups[g].requests;
    assert |was[done..]| == 0 && was[done..] == [];
    assert was[..done] == was;
    assert DropRequester(was, id) + [] == DropRequester(was, id);
  }

  /** The groups when the first `done` entries of g's queue have been examined. */
  ghost function Swept(s: State, g: Addr, done: nat): map<Addr, Group>
    requires g in s.groups && done <= |s.groups[g].requests|
  {
    var was := s.groups[g].requests;
    s.groups[g := s.groups[g].(requests := Unexpired(was[..done], s.now) + was[done..])]
  }

  lemma SweepStep(s: State, g: Addr, done: nat)
    requires g in s.groups && done < |s.groups[g].requests|
    ensures var was, index := s.groups[g].requests, |Unexpired(s.groups[g].requests[..done], s.now)|;
      var requests := Swept(s, g, done)[g].requests;
      && index < |requests| && requests[index] == was[done]
      && (was[done].expires > s.now ==>
            Swept(s, g, done + 1) == Swept(s, g, done) && |Unexpired(was[..done + 1], s.now)| == index + 1)
      && (was[done].expires <= s.now ==>
            && |Unexpired(was[..done + 1], s.now)| == index
            && Swept(s, g, done + 1)
               == Swept(s, g, done)[g := Swept(s, g, done)[g].(requests := requests[..index] + requests[index + 1..])])
  {
    var was := s.groups[g].requests;
    NextLink(Unexpired(was[..done], s.now), was[done..]);
    assert was[..done + 1] == was[..done] + [was[done]];
    UnexpiredAppend(was[..done], was[done], s.now);
  }

  lemma SweepStart(s: State, g: Addr)
    requires g in s.groups
    ensures Swept(s, g, 0) == s.groups && Unexpired(s.groups[g].requests[..0], s.now) == []
  {
    var was := s.groups[g].requests;
    assert Unexpired(was[..0], s.now) + was[0..] == was;
  }

  lemma SweepEnd(s: State, g: Addr, tell: bool, done: nat, index: nat)
    requires g in s.groups && done <= |s.groups[g].requests|
    requires index == |Unexpired(s.groups[g].requests[..done], s.now)| && index >= |Swept(s, g, done)[g].requests|
    ensures s.(groups := Swept(s, g, done),
               chars := if tell then Told(s, s.groups[g], s.groups[g].requests[..done]) else s.chars)
         == RemoveExpired(s, g, tell)
  {
    var was := s.groups[g].requests;
    assert |was[done..]| == 0 && was[done..] == [];
    assert was[..done] == was;
    assert Unexpired(was, s.now) + [] == Unexpired(was, s.now);
    assert s.groups[g].(requests := was) == s.groups[g];
  }

  /** The characters once the requesters behind these entries have been told. */
  ghost function Told(s: State, grp: Group, entries: seq<Request>): map<Addr, Char> {
    map c | c in s.chars :: ExpireChar(grp.(requests := entries), s.now, s.chars[c])
  }

  lemma ToldNobody(s: State, grp: Group)
    ensures Told(s, grp, []) == s.chars
  {
  }

  lemma HasExpiredAppend(entries: seq<Request>, r: Request, now: nat, id: nat)
    ensures HasExpired(entries + [r], now, id) <==> HasExpired(entries, now, id) || (r.requester == id && r.expires <= now)
  {
    assert (entries + [r])[|entries|] == r;
    if HasExpired(entries, now, id) {
      var i :| 0 <= i < |entries| && entries[i].requester == id && entries[i].expires <= now;
      assert (entries + [r])[i] == entries[i];
    }
  }

  lemma ToldUnexpired(s: State, grp: Group, done: nat)
    requires done < |grp.requests| && grp.requests[done].expires > s.now
    ensures Told(s, grp, grp.requests[..done + 1]) == Told(s, grp, grp.requests[..done])
  {
    var entries, r := grp.requests[..done], grp.requests[done];
    assert grp.requests[..done + 1] == entries + [r];
    forall c | c in s.chars
      ensures Told(s, grp, entries + [r])[c] == Told(s, grp, entries)[c]
    {
      HasExpiredAppend(entries, r, s.now, s.chars[c].id);
    }
  }

  /** Telling one more requester, found by id among the characters of a state that differs in pending fields only. */
  lemma TellOne(s: State, grp: Group, done: nat, t: State)
    requires HeapOk(s) && done < |grp.requests| && grp.requests[done].expires <= s.now
    requires t.chars == Told(s, grp, grp.requests[..done]) && t.loadedChars == s.loadedChars
    ensures var requester := FindPlayer(t, grp.requests[done].requester);
      Told(s, grp, grp.requests[..done + 1])
         == if requester in t.chars && t.chars[requester].requestGroup == grp.id
            then t.chars[requester := ClearRequestState(t.chars[requester])] else t.chars
  {
    var entries, r := grp.requests[..done], grp.requests[done];
    var requester := FindPlayer(t, r.requester);
    assert grp.requests[..done + 1] == entries + [r];
    FindTold(s, grp, entries, r.requester, s.loadedChars);
    FindPlayerSound(s, r.requester);
    forall c | c in s.chars
      ensures Told(s, grp, entries + [r])[c]
           == if c == requester && t.chars[c].requestGroup == grp.id then ClearRequestState(t.chars[c]) else t.chars[c]
    {
      ToldChar(s, grp, entries, r, requester, c);
    }
  }

  lemma ToldChar(s: State, grp: Group, entries: seq<Request>, r: Request, requester: Addr, c: Addr)
    requires c in s.chars && r.expires <= s.now && (c == requester <==> !s.chars[c].npc && s.chars[c].id == r.requester)
    ensures var d := ExpireChar(grp.(requests := entries), s.now, s.chars[c]);
      ExpireChar(grp.(requests := entries + [r]), s.now, s.chars[c])
      == if c == requester && d.requestGroup == grp.id then ClearRequestState(d) else d
  {
    HasExpiredAppend(entries, r, s.now, s.chars[c].id);
  }

  /** Telling people does not change whom a search by id finds. */
  lemma {:induction false} FindTold(s: State, grp: Group, entries: seq<Request>, id: nat, list: seq<Addr>)
    ensures IdFindPlayer(Told(s, grp, entries), list, id) == IdFindPlayer(s.chars, list, id)
  {
    if list == [] {
    } else {
      FindTold(s, grp, entries, id, list[1..]);
    }
  }

  /** First loop of the synchronisation: counters and follower lists of the first members are reset. */
  ghost function ClearedUpTo(chars: map<Addr, Char>, members: seq<Addr>): map<Addr, Char> {
    map c | c in chars :: if c in members then chars[c].(numGrouped := 0, lgroup := []) else chars[c]
  }

  /** Its loop for a group without a leader. */
  ghost function OrphanedUpTo(chars: map<Addr, Char>, members: seq<Addr>): map<Addr, Char> {
    map c | c in chars :: if c in members then chars[c].(leader := NULL) else chars[c]
  }

  /** Its loop for a group with a leader: the first members point to it and are counted and listed. */
  ghost function LinkedUpTo(chars: map<Addr, Char>, leader: Addr, members: seq<Addr>): map<Addr, Char> {
    map c | c in chars ::
      if c == leader then
        chars[c].(leader := NULL,
                  numGrouped := chars[c].numGrouped + |Without(members, leader)|,
                  lgroup := chars[c].lgroup + Without(members, leader))
      else if c in members then chars[c].(leader := leader)
      else chars[c]
  }

  lemma ClearedStep(chars: map<Addr, Char>, members: seq<Addr>, i: nat)
    requires i < |members|
    ensures ClearedUpTo(chars, members[..i + 1])
         == if members[i] in chars
            then ClearedUpTo(chars, members[..i])[members[i] := chars[members[i]].(numGrouped := 0, lgroup := [])]
            else ClearedUpTo(chars, members[..i])
  {
    assert members[..i + 1] == members[..i] + [members[i]];
  }

  lemma OrphanedStep(chars: map<Addr, Char>, members: seq<Addr>, i: nat)
    requires i < |members|
    ensures OrphanedUpTo(chars, members[..i + 1])
         == if members[i] in chars
            then OrphanedUpTo(chars, members[..i])[members[i] := chars[members[i]].(leader := NULL)]
            else OrphanedUpTo(chars, members[..i])
  {
    assert members[..i + 1] == members[..i] + [members[i]];
  }

  /** The record of the leader once these members are counted. */
  ghost function Counting(leader: Char, followers: seq<Addr>): Char {
    leader.(leader := NULL, numGrouped := leader.numGrouped + |followers|, lgroup := leader.lgroup + followers)
  }

  lemma LinkedStep(chars: map<Addr, Char>, leader: Addr, members: seq<Addr>, i: nat)
    requires i < |members| && leader in chars && members[i] in chars && NoDup(members) && chars[leader].lgroup == []
    ensures var was := LinkedUpTo(chars, leader, members[..i]);
      LinkedUpTo(chars, leader, members[..i + 1])
        == if members[i] == leader then was
           else was[members[i] := chars[members[i]].(leader := leader)]
                   [leader := was[leader].(numGrouped := was[leader].numGrouped + 1, lgroup := was[leader].lgroup + [members[i]])]
    ensures members[i] != leader ==> members[i] !in LinkedUpTo(chars, leader, members[..i])[leader].lgroup
    ensures members[i] != leader ==> LinkedUpTo(chars, leader, members[..i])[members[i]] == chars[members[i]]
  {
    var m, prefix := members[i], members[..i];
    assert members[..i + 1] == prefix + [m] && m !in prefix;
    LinkedMore(chars, leader, prefix, m);
  }

  /** The leader's record when one more follower is counted. */
  lemma LinkedLeader(chars: map<Addr, Char>, leader: Addr, prefix: seq<Addr>, m: Addr)
    requires leader in chars && m !in prefix && m != leader && chars[leader].lgroup == []
    ensures var was, next := LinkedUpTo(chars, leader, prefix)[leader], LinkedUpTo(chars, leader, prefix + [m])[leader];
      next == was.(numGrouped := was.numGrouped + 1, lgroup := was.lgroup + [m]) && m !in was.lgroup
  {
    var followers := Without(prefix, leader);
    WithoutAppend(prefix, m, leader);
    AfterNothing(chars[leader].lgroup, followers);
    AfterNothing(chars[leader].lgroup, followers + [m]);
  }

  lemma AfterNothing<T>(none: seq<T>, s: seq<T>)
    requires none == []
    ensures none + s == s
  {
  }

  lemma LinkedMore(chars: map<Addr, Char>, leader: Addr, prefix: seq<Addr>, m: Addr)
    requires leader in chars && m in chars && m !in prefix && chars[leader].lgroup == []
    ensures var was := LinkedUpTo(chars, leader, prefix);
      LinkedUpTo(chars, leader, prefix + [m])
        == if m == leader then was
           else was[m := chars[m].(leader := leader)]
                   [leader := was[leader].(numGrouped := was[leader].numGrouped + 1, lgroup := was[leader].lgroup + [m])]
    ensures m != leader ==> m !in LinkedUpTo(chars, leader, prefix)[leader].lgroup
    ensures m != leader ==> LinkedUpTo(chars, leader, prefix)[m] == chars[m]
  {
    var was, next := LinkedUpTo(chars, leader, prefix), LinkedUpTo(chars, leader, prefix + [m]);
    assert forall c :: c in prefix + [m] <==> c in prefix || c == m;
    if m == leader {
      WithoutAppend(prefix, m, leader);
      assert next == was;
    } else {
      LinkedLeader(chars, leader, prefix, m);
      assert next == was[m := chars[m].(leader := leader)][leader := next[leader]];
    }
  }

  lemma LinkedStart(chars: map<Addr, Char>, leader: Addr)
    requires leader in chars && chars[leader].lgroup == []
    ensures LinkedUpTo(chars, leader, []) == chars[leader := chars[leader].(leader := NULL)]
  {
    assert Without<Addr>([], leader) == [];
    assert chars[leader].lgroup + [] == chars[leader].lgroup;
  }

  /** The loops together are the synchronisation. */
  lemma SyncLinked(s: State, g: Addr)
    requires g in s.groups && Roster(s, g) && EffectiveLeader(s, s.groups[g]) != NULL
    ensures var grp := s.groups[g];
      s.(chars := LinkedUpTo(ClearedUpTo(s.chars, grp.members), grp.leader, grp.members)) == Sync(s, g)
  {
    var grp := s.groups[g];
    WithoutNoDup(grp.members, grp.leader);
    var done := LinkedUpTo(ClearedUpTo(s.chars, grp.members), grp.leader, grp.members);
    forall c | c in s.chars
      ensures done[c] == Sync(s, g).chars[c]
    {
      assert [] + Without(grp.members, grp.leader) == Without(grp.members, grp.leader);
    }
    assert done == Sync(s, g).chars;
    assert Sync(s, g).groups == s.groups;
  }

  lemma SyncOrphaned(s: State, g: Addr)
    requires g in s.groups && EffectiveLeader(s, s.groups[g]) == NULL && NULL !in s.chars
    ensures var grp := s.groups[g];
      s.(groups := s.groups[g := grp.(leader := NULL)],
         chars := OrphanedUpTo(ClearedUpTo(s.chars, grp.members), grp.members)) == Sync(s, g)
  {
    var grp := s.groups[g];
    assert OrphanedUpTo(ClearedUpTo(s.chars, grp.members), grp.members) == Sync(s, g).chars;
  }

  /** First loop of the disbanding: these members of g have been let go. */
  ghost function ReleasedUpTo(chars: map<Addr, Char>, g: Addr, members: seq<Addr>): map<Addr, Char> {
    map c | c in chars :: if c in members && chars[c].group == g then Ungrouped(chars[c]) else chars[c]
  }

  lemma ReleasedStep(chars: map<Addr, Char>, g: Addr, members: seq<Addr>, i: nat)
    requires i < |members| && g != NULL
    ensures var was, m := ReleasedUpTo(chars, g, members[..i]), members[i];
      ReleasedUpTo(chars, g, members[..i + 1]) == if m in was && was[m].group == g then was[m := Ungrouped(was[m])] else was
  {
    assert members[..i + 1] == members[..i] + [members[i]];
  }

  /** Its second loop: the requesters behind these entries no longer wait. */
  ghost function DroppedUpTo(chars: map<Addr, Char>, entries: seq<Request>): map<Addr, Char> {
    map c | c in chars :: if HasRequest(entries, chars[c].id) then ClearRequestState(chars[c]) else chars[c]
  }

  lemma HasRequestAppend(entries: seq<Request>, r: Request, id: nat)
    ensures HasRequest(entries + [r], id) <==> HasRequest(entries, id) || r.requester == id
  {
    assert (entries + [r])[|entries|] == r;
    if HasRequest(entries, id) {
      var i :| 0 <= i < |entries| && entries[i].requester == id;
      assert (entries + [r])[i] == entries[i];
    }
  }

  lemma {:induction false} FindDropped(chars: map<Addr, Char>, entries: seq<Request>, id: nat, list: seq<Addr>)
    ensures IdFindPlayer(DroppedUpTo(chars, entries), list, id) == IdFindPlayer(chars, list, id)
  {
    if list == [] {
    } else {
      FindDropped(chars, entries, id, list[1..]);
    }
  }

  /** One more requester, found by id, stops waiting. */
  lemma DroppedStep(s: State, entries: seq<Request>, i: nat)
    requires HeapOk(s) && i < |entries|
    ensures var was := DroppedUpTo(s.chars, entries[..i]);
      var p := IdFindPlayer(was, s.loadedChars, entries[i].requester);
      DroppedUpTo(s.chars, entries[..i + 1]) == if p in was then was[p := ClearRequestState(was[p])] else was
  {
    var was := DroppedUpTo(s.chars, entries[..i]);
    var r := entries[i];
    assert entries[..i + 1] == entries[..i] + [r];
    FindDropped(s.chars, entries[..i], r.requester, s.loadedChars);
    FindPlayerSound(s, r.requester);
    var p := IdFindPlayer(was, s.loadedChars, r.requester);
    forall c | c in s.chars
      ensures DroppedUpTo(s.chars, entries[..i + 1])[c] == if c == p then ClearRequestState(was[c]) else was[c]
    {
      HasRequestAppend(entries[..i], r, s.chars[c].id);
    }
  }

  /** The two loops together are what disbanding does to the characters. */
  lemma DisbandedChars(s: State, g: Addr)
    requires g in s.groups
    ensures DroppedUpTo(ReleasedUpTo(s.chars, g, s.groups[g].members), s.groups[g].requests) == Disband(s, g).chars
  {
    var t := DroppedUpTo(ReleasedUpTo(s.chars, g, s.groups[g].members), s.groups[g].requests);
    forall c | c in s.chars
      ensures t[c] == DisbandChar(s.groups[g], g, c, s.chars[c])
    {
    }
  }

  lemma ReleasedHeap(s: State, g: Addr, members: seq<Addr>)
    requires HeapOk(s)
    ensures HeapOk(s.(chars := ReleasedUpTo(s.chars, g, members)))
  {
    var t := s.(chars := ReleasedUpTo(s.chars, g, members));
    forall c | c in s.chars
      ensures t.chars[c].npc == s.chars[c].npc && t.chars[c].id == s.chars[c].id
    {
    }
    assert t.chars.Keys == s.chars.Keys;
  }

  /** Searches for players see the same people before and after ch's own record is edited. */
  lemma {:induction false} SameSearch(s: State, ch: Addr, members: seq<Addr>)
    requires ch in s.chars
    ensures FirstPlayer(s.chars[ch := Departed(s.chars[ch])], members) == FirstPlayer(s.chars, members)
    ensures FirstLive(s.chars[ch := Departed(s.chars[ch])], members) == FirstLive(s.chars, members)
  {
    if members == [] {
    } else {
      SameSearch(s, ch, members[1..]);
    }
  }

  /** A group's record with ch struck off, before the succession. */
  function Struck(grp: Group, ch: Addr, isPlayer: bool): Group {
    grp.(members := Without(grp.members, ch),
         playerCount := if isPlayer && grp.playerCount > 0 then grp.playerCount - 1 else grp.playerCount,
         leader := if grp.leader == ch then NULL else grp.leader)
  }

  /** A departure as the updates it makes: the record struck, the character cleared, the succession settled. */
  lemma LeavingSteps(s: State, ch: Addr)
    requires ch in s.chars && s.chars[ch].group in s.groups
    ensures var g, chars := s.chars[ch].group, s.chars[ch := Departed(s.chars[ch])];
      var left := Struck(s.groups[g], ch, !s.chars[ch].npc);
      Leaving(s, ch) == s.(chars := chars,
        groups := s.groups[g := if left.members == [] then left else left.(leader := Successor(chars, left))])
  {
    SameSearch(s, ch, Without(s.groups[s.chars[ch].group].members, ch));
  }

  /** One more follower released. */
  lemma ReleaseNext(s: State, list: seq<Addr>, i: nat, ch: Addr)
    requires i < |list|
    ensures ReleaseFollowers(s, list[..i + 1], ch) == ReleaseFollower(ReleaseFollowers(s, list[..i], ch), list[i], ch)
  {
    assert list[..i + 1][..i] == list[..i];
  }
}
