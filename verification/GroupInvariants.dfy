/** What every reachable group state satisfies, and the proof that each membership operation keeps it. */
module GroupInvariants {
  import opened Lists
  import opened GroupModel

  function PlayerCount(chars: map<Addr, Char>, members: seq<Addr>): nat {
    if members == [] then 0
    else (if members[0] in chars && !chars[members[0]].npc then 1 else 0) + PlayerCount(chars, members[1..])
  }

  /** A global list holds exactly the live objects of its heap, each once. */
  ghost predicate ListsExactly(list: seq<Addr>, live: set<Addr>) {
    NULL !in live && NoDup(list) && (forall x :: x in list <==> x in live)
  }

  /** Group ids are unique and were handed out already; addresses were too. */
  ghost predicate GroupIdsOk(groups: map<Addr, Group>, nextGroup: Addr, lastPcId: nat) {
    && nextGroup != NULL
    && (forall g :: g in groups ==> g < nextGroup && 0 < groups[g].id <= lastPcId)
    && (forall g, h :: g in groups && h in groups && groups[g].id == groups[h].id ==> g == h)
  }

  ghost predicate HeapOk(s: State) {
    && ListsExactly(s.loadedChars, s.chars.Keys)
    && ListsExactly(s.loadedGroups, s.groups.Keys)
    && GroupIdsOk(s.groups, s.nextGroup, s.lastPcId)
    && PlayerIdsOk(s.chars)
  }

  ghost predicate PlayerIdsOk(chars: map<Addr, Char>) {
    && (forall c :: c in chars ==> chars[c].id != 0)
    && (forall c, d :: c in chars && d in chars && !chars[c].npc && !chars[d].npc && chars[c].id == chars[d].id
          ==> c == d)
  }

  /** The member list and the back-pointers agree on who is in g. */
  ghost predicate Roster(s: State, g: Addr)
    requires g in s.groups
  {
    && NoDup(s.groups[g].members)
    && (forall m :: m in s.groups[g].members ==> m in s.chars && s.chars[m].group == g)
  }

  /** The count is exact, the leader is a member, and an NPC leads only a group without players. */
  ghost predicate Led(s: State, g: Addr)
    requires g in s.groups
  {
    var grp := s.groups[g];
    && grp.leader in grp.members
    && grp.playerCount == PlayerCount(s.chars, grp.members)
    && (grp.leader in s.chars && s.chars[grp.leader].npc ==> grp.playerCount == 0)
  }

  /** Every member shows the legacy fields the group prescribes. */
  ghost predicate LegacyOk(s: State, g: Addr)
    requires g in s.groups
  {
    var grp := s.groups[g];
    forall m :: m in grp.members && m in s.chars ==> s.chars[m] == LegacyOf(grp, grp.leader, m, s.chars[m])
  }

  ghost predicate RequesterIdsDistinct(requests: seq<Request>) {
    forall i, j :: 0 <= i < j < |requests| ==> requests[i].requester != requests[j].requester
  }

  ghost predicate QueueOk(s: State, g: Addr)
    requires g in s.groups
  {
    && |s.groups[g].requests| <= PENDING_MAX
    && RequesterIdsDistinct(s.groups[g].requests)
  }

  ghost predicate HasEntry(requests: seq<Request>, id: nat, expires: nat) {
    exists i :: 0 <= i < |requests| && requests[i].requester == id && requests[i].expires == expires
  }

  /** Some loaded group with that id queues a request of that player with that expiry. */
  ghost predicate Queued(s: State, groupId: nat, id: nat, expires: nat) {
    exists g :: g in s.groups && s.groups[g].id == groupId && HasEntry(s.groups[g].requests, id, expires)
  }

  ghost predicate CharOk(s: State, c: Addr)
    requires c in s.chars
  {
    var ch := s.chars[c];
    && (ch.group != NULL ==> ch.group in s.groups && c in s.groups[ch.group].members)
    && (ch.group == NULL ==> ch.leader == NULL)
    && (ch.master != NULL ==> ch.master in s.chars)
    && (!ch.npc && ch.requestExpires > s.now ==> Queued(s, ch.requestGroup, ch.id, ch.requestExpires))
    && (!ch.npc && ch.inviteExpires > 0 ==> ch.group == NULL && ch.inviter != 0)
    && ch.inviteExpires <= s.now + PENDING_TTL
  }

  /** The invariant with group x possibly leaderless and out of step with its members' legacy fields. */
  ghost predicate InvExcept(s: State, x: Addr) {
    && HeapOk(s)
    && (forall g {:trigger Roster(s, g)} {:trigger QueueOk(s, g)} :: g in s.groups ==> Roster(s, g) && QueueOk(s, g))
    && (forall g {:trigger Led(s, g)} {:trigger LegacyOk(s, g)} :: g in s.groups && g != x ==> Led(s, g) && LegacyOk(s, g))
    && (forall c {:trigger CharOk(s, c)} :: c in s.chars ==> CharOk(s, c))
  }

  ghost predicate Inv(s: State) {
    InvExcept(s, NULL)
  }

  // ----- Counting players

  lemma {:induction false} CountSame(c1: map<Addr, Char>, c2: map<Addr, Char>, members: seq<Addr>)
    requires forall m :: m in members && m in c1 ==> m in c2 && c1[m].npc == c2[m].npc
    requires forall m :: m in members && m in c2 ==> m in c1
    ensures PlayerCount(c1, members) == PlayerCount(c2, members)
  {
    if members == [] {
    } else {
      CountSame(c1, c2, members[1..]);
    }
  }

  lemma {:induction false} CountAppend(chars: map<Addr, Char>, members: seq<Addr>, m: Addr)
    ensures PlayerCount(chars, members + [m])
         == PlayerCount(chars, members) + if m in chars && !chars[m].npc then 1 else 0
  {
    if members == [] {
      assert members + [m] == [m];
      assert [m][1..] == [];
    } else {
      assert (members + [m])[0] == members[0] && (members + [m])[1..] == members[1..] + [m];
      CountAppend(chars, members[1..], m);
    }
  }

  lemma {:induction false} CountWithout(chars: map<Addr, Char>, members: seq<Addr>, m: Addr)
    requires NoDup(members) && m in members
    ensures PlayerCount(chars, members)
         == PlayerCount(chars, Without(members, m)) + if m in chars && !chars[m].npc then 1 else 0
  {
    assert members == [members[0]] + members[1..];
    if members[0] == m {
      assert m !in members[1..];
      WithoutAbsent(members[1..], m);
    } else {
      CountWithout(chars, members[1..], m);
      var w := Without(members[1..], m);
      assert ([members[0]] + w)[1..] == w;
    }
  }

  lemma {:induction false} FirstPlayerFound(chars: map<Addr, Char>, members: seq<Addr>)
    requires NULL !in chars
    ensures FirstPlayer(chars, members) == NULL <==> PlayerCount(chars, members) == 0
    ensures FirstPlayer(chars, members) != NULL ==>
              FirstPlayer(chars, members) in members && FirstPlayer(chars, members) in chars
              && !chars[FirstPlayer(chars, members)].npc
  {
    if members == [] {
    } else {
      FirstPlayerFound(chars, members[1..]);
    }
  }

  // ----- Queue lemmas

  lemma {:induction false} UnexpiredSound(requests: seq<Request>, now: nat)
    requires RequesterIdsDistinct(requests)
    ensures |Unexpired(requests, now)| <= |requests|
    ensures RequesterIdsDistinct(Unexpired(requests, now))
    ensures forall r :: r in Unexpired(requests, now) <==> r in requests && r.expires > now
  {
    if requests == [] {
    } else {
      assert requests == [requests[0]] + requests[1..];
      UnexpiredSound(requests[1..], now);
      assert forall r :: r in requests[1..] ==> r.requester != requests[0].requester;
    }
  }

  lemma {:induction false} DropSound(requests: seq<Request>, id: nat)
    requires RequesterIdsDistinct(requests)
    ensures |DropRequester(requests, id)| <= |requests|
    ensures RequesterIdsDistinct(DropRequester(requests, id))
    ensures forall r :: r in DropRequester(requests, id) <==> r in requests && r.requester != id
  {
    if requests == [] {
    } else {
      assert requests == [requests[0]] + requests[1..];
      DropSound(requests[1..], id);
      assert forall r :: r in requests[1..] ==> r.requester != requests[0].requester;
    }
  }
}
