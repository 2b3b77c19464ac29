/** Every command keeps the group invariant: following, invitations, the request queue, expiry. */
module GroupCommands {
  import opened Lists
  import opened GroupModel
  import opened GroupInvariants
  import opened GroupMembership

  // ----- Editing one character, or one queue

  /** What a character's pending state must satisfy. */
  ghost predicate PendingOk(s: State, d: Char) {
    && (!d.npc && d.requestExpires > s.now ==> Queued(s, d.requestGroup, d.id, d.requestExpires))
    && (!d.npc && d.inviteExpires > 0 ==> d.group == NULL && d.inviter != 0)
    && d.inviteExpires <= s.now + PENDING_TTL
  }

  lemma TouchCharOk(s: State, c: Addr, d: Char, x: Addr)
    requires Inv(s) && c in s.chars && PendingOk(s, d) && x in s.chars
    requires d.npc == s.chars[c].npc && d.id == s.chars[c].id && SameStanding(s.chars[c], d)
    requires d.master == NULL || d.master in s.chars
    ensures CharOk(SetChar(s, c, d), x)
  {
    var t := SetChar(s, c, d);
    assert CharOk(s, x);
    if !t.chars[x].npc && t.chars[x].requestExpires > t.now {
      assert QueuesKept(s, t);
      KeepQueued(s, t, t.chars[x].requestGroup, t.chars[x].id, t.chars[x].requestExpires);
    }
  }

  lemma TouchGroup(s: State, c: Addr, d: Char, h: Addr)
    requires Inv(s) && c in s.chars && h in s.groups
    requires d.npc == s.chars[c].npc && d.id == s.chars[c].id && SameStanding(s.chars[c], d)
    ensures var t := SetChar(s, c, d); Roster(t, h) && QueueOk(t, h) && Led(t, h) && LegacyOk(t, h)
  {
    assert SameCast(s, SetChar(s, c, d)) && Roster(s, h) && Led(s, h);
    KeepGroup(s, SetChar(s, c, d), h);
  }

  lemma TouchInv(s: State, c: Addr, d: Char)
    requires Inv(s) && c in s.chars && PendingOk(s, d)
    requires d.npc == s.chars[c].npc && d.id == s.chars[c].id && SameStanding(s.chars[c], d)
    requires d.master == NULL || d.master in s.chars
    ensures Inv(SetChar(s, c, d)) && SameCast(s, SetChar(s, c, d))
  {
    var t := SetChar(s, c, d);
    KeepHeap(s, t);
    forall h | h in t.groups
      ensures Roster(t, h) && QueueOk(t, h) && Led(t, h) && LegacyOk(t, h)
    {
      TouchGroup(s, c, d, h);
    }
    forall x | x in t.chars
      ensures CharOk(t, x)
    {
      TouchCharOk(s, c, d, x);
    }
  }

  lemma ClearInviteInv(s: State, c: Addr)
    requires Inv(s)
    ensures Inv(ClearInvite(s, c)) && SameCast(s, ClearInvite(s, c))
  {
    if c in s.chars {
      assert CharOk(s, c);
      TouchInv(s, c, ClearInviteState(s.chars[c]));
    }
  }

  lemma ClearRequestInv(s: State, c: Addr)
    requires Inv(s)
    ensures Inv(ClearRequest(s, c)) && SameCast(s, ClearRequest(s, c))
  {
    if c in s.chars {
      assert CharOk(s, c);
      TouchInv(s, c, ClearRequestState(s.chars[c]));
    }
  }

  /** Player c holds an unexpired request for group g. */
  ghost predicate Waiting(s: State, c: Addr, g: Addr)
    requires g in s.groups
  {
    && c in s.chars && !s.chars[c].npc
    && s.chars[c].requestExpires > s.now && s.chars[c].requestGroup == s.groups[g].id
  }

  lemma QueueInv(s: State, g: Addr, requests: seq<Request>)
    requires Inv(s) && g in s.groups && |requests| <= PENDING_MAX && RequesterIdsDistinct(requests)
    requires forall c :: Waiting(s, c, g) ==> HasEntry(requests, s.chars[c].id, s.chars[c].requestExpires)
    ensures Inv(SetGroup(s, g, s.groups[g].(requests := requests)))
    ensures SameCast(s, SetGroup(s, g, s.groups[g].(requests := requests)))
  {
    var t := SetGroup(s, g, s.groups[g].(requests := requests));
    KeepHeap(s, t);
    forall h | h in t.groups
      ensures Roster(t, h) && QueueOk(t, h) && Led(t, h) && LegacyOk(t, h)
    {
      QueueGroups(s, g, requests, h);
    }
    forall c | c in t.chars
      ensures CharOk(t, c)
    {
      QueueCharOk(s, g, requests, c);
    }
  }

  lemma QueueGroups(s: State, g: Addr, requests: seq<Request>, h: Addr)
    requires Inv(s) && g in s.groups && |requests| <= PENDING_MAX && RequesterIdsDistinct(requests) && h in s.groups
    ensures var t := SetGroup(s, g, s.groups[g].(requests := requests));
      Roster(t, h) && QueueOk(t, h) && Led(t, h) && LegacyOk(t, h)
  {
    assert Roster(s, h) && QueueOk(s, h) && Led(s, h) && LegacyOk(s, h);
  }

  lemma QueueCharOk(s: State, g: Addr, requests: seq<Request>, c: Addr)
    requires Inv(s) && g in s.groups && c in s.chars
    requires Waiting(s, c, g) ==> HasEntry(requests, s.chars[c].id, s.chars[c].requestExpires)
    ensures CharOk(SetGroup(s, g, s.groups[g].(requests := requests)), c)
  {
    var t := SetGroup(s, g, s.groups[g].(requests := requests));
    var ch := s.chars[c];
    assert CharOk(s, c);
    if !ch.npc && ch.requestExpires > s.now {
      var q :| q in s.groups && s.groups[q].id == ch.requestGroup && HasEntry(s.groups[q].requests, ch.id, ch.requestExpires);
      assert q in t.groups && t.groups[q].id == ch.requestGroup;
      assert HasEntry(t.groups[q].requests, ch.id, ch.requestExpires);
    }
  }

  lemma InSeqEntry(requests: seq<Request>, id: nat, expires: nat)
    ensures HasEntry(requests, id, expires) <==> exists r :: r in requests && r.requester == id && r.expires == expires
  {
    if HasEntry(requests, id, expires) {
      var i :| 0 <= i < |requests| && requests[i].requester == id && requests[i].expires == expires;
      assert requests[i] in requests;
    }
  }

  /** An entry may go once no player is still waiting on it. */
  lemma RemoveRequestInv(s: State, g: Addr, id: nat)
    requires Inv(s)
    requires g in s.groups ==> forall c :: Waiting(s, c, g) ==> s.chars[c].id != id
    ensures Inv(RemoveRequest(s, g, id)) && SameCast(s, RemoveRequest(s, g, id))
  {
    if g in s.groups {
      var requests := DropRequester(s.groups[g].requests, id);
      assert QueueOk(s, g);
      DropSound(s.groups[g].requests, id);
      forall c | Waiting(s, c, g)
        ensures HasEntry(requests, s.chars[c].id, s.chars[c].requestExpires)
      {
        EntryOf(s, g, c);
        InSeqEntry(s.groups[g].requests, s.chars[c].id, s.chars[c].requestExpires);
        InSeqEntry(requests, s.chars[c].id, s.chars[c].requestExpires);
      }
      QueueInv(s, g, requests);
    }
  }

  /** A waiting player's entry is in the group it waits on. */
  lemma EntryOf(s: State, g: Addr, c: Addr)
    requires Inv(s) && g in s.groups && Waiting(s, c, g)
    ensures HasEntry(s.groups[g].requests, s.chars[c].id, s.chars[c].requestExpires)
  {
    assert CharOk(s, c);
    var q :| q in s.groups && s.groups[q].id == s.chars[c].requestGroup
             && HasEntry(s.groups[q].requests, s.chars[c].id, s.chars[c].requestExpires);
    assert q == g;
  }

  /** The telling half of expiry: characters change, queues do not. */
  function TellExpired(s: State, g: Addr): State
    requires g in s.groups
  {
    s.(chars := map c | c in s.chars :: ExpireChar(s.groups[g], s.now, s.chars[c]))
  }

  lemma TellExpiredCast(s: State, g: Addr)
    requires g in s.groups
    ensures SameCast(s, TellExpired(s, g)) && QueuesKept(s, TellExpired(s, g))
    ensures forall c :: c in s.chars ==> SameStanding(s.chars[c], TellExpired(s, g).chars[c])
  {
    forall c | c in s.chars
      ensures TellExpired(s, g).chars[c].npc == s.chars[c].npc && TellExpired(s, g).chars[c].id == s.chars[c].id
      ensures SameStanding(s.chars[c], TellExpired(s, g).chars[c])
    {
      assert TellExpired(s, g).chars[c] == ExpireChar(s.groups[g], s.now, s.chars[c]);
    }
  }

  lemma TellExpiredCharOk(s: State, g: Addr, c: Addr)
    requires Inv(s) && g in s.groups && c in s.chars
    ensures c in TellExpired(s, g).chars && CharOk(TellExpired(s, g), c)
  {
    var t := TellExpired(s, g);
    TellExpiredCast(s, g);
    assert CharOk(s, c);
    assert t.chars[c] == ExpireChar(s.groups[g], s.now, s.chars[c]);
    if !t.chars[c].npc && t.chars[c].requestExpires > t.now {
      KeepQueued(s, t, t.chars[c].requestGroup, t.chars[c].id, t.chars[c].requestExpires);
    }
  }

  lemma TellExpiredInv(s: State, g: Addr)
    requires Inv(s) && g in s.groups
    ensures Inv(TellExpired(s, g)) && SameCast(s, TellExpired(s, g))
  {
    var t := TellExpired(s, g);
    TellExpiredCast(s, g);
    KeepHeap(s, t);
    forall h | h in t.groups
      ensures Roster(t, h) && QueueOk(t, h) && Led(t, h) && LegacyOk(t, h)
    {
      KeepGroup(s, t, h);
    }
    forall c | c in t.chars
      ensures CharOk(t, c)
    {
      TellExpiredCharOk(s, g, c);
    }
  }

  lemma RemoveExpiredInv(s: State, g: Addr, tell: bool)
    requires Inv(s)
    ensures Inv(RemoveExpired(s, g, tell)) && SameCast(s, RemoveExpired(s, g, tell))
    ensures RemoveExpired(s, g, tell).groups.Keys == s.groups.Keys
  {
    if g in s.groups {
      var s1 := if tell then TellExpired(s, g) else s;
      TellExpiredInv(s, g);
      var requests := Unexpired(s1.groups[g].requests, s.now);
      assert QueueOk(s1, g);
      UnexpiredSound(s1.groups[g].requests, s.now);
      forall c | Waiting(s1, c, g)
        ensures HasEntry(requests, s1.chars[c].id, s1.chars[c].requestExpires)
      {
        EntryOf(s1, g, c);
        InSeqEntry(s1.groups[g].requests, s1.chars[c].id, s1.chars[c].requestExpires);
        InSeqEntry(requests, s1.chars[c].id, s1.chars[c].requestExpires);
      }
      QueueInv(s1, g, requests);
      assert RemoveExpired(s, g, tell) == SetGroup(s1, g, s1.groups[g].(requests := requests));
    }
  }

  // ----- Finding players and groups

  lemma {:induction false} IdFindPlayerSound(chars: map<Addr, Char>, list: seq<Addr>, id: nat)
    requires NULL !in chars
    ensures var p := IdFindPlayer(chars, list, id);
      if p == NULL then forall c :: c in list && c in chars && !chars[c].npc ==> chars[c].id != id
      else p in list && p in chars && !chars[p].npc && chars[p].id == id
  {
    if list == [] || (list[0] in chars && !chars[list[0]].npc && chars[list[0]].id == id) {
    } else {
      IdFindPlayerSound(chars, list[1..], id);
      assert list == [list[0]] + list[1..];
    }
  }

  /** idfind_player returns the one online player with that id, or NULL when there is none. */
  lemma FindPlayerSound(s: State, id: nat)
    requires HeapOk(s)
    ensures FindPlayer(s, id) == NULL <==> forall c :: c in s.chars && !s.chars[c].npc ==> s.chars[c].id != id
    ensures FindPlayer(s, id) in s.chars <==> FindPlayer(s, id) != NULL
    ensures forall c :: c in s.chars && !s.chars[c].npc && s.chars[c].id == id ==> FindPlayer(s, id) == c
  {
    IdFindPlayerSound(s.chars, s.loadedChars, id);
  }

  lemma {:induction false} FindGroupInSound(groups: map<Addr, Group>, list: seq<Addr>, id: nat)
    requires NULL !in groups && forall g :: g in list ==> g in groups
    ensures var g := FindGroupIn(groups, list, id);
      if g == NULL then forall h :: h in list ==> groups[h].id != id else g in groups && groups[g].id == id
  {
    if list == [] {
    } else {
      FindGroupInSound(groups, list[1..], id);
    }
  }

  /** group_find_by_id finds the one loaded group with that id. */
  lemma FindGroupFound(s: State, g: Addr)
    requires HeapOk(s) && g in s.groups
    ensures FindGroup(s, s.groups[g].id) == g
  {
    FindGroupInSound(s.groups, s.loadedGroups, s.groups[g].id);
  }

  lemma {:induction false} FindRequestSound(requests: seq<Request>, name: string)
    ensures FindRequest(requests, name).Some? ==> FindRequest(requests, name).value in requests
  {
    if requests == [] || name == "" || FindRequest(requests, name) == Some(requests[0]) {
    } else {
      FindRequestSound(requests[1..], name);
    }
  }
}
