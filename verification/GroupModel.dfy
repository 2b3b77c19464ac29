/**
 The group state of the game and what each operation on it should do, as functions of the whole state.

 C pointers are addresses into two heaps, `chars` and `groups`; NULL is 0 and IS_VALID(p) is membership in
 the heap, so a pointer to a freed object is an address that is no longer a key.
 */
module GroupModel {
  import opened Lists
  import opened Strings

  type Addr = nat

  const NULL: Addr := 0
  const PENDING_TTL := 60
  const PENDING_MAX := 10
  const FOLLOWER_CAP := 9

  /** CHAR_DATA. `mounted` is the value of MOUNTED(ch); the last five fields live in pcdata, which only players have. */
  datatype Char = Char(
    name: string, npc: bool, id: nat, charmed: bool,
    master: Addr, pet: Addr, mounted: Addr,
    group: Addr, leader: Addr, numGrouped: int, lgroup: seq<Addr>,
    inviter: nat, inviteGroup: nat, inviteExpires: nat,
    requestGroup: nat, requestExpires: nat)

  /** GROUP_PENDING_REQUEST */
  datatype Request = Request(requester: nat, name: string, expires: nat)

  /** GROUP_DATA */
  datatype Group = Group(
    id: nat, leader: Addr, members: seq<Addr>, requests: seq<Request>,
    playerCount: int, allowNpcOnly: bool)

  /** `nextGroup` is the address the next allocation returns; `lastPcId` is what get_pc_id last handed out. */
  datatype State = State(
    chars: map<Addr, Char>, groups: map<Addr, Group>,
    loadedChars: seq<Addr>, loadedGroups: seq<Addr>,
    nextGroup: Addr, lastPcId: nat, now: nat)

  // ----- Lookups

  function IdFindPlayer(chars: map<Addr, Char>, list: seq<Addr>, id: nat): Addr {
    if list == [] then NULL
    else if list[0] in chars && !chars[list[0]].npc && chars[list[0]].id == id then list[0]
    else IdFindPlayer(chars, list[1..], id)
  }

  function FindPlayer(s: State, id: nat): Addr {
    IdFindPlayer(s.chars, s.loadedChars, id)
  }

  function FindGroupIn(groups: map<Addr, Group>, list: seq<Addr>, id: nat): Addr {
    if list == [] then NULL
    else if list[0] in groups && groups[list[0]].id == id then list[0]
    else FindGroupIn(groups, list[1..], id)
  }

  function FindGroup(s: State, id: nat): Addr {
    FindGroupIn(s.groups, s.loadedGroups, id)
  }

  function FindMember(chars: map<Addr, Char>, members: seq<Addr>, name: string): Addr {
    if members == [] || name == "" then NULL
    else if members[0] in chars && IsPrefix(name, chars[members[0]].name) then members[0]
    else FindMember(chars, members[1..], name)
  }

  predicate HasRequest(requests: seq<Request>, id: nat) {
    exists i :: 0 <= i < |requests| && requests[i].requester == id
  }

  function FindRequest(requests: seq<Request>, name: string): Option<Request> {
    if requests == [] || name == "" then None
    else if IsPrefix(name, requests[0].name) then Some(requests[0])
    else FindRequest(requests[1..], name)
  }

  // ----- Pending-request queue

  function DropRequester(requests: seq<Request>, id: nat): seq<Request> {
    if requests == [] then []
    else if requests[0].requester == id then DropRequester(requests[1..], id)
    else [requests[0]] + DropRequester(requests[1..], id)
  }

  function Unexpired(requests: seq<Request>, now: nat): seq<Request> {
    if requests == [] then []
    else if requests[0].expires > now then [requests[0]] + Unexpired(requests[1..], now)
    else Unexpired(requests[1..], now)
  }

  predicate HasExpired(requests: seq<Request>, now: nat, id: nat) {
    exists i :: 0 <= i < |requests| && requests[i].requester == id && requests[i].expires <= now
  }

  function ClearInviteState(c: Char): Char {
    if c.npc then c else c.(inviter := 0, inviteGroup := 0, inviteExpires := 0)
  }

  function ClearRequestState(c: Char): Char {
    if c.npc then c else c.(requestGroup := 0, requestExpires := 0)
  }

  predicate HasActiveInvite(s: State, ch: Addr) {
    ch in s.chars && !s.chars[ch].npc && s.chars[ch].inviteExpires > s.now && s.chars[ch].inviter != 0
  }

  predicate HasActiveRequest(s: State, ch: Addr) {
    ch in s.chars && !s.chars[ch].npc && s.chars[ch].requestExpires > s.now && s.chars[ch].requestGroup != 0
  }

  function SetChar(s: State, ch: Addr, c: Char): State {
    s.(chars := s.chars[ch := c])
  }

  function SetGroup(s: State, g: Addr, grp: Group): State {
    s.(groups := s.groups[g := grp])
  }

  function ClearInvite(s: State, ch: Addr): State {
    if ch in s.chars then SetChar(s, ch, ClearInviteState(s.chars[ch])) else s
  }

  function ClearRequest(s: State, ch: Addr): State {
    if ch in s.chars then SetChar(s, ch, ClearRequestState(s.chars[ch])) else s
  }

  function RemoveRequest(s: State, g: Addr, id: nat): State {
    if g in s.groups then
      SetGroup(s, g, s.groups[g].(requests := DropRequester(s.groups[g].requests, id)))
    else s
  }

  /** What expiry of group entries does to a character when the requesters are told about it. */
  function ExpireChar(grp: Group, now: nat, c: Char): Char {
    if !c.npc && HasExpired(grp.requests, now, c.id) && c.requestGroup == grp.id then ClearRequestState(c) else c
  }

  function RemoveExpired(s: State, g: Addr, tell: bool): State {
    if g !in s.groups then s
    else
      var grp := s.groups[g];
      s.(groups := s.groups[g := grp.(requests := Unexpired(grp.requests, s.now))],
         chars := if tell then map c | c in s.chars :: ExpireChar(grp, s.now, s.chars[c]) else s.chars)
  }

  // ----- Leadership

  function CommandLeader(s: State, ch: Addr): Addr
    requires ch in s.chars
  {
    var c := s.chars[ch];
    if c.group in s.groups && s.groups[c.group].leader in s.chars then s.groups[c.group].leader
    else if c.leader in s.chars then c.leader
    else ch
  }

  predicate ActorIsLeader(s: State, ch: Addr) {
    && ch in s.chars
    && CommandLeader(s, ch) == ch
    && s.chars[ch].master == NULL
    && (s.chars[ch].leader == NULL || s.chars[ch].leader == ch)
  }

  predicate IsSameGroup(s: State, a: Addr, b: Addr) {
    && a in s.chars
    && b in s.chars
    && (|| a == b
        || a == s.chars[b].mounted
        || b == s.chars[a].mounted
        || (s.chars[a].group in s.groups && s.chars[a].group == s.chars[b].group)
        || LegacyHead(s, a) == LegacyHead(s, b))
  }

  /** The character a legacy pointer comparison compares: the leader if there is one, else the character. */
  function LegacyHead(s: State, a: Addr): Addr
    requires a in s.chars
  {
    if s.chars[a].leader != NULL then s.chars[a].leader else a
  }

  /** The leader a group shows to its members: its leader pointer when that is live and listed, else NULL. */
  function EffectiveLeader(s: State, grp: Group): Addr {
    if grp.leader in s.chars && grp.leader in grp.members then grp.leader else NULL
  }

  /** The legacy fields a member must show, as a function of the group alone. */
  function LegacyOf(grp: Group, leader: Addr, m: Addr, c: Char): Char {
    if m != NULL && m == leader then
      c.(leader := NULL, numGrouped := |grp.members| - 1, lgroup := Without(grp.members, m))
    else
      c.(leader := leader, numGrouped := 0, lgroup := [])
  }

  function Sync(s: State, g: Addr): State {
    if g !in s.groups then s
    else
      var grp := s.groups[g];
      var leader := EffectiveLeader(s, grp);
      s.(groups := s.groups[g := grp.(leader := leader)],
         chars := map c | c in s.chars ::
           if c in grp.members then LegacyOf(grp, leader, c, s.chars[c]) else s.chars[c])
  }

  function SetLeader(s: State, g: Addr, n: Addr): State {
    if g !in s.groups || n !in s.chars || s.chars[n].group != g then s
    else if s.chars[n].npc && (!s.groups[g].allowNpcOnly || s.groups[g].playerCount > 0) then s
    else Sync(SetGroup(s, g, s.groups[g].(leader := n)), g)
  }

  function FirstPlayer(chars: map<Addr, Char>, members: seq<Addr>): Addr {
    if members == [] then NULL
    else if members[0] in chars && !chars[members[0]].npc then members[0]
    else FirstPlayer(chars, members[1..])
  }

  function FirstLive(chars: map<Addr, Char>, members: seq<Addr>): Addr {
    if members == [] then NULL
    else if members[0] in chars then members[0]
    else FirstLive(chars, members[1..])
  }

  /** Who leads after a departure: the leader if still there, else the first player, else an NPC where allowed. */
  function Successor(chars: map<Addr, Char>, grp: Group): Addr {
    if grp.leader in chars then grp.leader
    else if FirstPlayer(chars, grp.members) != NULL then FirstPlayer(chars, grp.members)
    else if grp.allowNpcOnly && grp.playerCount < 1 then FirstLive(chars, grp.members)
    else grp.leader
  }

  // ----- Membership

  /** A character after its group is gone under it. */
  function Ungrouped(c: Char): Char {
    ClearRequestState(ClearInviteState(c)).(group := NULL, leader := NULL, numGrouped := 0, lgroup := [])
  }

  function DisbandChar(grp: Group, g: Addr, addr: Addr, c: Char): Char {
    var c1 := if addr in grp.members && c.group == g then Ungrouped(c) else c;
    if HasRequest(grp.requests, c.id) then ClearRequestState(c1) else c1
  }

  function Disband(s: State, g: Addr): State {
    if g !in s.groups then s
    else
      s.(chars := map c | c in s.chars :: DisbandChar(s.groups[g], g, c, s.chars[c]),
         groups := s.groups - {g},
         loadedGroups := Without(s.loadedGroups, g))
  }

  /** A character that has just left its group; `numGrouped` and `lgroup` keep whatever they held. */
  function Departed(c: Char): Char {
    ClearRequestState(ClearInviteState(c)).(group := NULL, leader := NULL)
  }

  /** The group record once ch is off its list and the succession is settled. */
  function WithoutMember(chars: map<Addr, Char>, grp: Group, ch: Addr): Group
    requires ch in chars
  {
    var left := grp.(
      members := Without(grp.members, ch),
      playerCount := if !chars[ch].npc && grp.playerCount > 0 then grp.playerCount - 1 else grp.playerCount,
      leader := if grp.leader == ch then NULL else grp.leader);
    if left.members == [] then left else left.(leader := Successor(chars, left))
  }

  function RemoveMember(s: State, ch: Addr, disbandIfEmpty: bool): State {
    if ch !in s.chars || s.chars[ch].group !in s.groups then s
    else
      var g := s.chars[ch].group;
      var grp := WithoutMember(s.chars, s.groups[g], ch);
      var s1 := SetGroup(SetChar(s, ch, Departed(s.chars[ch])), g, grp);
      if grp.members == [] then (if disbandIfEmpty then Disband(s1, g) else s1)
      else if !grp.allowNpcOnly && grp.playerCount < 1 then Disband(s1, g)
      else Sync(s1, g)
  }

  function Joined(c: Char, g: Addr): Char {
    ClearRequestState(ClearInviteState(c)).(group := g)
  }

  /** The group record once ch is on its list and the leader is settled. */
  function WithMember(s: State, grp: Group, ch: Addr): Group
    requires ch in s.chars
  {
    var npc := s.chars[ch].npc;
    var count := if npc then grp.playerCount else grp.playerCount + 1;
    var leader := if !npc && grp.leader in s.chars && s.chars[grp.leader].npc && count > 0 then ch else grp.leader;
    grp.(members := if ch in grp.members then grp.members else grp.members + [ch],
         playerCount := count,
         leader := if leader in s.chars then leader else ch)
  }

  function AddMember(s: State, g: Addr, ch: Addr): (State, bool) {
    if g !in s.groups || ch !in s.chars then (s, false)
    else if s.chars[ch].group == g then (s, true)
    else
      var s1 := if s.chars[ch].group in s.groups then RemoveMember(s, ch, true) else s;
      if g !in s1.groups || ch !in s1.chars then (s1, false)
      else
        var s2 := SetGroup(s1, g, WithMember(s1, s1.groups[g], ch));
        (Sync(SetChar(s2, ch, Joined(s1.chars[ch], g)), g), true)
  }

  function PcId(s: State): nat {
    if s.now <= s.lastPcId then s.lastPcId + 1 else s.now
  }

  function Create(s: State, leader: Addr, allowNpcOnly: bool): (State, Addr) {
    if leader !in s.chars then (s, NULL)
    else if s.chars[leader].group in s.groups then (s, s.chars[leader].group)
    else
      var g := s.nextGroup;
      var s1 := s.(
        groups := s.groups[g := Group(PcId(s), leader, [], [], 0, allowNpcOnly)],
        loadedGroups := s.loadedGroups + [g],
        nextGroup := g + 1,
        lastPcId := PcId(s));
      (AddMember(s1, g, leader).0, g)
  }

  function AddGrouped(s: State, ch: Addr, master: Addr): (State, bool) {
    if ch !in s.chars || master !in s.chars then (s, false)
    else if s.chars[ch].group in s.groups && s.chars[ch].group == s.chars[master].group then (s, true)
    else
      var (s1, g) := Create(s, master, s.chars[master].npc);
      if master !in s1.chars || s1.chars[master].numGrouped >= FOLLOWER_CAP then (s1, false)
      else AddMember(s1, g, ch)
  }

  function StopGrouped(s: State, ch: Addr): State {
    if ch !in s.chars then s
    else if s.chars[ch].group in s.groups then RemoveMember(s, ch, true)
    else
      var head := s.chars[ch].leader;
      var s1 := if head != ch && head != NULL && head in s.chars then
                  SetChar(s, head, s.chars[head].(numGrouped := s.chars[head].numGrouped - 1,
                                                  lgroup := Without(s.chars[head].lgroup, ch)))
                else s;
      SetChar(s1, ch, s1.chars[ch].(leader := NULL))
  }

  function DisbandAll(s: State, list: seq<Addr>): State
    decreases |list|
  {
    if list == [] then s else DisbandAll(Disband(s, list[0]), list[1..])
  }

  function ClearAll(s: State): State {
    DisbandAll(s, s.loadedGroups)
  }

  // ----- Following

  function AddFollower(s: State, ch: Addr, master: Addr): State {
    if ch !in s.chars || s.chars[ch].master != NULL then s
    else StopGrouped(SetChar(s, ch, s.chars[ch].(master := master)), ch)
  }

  function LosePet(s: State, master: Addr, ch: Addr): State {
    if master in s.chars && s.chars[master].pet == ch then SetChar(s, master, s.chars[master].(pet := NULL)) else s
  }

  function StopFollower(s: State, ch: Addr): State {
    if ch !in s.chars || s.chars[ch].master == NULL then s
    else
      var s1 := LosePet(SetChar(s, ch, s.chars[ch].(charmed := false)), s.chars[ch].master, ch);
      StopGrouped(SetChar(s1, ch, s1.chars[ch].(master := NULL)), ch)
  }

  /** One pass of die_follower's loop over the loaded characters, repair branch included. */
  function ReleaseFollower(s: State, fch: Addr, ch: Addr): State {
    if fch !in s.chars then s
    else
      var s1 := if s.chars[fch].master == ch then StopFollower(s, fch) else s;
      if fch in s1.chars && s1.chars[fch].leader == ch then AddGrouped(s1, fch, fch).0 else s1
  }

  function ReleaseFollowers(s: State, list: seq<Addr>, ch: Addr): State {
    if list == [] then s
    else
      var s1 := ReleaseFollowers(s, list[..|list| - 1], ch);
      ReleaseFollower(s1, list[|list| - 1], ch)
  }

  /** die_follower up to its loop: ch has left its master and its group. */
  function DetachSelf(s: State, ch: Addr): State
    requires ch in s.chars
  {
    var master := s.chars[ch].master;
    var s1 := if master != NULL && master in s.chars
              then StopFollower(SetChar(s, master, s.chars[master].(pet := NULL)), ch)
              else s;
    StopGrouped(s1, ch)
  }

  function DieFollower(s: State, ch: Addr): State
    requires ch in s.chars
  {
    var s1 := DetachSelf(s, ch);
    ReleaseFollowers(s1, s1.loadedChars, ch)
  }

  // ----- The arms of the group command

  function Promote(s: State, ch: Addr, arg: string): State {
    if arg == "" || !ActorIsLeader(s, ch) then s
    else
      var g := s.chars[ch].group;
      if g !in s.groups then s
      else
        var target := FindMember(s.chars, s.groups[g].members, arg);
        if target !in s.chars || target == ch || s.chars[target].npc then s
        else SetLeader(s, g, target)
  }

  /** The invitation itself, once the inviter ch has its group g. */
  function InviteTo(s: State, g: Addr, ch: Addr, victim: Addr): State {
    if g !in s.groups || ch !in s.chars || victim !in s.chars || s.chars[victim].npc || victim == ch then s
    else if s.chars[victim].group in s.groups || IsSameGroup(s, victim, ch) || HasActiveInvite(s, victim) then s
    else SetChar(s, victim, s.chars[victim].(
                   inviter := s.chars[ch].id, inviteGroup := s.groups[g].id, inviteExpires := s.now + PENDING_TTL))
  }

  function Invite(s: State, ch: Addr, victim: Addr): State {
    if !ActorIsLeader(s, ch) then s
    else
      var (s1, g) := Create(s, ch, false);
      InviteTo(s1, g, ch, victim)
  }

  /** Queue a request of ch in g and let ch remember it. */
  function Enqueue(s: State, g: Addr, ch: Addr): State
    requires g in s.groups && ch in s.chars
  {
    var grp, c := s.groups[g], s.chars[ch];
    var entry := Request(c.id, c.name, s.now + PENDING_TTL);
    SetChar(SetGroup(s, g, grp.(requests := grp.requests + [entry])), ch,
            c.(requestGroup := grp.id, requestExpires := entry.expires))
  }

  /** The request itself, once the leader has its group g. */
  function RequestOf(s: State, g: Addr, ch: Addr): State {
    if g !in s.groups || ch !in s.chars then s
    else if HasActiveRequest(s, ch) && s.chars[ch].requestGroup != s.groups[g].id then s
    else
      var s1 := RemoveExpired(s, g, false);
      if HasRequest(s1.groups[g].requests, s1.chars[ch].id) || |s1.groups[g].requests| >= PENDING_MAX then s1
      else Enqueue(s1, g, ch)
  }

  function RequestJoin(s: State, ch: Addr, leader: Addr): State {
    if ch !in s.chars || s.chars[ch].npc || leader !in s.chars || s.chars[leader].npc || leader == ch then s
    else if !ActorIsLeader(s, leader) || IsSameGroup(s, ch, leader) then s
    else
      var (s1, g) := Create(s, leader, false);
      RequestOf(s1, g, ch)
  }

  function AdmitInvited(s: State, ch: Addr, inviter: Addr): State {
    ClearInvite(AddGrouped(s, ch, inviter).0, ch)
  }

  function AcceptInvite(s: State, ch: Addr, arg: string): State
    requires ch in s.chars
  {
    var c := s.chars[ch];
    var inviter := FindPlayer(s, c.inviter);
    var g := FindGroup(s, c.inviteGroup);
    if arg != "" && (inviter !in s.chars || !IsPrefix(arg, s.chars[inviter].name)) then s
    else if inviter !in s.chars || !ActorIsLeader(s, inviter) then ClearInvite(s, ch)
    else if g !in s.groups || s.chars[inviter].group != g then ClearInvite(s, ch)
    else if c.group in s.groups && c.group != g then s
    else if IsSameGroup(s, ch, inviter) then ClearInvite(s, ch)
    else AdmitInvited(s, ch, inviter)
  }

  /** The leader ch of g takes the player behind the entry with that id. */
  function AdmitRequester(s: State, g: Addr, ch: Addr, id: nat): State {
    var requester := FindPlayer(s, id);
    if requester !in s.chars then RemoveRequest(s, g, id)
    else
      var (s1, ok) := AddGrouped(s, requester, ch);
      if !ok then s1
      else ClearInvite(ClearRequest(RemoveRequest(s1, g, id), requester), requester)
  }

  /** Acceptance by the leader ch, once ch has its group g. */
  function AcceptRequestIn(s: State, g: Addr, ch: Addr, arg: string): State {
    if g !in s.groups then s
    else
      var s1 := RemoveExpired(s, g, true);
      var r := FindRequest(s1.groups[g].requests, arg);
      if r.None? then s1 else AdmitRequester(s1, g, ch, r.value.requester)
  }

  function AcceptRequest(s: State, ch: Addr, arg: string): State {
    if !ActorIsLeader(s, ch) then s
    else
      var (s1, g) := Create(s, ch, false);
      AcceptRequestIn(s1, g, ch, arg)
  }

  function Accept(s: State, ch: Addr, arg: string): State {
    if ch !in s.chars then s
    else if HasActiveInvite(s, ch) then AcceptInvite(s, ch, arg)
    else if arg != "" then AcceptRequest(s, ch, arg)
    else s
  }

  function DeclineInvite(s: State, ch: Addr, arg: string): State
    requires ch in s.chars
  {
    var inviter := FindPlayer(s, s.chars[ch].inviter);
    if arg != "" && (inviter !in s.chars || !IsPrefix(arg, s.chars[inviter].name)) then s
    else ClearInvite(s, ch)
  }

  /** Turn away the player behind the entry with that id. */
  function Reject(s: State, g: Addr, id: nat): State {
    RemoveRequest(ClearRequest(s, FindPlayer(s, id)), g, id)
  }

  function DeclineRequest(s: State, ch: Addr, arg: string): State {
    if !ActorIsLeader(s, ch) || s.chars[ch].group !in s.groups then s
    else
      var g := s.chars[ch].group;
      var s1 := RemoveExpired(s, g, true);
      var r := FindRequest(s1.groups[g].requests, arg);
      if r.None? then s1 else Reject(s1, g, r.value.requester)
  }

  function Decline(s: State, ch: Addr, arg: string): State {
    if ch !in s.chars then s
    else if HasActiveInvite(s, ch) then DeclineInvite(s, ch, arg)
    else if arg != "" then DeclineRequest(s, ch, arg)
    else s
  }

  /** `group requests` (tell) and the prompt's group_has_pending_requests (no telling). */
  function ShowRequests(s: State, ch: Addr, tell: bool): State {
    if !ActorIsLeader(s, ch) || s.chars[ch].group !in s.groups then s
    else RemoveExpired(s, s.chars[ch].group, tell)
  }

  function ExpireOwn(s: State, ch: Addr): State
    requires ch in s.chars
  {
    var c := s.chars[ch];
    var c1 := if 0 < c.inviteExpires <= s.now then ClearInviteState(c) else c;
    var c2 := if 0 < c1.requestExpires <= s.now then ClearRequestState(c1) else c1;
    SetChar(s, ch, c2)
  }

  function PendingUpdate(s: State, ch: Addr): State {
    if ch !in s.chars || s.chars[ch].npc then s
    else ShowRequests(ExpireOwn(s, ch), ch, true)
  }

  /** The bare `group <name>`: put a follower into the group, or take one out. */
  function Toggle(s: State, ch: Addr, victim: Addr): State {
    if ch !in s.chars || victim !in s.chars then s
    else if s.chars[ch].master != NULL || (s.chars[ch].leader != NULL && s.chars[ch].leader != ch) then s
    else if (s.chars[victim].master != ch && ch != victim) || s.chars[victim].charmed || s.chars[ch].charmed then s
    else if ch == victim then s
    else if IsSameGroup(s, victim, ch) then StopGrouped(s, victim)
    else AddGrouped(s, victim, ch).0
  }
}
