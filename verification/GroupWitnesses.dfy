/** Runs that reach the states in which the group code does less than it promises. */
module GroupWitnesses {
  import opened Lists
  import opened Strings
  import opened GroupModel
  import opened GroupInvariants
  import opened GroupMembership
  import opened GroupCommands
  import opened GroupRuns
  import opened GroupFrames
  import opened GroupTheorems
  import opened GroupOutcomes
  import opened GroupSplit

  /** Players with these names come into the game, at the addresses 1, 2, 3 and so on. */
  function Logins(names: seq<string>): seq<Op> {
    if names == [] then []
    else Logins(names[..|names| - 1]) + [OpLogin(|names|, names[|names| - 1], false, |names|)]
  }

  lemma RunMore(s: State, ops: seq<Op>, op: Op)
    ensures Run(s, ops + [op]) == Step(Run(s, ops), op)
  {
    assert (ops + [op])[..|ops|] == ops;
  }

  /** These players are in the game and nobody else, and there are no groups. */
  ghost predicate Loners(s: State, names: seq<string>) {
    && Inv(s) && s.groups == map[]
    && (forall c :: c in s.chars <==> 1 <= c <= |names|)
    && (forall c :: c in s.chars && 1 <= c <= |names| ==> s.chars[c] == NewChar(names[c - 1], false, c))
  }

  lemma OneLogin(s: State, names: seq<string>)
    requires names != [] && Loners(s, names[..|names| - 1])
    ensures Loners(Login(s, |names|, names[|names| - 1], false, |names|), names)
  {
    var n, name := |names|, names[|names| - 1];
    LoginInv(s, n, name, false, n);
    NobodyHas(s, names, n);
    LonersMore(s, names, Login(s, n, name, false, n));
  }

  lemma NobodyHas(s: State, names: seq<string>, n: nat)
    requires names != [] && Loners(s, names[..|names| - 1]) && n == |names|
    ensures n !in s.chars && FindPlayer(s, n) == NULL
  {
    FindPlayerSound(s, n);
    IdFindPlayerSound(s.chars, s.loadedChars, n);
  }

  lemma LonersMore(s: State, names: seq<string>, t: State)
    requires names != [] && Loners(s, names[..|names| - 1]) && Inv(t) && t.groups == s.groups
    requires t.chars == s.chars[|names| := NewChar(names[|names| - 1], false, |names|)]
    ensures Loners(t, names)
  {
  }

  lemma StepIsLogin(s: State, ch: Addr, name: string, npc: bool, id: nat)
    ensures Step(s, OpLogin(ch, name, npc, id)) == Login(s, ch, name, npc, id)
  {
  }

  lemma NextLogin(ops: seq<Op>, names: seq<string>)
    requires names != [] && Loners(Run(Boot(0), ops), names[..|names| - 1])
    ensures Loners(Run(Boot(0), ops + [OpLogin(|names|, names[|names| - 1], false, |names|)]), names)
  {
    var n, name := |names|, names[|names| - 1];
    RunMore(Boot(0), ops, OpLogin(n, name, false, n));
    StepIsLogin(Run(Boot(0), ops), n, name, false, n);
    OneLogin(Run(Boot(0), ops), names);
  }

  lemma {:induction false} LoggedIn(names: seq<string>)
    ensures Loners(Run(Boot(0), Logins(names)), names)
  {
    if names == [] {
      RunInv(0, []);
    } else {
      LoggedIn(names[..|names| - 1]);
      NextLogin(Logins(names[..|names| - 1]), names);
    }
  }

  /** The first k players, in order. */
  function FirstPlayers(k: nat): (r: seq<Addr>)
    ensures |r| == k && forall i :: 0 <= i < k ==> r[i] == i + 1
  {
    if k == 0 then [] else FirstPlayers(k - 1) + [k]
  }

  /** The first k players form group g, led by the first; the others up to n are in no group. */
  ghost predicate Gathered(s: State, n: nat, k: nat, g: Addr) {
    && Inv(s) && (forall c :: c in s.chars <==> 1 <= c <= n) && (forall c :: c in s.chars ==> !s.chars[c].npc)
    && g in s.groups && s.groups[g].members == FirstPlayers(k) && s.groups[g].leader == 1
    && (forall c :: k < c <= n ==> c in s.chars && s.chars[c].group == NULL)
  }

  lemma FoundedAlone(s: State, leader: Addr, t: State, c: Addr)
    requires Inv(s) && leader in s.chars && t == Create(s, leader, false).0 && c in s.chars
    ensures c in t.chars && t.chars[c].npc == s.chars[c].npc && (c != leader ==> t.chars[c].group == s.chars[c].group)
  {
    CreateNature(s, leader, false);
    if c != leader {
      CreateStays(s, leader, false, c);
    }
  }

  lemma Founded(s: State, names: seq<string>)
    requires names != [] && Loners(s, names)
    ensures Gathered(Create(s, 1, false).0, |names|, 1, s.nextGroup)
  {
    var t := Create(s, 1, false).0;
    CreateInv(s, 1, false);
    FoundedGroup(s, 1, false);
    forall c | c in s.chars
      ensures c in t.chars && t.chars[c].npc == s.chars[c].npc && (c != 1 ==> t.chars[c].group == s.chars[c].group)
    {
      FoundedAlone(s, 1, t, c);
    }
    FoundedFirst(s, names, t, s.nextGroup);
  }

  lemma FoundedFirst(s: State, names: seq<string>, t: State, g: Addr)
    requires names != [] && Loners(s, names) && Inv(t) && t.chars.Keys == s.chars.Keys
    requires g in t.groups && t.groups[g].members == [1] && t.groups[g].leader == 1
    requires forall c :: c in s.chars ==> t.chars[c].npc == s.chars[c].npc && (c != 1 ==> t.chars[c].group == s.chars[c].group)
    ensures Gathered(t, |names|, 1, g)
  {
    assert FirstPlayers(1) == [1];
  }

  /** Behind the leader of g, which has room: what the join does to the group, and to everybody else. */
  lemma JoinLeader(s: State, ch: Addr, g: Addr)
    requires Inv(s) && g in s.groups && ch in s.chars && s.chars[ch].group == NULL && |s.groups[g].members| <= FOLLOWER_CAP
    requires !s.chars[ch].npc && s.groups[g].leader in s.chars && !s.chars[s.groups[g].leader].npc
    requires s.chars[s.groups[g].leader].group == g
    ensures var t := AddGrouped(s, ch, s.groups[g].leader).0;
      && Inv(t) && t.chars.Keys == s.chars.Keys && g in t.groups
      && t.groups[g].members == s.groups[g].members + [ch] && t.groups[g].leader == s.groups[g].leader
      && OnlyEnter(s, t, {ch}) && SameCast(s, t)
  {
    var leader := s.groups[g].leader;
    assert NULL !in s.groups;
    CapReading(s, leader);
    JoinBehind(s, ch, leader);
    AddGroupedInv(s, ch, leader);
    LeaderAfterJoin(s, g, ch);
    AddGroupedWithGroup(s, ch, leader);
    assert AddGrouped(s, ch, leader) == AddMember(s, g, ch);
  }

  lemma OneMore(s: State, n: nat, k: nat, g: Addr)
    requires 2 <= k <= n && k <= FOLLOWER_CAP + 1 && Gathered(s, n, k - 1, g)
    ensures Gathered(AddGrouped(s, k, 1).0, n, k, g)
  {
    var t := AddGrouped(s, k, 1).0;
    assert FirstPlayers(k - 1)[0] == 1;
    assert Roster(s, g);
    JoinLeader(s, k, g);
    assert FirstPlayers(k) == FirstPlayers(k - 1) + [k];
    forall c | k < c <= n ensures c in t.chars && t.chars[c].group == NULL {
      assert c in s.chars && s.chars[c].group == NULL;
    }
  }

  lemma StepIsJoin(s: State, ch: Addr, master: Addr)
    ensures Step(s, OpAddGrouped(ch, master)) == AddGrouped(s, ch, master).0
  {
  }

  lemma GatherFirst(ops: seq<Op>, names: seq<string>)
    requires names != [] && Loners(Run(Boot(0), ops), names)
    ensures Gathered(Run(Boot(0), ops + [OpCreate(1, false)]), |names|, 1, Run(Boot(0), ops).nextGroup)
  {
    RunMore(Boot(0), ops, OpCreate(1, false));
    Founded(Run(Boot(0), ops), names);
  }

  lemma GatherNext(ops: seq<Op>, n: nat, k: nat, g: Addr)
    requires 2 <= k <= n && k <= FOLLOWER_CAP + 1 && Gathered(Run(Boot(0), ops), n, k - 1, g)
    ensures Gathered(Run(Boot(0), ops + [OpAddGrouped(k, 1)]), n, k, g)
  {
    RunMore(Boot(0), ops, OpAddGrouped(k, 1));
    StepIsJoin(Run(Boot(0), ops), k, 1);
    OneMore(Run(Boot(0), ops), n, k, g);
  }

  /** After the operations, the gathering of the first k of n players. */
  ghost predicate Gather(ops: seq<Op>, n: nat, k: nat) {
    exists g :: Gathered(Run(Boot(0), ops), n, k, g)
  }

  lemma GatheringGoesOn(ops: seq<Op>, n: nat, k: nat)
    requires 2 <= k <= n && k <= FOLLOWER_CAP + 1 && Gather(ops, n, k - 1)
    ensures Gather(ops + [OpAddGrouped(k, 1)], n, k)
  {
    var g :| Gathered(Run(Boot(0), ops), n, k - 1, g);
    GatherNext(ops, n, k, g);
  }

  lemma GatheringStarts(names: seq<string>)
    requires names != []
    ensures Gather(Logins(names) + [OpCreate(1, false)], |names|, 1)
  {
    LoggedIn(names);
    GatherFirst(Logins(names), names);
  }

  /** Of these players the first founds a group, and those up to k join it behind the founder. */
  lemma {:induction false} Gathering(names: seq<string>, k: nat) returns (ops: seq<Op>)
    requires 1 <= k <= |names| && k <= FOLLOWER_CAP + 1
    ensures Gather(ops, |names|, k)
  {
    if k == 1 {
      GatheringStarts(names);
      ops := Logins(names) + [OpCreate(1, false)];
    } else {
      ops := Gathering(names, k - 1);
      GatheringGoesOn(ops, |names|, k);
      ops := ops + [OpAddGrouped(k, 1)];
    }
  }

  lemma OneTooMany(s: State, n: nat, g: Addr)
    requires n == FOLLOWER_CAP + 2 && Gathered(s, n, n - 1, g)
    ensures !CapOk(AddGrouped(s, n, 2).0)
  {
    assert FirstPlayers(n - 1)[1] == 2;
    assert Roster(s, g);
    JoinBehind(s, n, 2);
    assert |AddGrouped(s, n, 2).0.groups[g].members| == n;
  }

  lemma CapGivesWay(ops: seq<Op>, n: nat)
    requires n == FOLLOWER_CAP + 2 && Gather(ops, n, n - 1)
    ensures !CapOk(Run(Boot(0), ops + [OpAddGrouped(n, 2)]))
  {
    var g :| Gathered(Run(Boot(0), ops), n, n - 1, g);
    RunMore(Boot(0), ops, OpAddGrouped(n, 2));
    StepIsJoin(Run(Boot(0), ops), n, 2);
    OneTooMany(Run(Boot(0), ops), n, g);
  }

  /** The cap gives way in a reachable state: an eleventh player joins behind a member who does not lead. */
  lemma CapIsReachable()
    ensures exists ops :: !CapOk(Run(Boot(0), ops))
  {
    var names: seq<string> := seq(FOLLOWER_CAP + 2, i => "");
    var ops := Gathering(names, |names| - 1);
    CapGivesWay(ops, |names|);
  }

  // ----- A split that loses coins

  /** A player and an NPC come in, and the NPC joins the player's group. */
  function Companions(): seq<Op> {
    [OpLogin(1, "", false, 1), OpLogin(2, "", true, 2), OpAddGrouped(2, 1)]
  }

  /** Players 1 and 2 are in one group; the second is an NPC; neither is charmed. */
  ghost predicate Pals(s: State) {
    && 1 in s.chars && 2 in s.chars && !s.chars[1].npc && s.chars[2].npc && !s.chars[1].charmed && !s.chars[2].charmed
    && s.chars[1].group != NULL && s.chars[1].group in s.groups && s.chars[1].group == s.chars[2].group
  }

  lemma CompanionsRun()
    ensures Pals(Run(Boot(0), Companions()))
  {
    var first := Logins([""]);
    assert Companions() == first + [OpLogin(2, "", true, 2)] + [OpAddGrouped(2, 1)] by {
      assert Logins([]) == [] && [""][..0] == [] && first == [] + [OpLogin(1, "", false, 1)];
    }
    LoggedIn([""]);
    RunMore(Boot(0), first, OpLogin(2, "", true, 2));
    RunMore(Boot(0), first + [OpLogin(2, "", true, 2)], OpAddGrouped(2, 1));
    StepIsJoin(Run(Boot(0), first + [OpLogin(2, "", true, 2)]), 2, 1);
    PetComes(Run(Boot(0), first), [""]);
  }

  lemma PetComes(s: State, names: seq<string>)
    requires Loners(s, names) && |names| == 1
    ensures Pals(AddGrouped(Step(s, OpLogin(2, "", true, 2)), 2, 1).0)
  {
    var s2 := Login(s, 2, "", true, 2);
    StepIsLogin(s, 2, "", true, 2);
    LoginInv(s, 2, "", true, 2);
    Befriended(s2, 1, 2);
    AddGroupedInv(s2, 2, 1);
    var t := AddGrouped(s2, 2, 1).0;
    assert CharOk(t, 1);
  }

  lemma Befriended(s: State, ch: Addr, pet: Addr)
    requires Inv(s) && ch in s.chars && pet in s.chars && ch != pet && s.chars[ch].group == NULL && s.chars[pet].group == NULL
    ensures var t := AddGrouped(s, pet, ch).0;
      && ch in t.chars && pet in t.chars && t.chars[ch].group != NULL && t.chars[ch].group == t.chars[pet].group
      && SameNature(s.chars[ch], t.chars[ch]) && SameNature(s.chars[pet], t.chars[pet])
  {
    var s1 := LonerStart(s, pet, ch);
    assert NULL !in s.groups;
    MasterKeepsGroup(s, pet, ch);
    JoinLoner(s, pet, ch);
    CreateStays(s, ch, s.chars[ch].npc, pet);
    CreateNature(s, ch, s.chars[ch].npc);
    AddNature(s1, s.nextGroup, pet);
  }

  lemma AddNature(s: State, g: Addr, ch: Addr)
    requires Inv(s) && g in s.groups && ch in s.chars && s.chars[ch].group == NULL
    ensures var t := AddMember(s, g, ch).0;
      forall c :: c in s.chars ==> c in t.chars && SameNature(s.chars[c], t.chars[c])
  {
    AddUnfolds(s, g, ch);
  }

  lemma PalsCount(s: State)
    requires Pals(s)
    ensures Counted(s, 1, [1, 2]) == 2 && Paid(s, 1, [1, 2]) == 0
  {
    var people: seq<Addr> := [1, 2];
    assert people[..1] == [1] && [1][..0] == [];
    assert Counts(s, 1, 1) && Counts(s, 1, 2) && !IsPaid(s, 1, 1) && !IsPaid(s, 1, 2);
    assert Counted(s, 1, people[..1]) == 1 && Paid(s, 1, people[..1]) == 0;
  }

  lemma PalsLose(s: State, purses: map<Addr, Purse>)
    requires Pals(s) && purses == map[1 := Purse(10, 0), 2 := Purse(0, 0)]
    ensures Accepted(s, 1, [1, 2], purses[1], 10, 0) && Counted(s, 1, [1, 2]) == 2
    ensures Silver(Shared(s, 1, [1, 2], 2, purses, 10, 0), [1, 2]) == Silver(purses, [1, 2]) - 5
  {
    PalsCount(s);
    SplitBalance(s, 1, [1, 2], purses, 10, 0);
  }

  /** A player splits ten silver with an NPC: it is counted but not paid, and five coins are gone. */
  lemma SplitLosesCoins()
    ensures var s, purses := Run(Boot(0), Companions()), map[1 := Purse(10, 0), 2 := Purse(0, 0)];
      Accepted(s, 1, [1, 2], purses[1], 10, 0) && Counted(s, 1, [1, 2]) == 2
      && Silver(Shared(s, 1, [1, 2], 2, purses, 10, 0), [1, 2]) == Silver(purses, [1, 2]) - 5
  {
    var purses: map<Addr, Purse> := map[1 := Purse(10, 0), 2 := Purse(0, 0)];
    CompanionsRun();
    PalsLose(Run(Boot(0), Companions()), purses);
  }

  // ----- A stale entry that takes a player out of another group

  /** A request changes nobody but the two it is between. */
  lemma RequestStays(s: State, ch: Addr, leader: Addr, c: Addr)
    requires Inv(s) && leader in s.chars && c in s.chars && c !in {ch, leader}
    ensures var t := RequestJoin(s, ch, leader); c in t.chars && t.chars[c] == s.chars[c]
  {
    CreateStays(s, leader, false, c);
  }

  lemma TickNone(s: State)
    ensures Tick(s, 0) == s
  {
  }

  /** Player 2 has asked player 1, who leads alone and has nobody else waiting; player 3 is on its own. */
  ghost predicate FirstAsked(s: State, names: seq<string>, g: Addr)
    requires |names| == 3
  {
    && Inv(s) && Leads(s, 1, g) && |s.groups[g].members| == 1 && s.groups[g].requests == [Request(2, names[1], s.now + PENDING_TTL)]
    && 2 in s.chars && SameNature(s.chars[2], NewChar(names[1], false, 2)) && s.chars[2].group == NULL
    && 3 in s.chars && s.chars[3] == NewChar(names[2], false, 3) && !s.chars[1].npc && s.chars[1].mounted == NULL
  }

  lemma AloneMayAsk(s: State, names: seq<string>)
    requires |names| == 3 && Loners(s, names)
    ensures MayRequest(s, 2, 1) && QueueOf(s, 1) == [] && PartySize(s, 1) == 1
  {
    assert s.chars[1] == NewChar(names[0], false, 1) && s.chars[2] == NewChar(names[1], false, 2);
    assert Unexpired([], s.now) == [];
  }

  /** What a request leaves behind, before the eyes of a third character. */
  ghost predicate Watched(s: State, ch: Addr, leader: Addr, third: Addr, t: State, g: Addr)
    requires ch in s.chars && leader in s.chars && third in s.chars
  {
    && Inv(t) && Leads(t, leader, g) && |t.groups[g].members| == PartySize(s, leader) && t.now == s.now
    && t.groups[g].requests == Unexpired(QueueOf(s, leader), s.now) + [NewRequest(s, ch)]
    && SameNature(s.chars[leader], t.chars[leader])
    && ch in t.chars && SameNature(s.chars[ch], t.chars[ch]) && t.chars[ch].group == s.chars[ch].group
    && third in t.chars && t.chars[third] == s.chars[third]
  }

  lemma AskWatched(s: State, ch: Addr, leader: Addr, third: Addr) returns (g: Addr)
    requires Inv(s) && MayRequest(s, ch, leader) && third in s.chars && third !in {ch, leader}
    ensures Watched(s, ch, leader, third, RequestJoin(s, ch, leader), g) && g == Create(s, leader, false).1
  {
    RequestJoinInv(s, ch, leader);
    RequestStays(s, ch, leader, third);
    RequestOutcome(s, ch, leader);
    g := RequestJoin(s, ch, leader).chars[leader].group;
  }

  lemma AskFirst(s: State, names: seq<string>) returns (g: Addr)
    requires |names| == 3 && Loners(s, names)
    ensures FirstAsked(RequestJoin(s, 2, 1), names, g)
  {
    AloneMayAsk(s, names);
    g := AskWatched(s, 2, 1, 3);
    WatchedFirst(s, names, RequestJoin(s, 2, 1), g);
  }

  lemma WatchedFirst(s: State, names: seq<string>, t: State, g: Addr)
    requires |names| == 3 && Loners(s, names) && Watched(s, 2, 1, 3, t, g)
    ensures FirstAsked(t, names, g)
  {
    assert s.chars[1] == NewChar(names[0], false, 1) && s.chars[2] == NewChar(names[1], false, 2);
    assert Unexpired([], s.now) + [NewRequest(s, 2)] == [NewRequest(s, 2)];
  }

  lemma FirstAnswers(s: State, names: seq<string>, g: Addr, name: string)
    requires |names| == 3 && FirstAsked(s, names, g) && name != "" && IsPrefix(name, names[1])
    ensures Answers(s, g, name, 2)
  {
    var r := Request(2, names[1], s.now + PENDING_TTL);
    assert [r][1..] == [];
    assert Unexpired([r], s.now) == [r];
  }

  /** Player 2 then joins player 3, and player 1 accepts: out of the one group and into the other. */
  lemma TakenAway(s: State, names: seq<string>, g: Addr)
    requires |names| == 3 && FirstAsked(s, names, g) && names[1] != ""
    ensures var u := AddGrouped(s, 2, 3).0;
      var t := Accept(u, 1, names[1]);
      && 1 in u.chars && 2 in u.chars && 3 in u.chars && u.chars[2].group == u.chars[3].group != NULL
      && u.chars[1].group == g != u.chars[2].group && !HasActiveRequest(u, 2)
      && 2 in t.chars && t.chars[2].group == g
  {
    assert NULL !in s.groups;
    FirstAnswers(s, names, g, names[1]);
    EntryOutlivesJoin(s, 1, g, names[1], 2, 3);
    GroupUntouched(s, 2, 3, 1, g);
    JoinLoner(s, 2, 3);
    MasterKeepsGroup(s, 2, 3);
  }

  lemma StepIsPending(s: State, a: Addr, b: Addr, name: string)
    ensures Step(s, OpRequest(a, b)) == RequestJoin(s, a, b)
    ensures Step(s, OpAccept(a, name)) == Accept(s, a, name)
  {
  }

  lemma AfterRequest(names: seq<string>) returns (g: Addr)
    requires |names| == 3
    ensures FirstAsked(Run(Boot(0), Logins(names) + [OpRequest(2, 1)]), names, g)
  {
    var ops := Logins(names);
    LoggedIn(names);
    RunMore(Boot(0), ops, OpRequest(2, 1));
    StepIsPending(Run(Boot(0), ops), 2, 1, "");
    g := AskFirst(Run(Boot(0), ops), names);
  }

  /**
   Three players, whatever their names: 2 asks 1 to let it in and joins 3 instead. Its own record of the request is
   gone, it is grouped with 3, and 1 by accepting takes it out of that group into its own.
   */
  lemma StaleEntry(names: seq<string>, ops: seq<Op>)
    requires |names| == 3 && names[1] != "" && ops == Logins(names) + [OpRequest(2, 1)] + [OpAddGrouped(2, 3)]
    ensures var u, t := Run(Boot(0), ops), Run(Boot(0), ops + [OpAccept(1, names[1])]);
      && 1 in u.chars && 2 in u.chars && 3 in u.chars && u.chars[2].group == u.chars[3].group != NULL
      && u.chars[1].group != u.chars[2].group && !HasActiveRequest(u, 2)
      && 2 in t.chars && t.chars[2].group == u.chars[1].group
  {
    var asked := Logins(names) + [OpRequest(2, 1)];
    var s := Run(Boot(0), asked);
    var g := AfterRequest(names);
    RunMore(Boot(0), asked, OpAddGrouped(2, 3));
    StepIsJoin(s, 2, 3);
    RunMore(Boot(0), ops, OpAccept(1, names[1]));
    StepIsPending(Run(Boot(0), ops), 1, 1, names[1]);
    TakenAway(s, names, g);
  }

  // ----- A name that an earlier entry answers to

  /** Player 3 asks too, behind player 2. */
  lemma AskSecond(s: State, names: seq<string>, g: Addr)
    requires |names| == 3 && FirstAsked(s, names, g)
    ensures MayRequest(s, 3, 1) && Watched(s, 3, 1, 2, RequestJoin(s, 3, 1), g)
    ensures Unexpired(QueueOf(s, 1), s.now) == [Request(2, names[1], s.now + PENDING_TTL)]
  {
    MayAskSecond(s, names, g);
    var h := AskWatched(s, 3, 1, 2);
    assert h == g;
  }

  lemma MayAskSecond(s: State, names: seq<string>, g: Addr)
    requires |names| == 3 && FirstAsked(s, names, g)
    ensures MayRequest(s, 3, 1) && Unexpired(QueueOf(s, 1), s.now) == [Request(2, names[1], s.now + PENDING_TTL)]
  {
    var first := Request(2, names[1], s.now + PENDING_TTL);
    assert NULL !in s.groups;
    LeadsActs(s, 1, g);
    assert [first][1..] == [] && Unexpired([first], s.now) == [first];
  }

  lemma FirstOfTwo(first: Request, second: Request, name: string, now: nat)
    requires first.expires > now && second.expires > now && name != "" && IsPrefix(name, first.name)
    ensures FindRequest(Unexpired([first, second], now), name) == Some(first)
  {
    assert [first, second][1..] == [second] && [second][1..] == [];
    assert Unexpired([second], now) == [second];
    assert Unexpired([first, second], now) == [first] + [second];
  }

  lemma WrongOneComes(s: State, names: seq<string>, g: Addr, u: State)
    requires |names| == 3 && FirstAsked(s, names, g) && names[2] != "" && IsPrefix(names[2], names[1])
    requires Watched(s, 3, 1, 2, u, g) && Unexpired(QueueOf(s, 1), s.now) == [Request(2, names[1], s.now + PENDING_TTL)]
    ensures var t := Accept(u, 1, names[2]);
      && 1 in u.chars && u.chars[1].group == g && 2 in t.chars && t.chars[2].group == g
      && 3 in t.chars && t.chars[3].group != g
  {
    var first, second := Request(2, names[1], s.now + PENDING_TTL), Request(3, names[2], s.now + PENDING_TTL);
    assert NULL !in u.groups;
    assert u.groups[g].requests == [first, second];
    FirstOfTwo(first, second, names[2], u.now);
    AcceptMoves(u, 1, g, names[2], 2);
    AcceptMoves(u, 1, g, names[2], 3);
  }

  /**
   Three players, the third with a name that begins the second's: 2 and then 3 ask 1 to let them in, and 1, accepting
   the third by its whole name, lets the second in.
   */
  lemma HiddenName(names: seq<string>, ops: seq<Op>)
    requires |names| == 3 && names[2] != "" && IsPrefix(names[2], names[1])
    requires ops == Logins(names) + [OpRequest(2, 1)] + [OpRequest(3, 1)]
    ensures var u, t := Run(Boot(0), ops), Run(Boot(0), ops + [OpAccept(1, names[2])]);
      && 1 in u.chars && u.chars[1].group != NULL && 2 in t.chars && t.chars[2].group == u.chars[1].group
      && 3 in t.chars && t.chars[3].group != u.chars[1].group
  {
    var asked := Logins(names) + [OpRequest(2, 1)];
    var s := Run(Boot(0), asked);
    var g := AfterRequest(names);
    RunMore(Boot(0), asked, OpRequest(3, 1));
    StepIsPending(s, 3, 1, "");
    RunMore(Boot(0), ops, OpAccept(1, names[2]));
    StepIsPending(Run(Boot(0), ops), 1, 1, names[2]);
    AskSecond(s, names, g);
    WrongOneComes(s, names, g, Run(Boot(0), ops));
    assert NULL !in Run(Boot(0), ops).groups by { RunInv(0, ops); }
  }

  /** For instance the player Al, who has asked behind Alice: accepting "al" lets Alice in. */
  lemma AliceForAl(names: seq<string>, ops: seq<Op>)
    requires names == ["guide", "alice", "al"] && ops == Logins(names) + [OpRequest(2, 1)] + [OpRequest(3, 1)]
    ensures var u, t := Run(Boot(0), ops), Run(Boot(0), ops + [OpAccept(1, "al")]);
      1 in u.chars && 2 in t.chars && 3 in t.chars && t.chars[2].group == u.chars[1].group != t.chars[3].group
  {
    assert IsPrefix("al", "alice");
    HiddenName(names, ops);
  }
}
