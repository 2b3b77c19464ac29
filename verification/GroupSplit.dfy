/** do_split: sharing coins with the grouped characters in the room, and what that does to the room's wealth. */
module GroupSplit {
  import opened Lists
  import opened GroupModel
  import opened GroupWorld

  datatype Purse = Purse(silver: int, gold: int) {
    function Plus(silver': int, gold': int): Purse {
      Purse(silver + silver', gold + gold')
    }
  }

  /** Present, in the splitter's group and not charmed: these are counted as shares. */
  predicate Counts(s: State, ch: Addr, p: Addr) {
    p in s.chars && IsSameGroup(s, p, ch) && !s.chars[p].charmed
  }

  /** Present, in the splitter's group and a player: these are paid. */
  predicate IsPaid(s: State, ch: Addr, p: Addr) {
    p != ch && p in s.chars && IsSameGroup(s, p, ch) && !s.chars[p].npc
  }

  function Counted(s: State, ch: Addr, people: seq<Addr>): nat {
    if people == [] then 0 else Counted(s, ch, people[..|people| - 1]) + if Counts(s, ch, people[|people| - 1]) then 1 else 0
  }

  function Paid(s: State, ch: Addr, people: seq<Addr>): nat {
    if people == [] then 0 else Paid(s, ch, people[..|people| - 1]) + if IsPaid(s, ch, people[|people| - 1]) then 1 else 0
  }

  function Silver(purses: map<Addr, Purse>, people: seq<Addr>): int {
    if people == [] then 0
    else
      var last := people[|people| - 1];
      Silver(purses, people[..|people| - 1]) + (if last in purses then purses[last].silver else 0)
  }

  function Gold(purses: map<Addr, Purse>, people: seq<Addr>): int {
    if people == [] then 0
    else
      var last := people[|people| - 1];
      Gold(purses, people[..|people| - 1]) + (if last in purses then purses[last].gold else 0)
  }

  /** The request passes every test of the command. */
  predicate Accepted(s: State, ch: Addr, people: seq<Addr>, purse: Purse, silver: int, gold: int) {
    && silver >= 0 && gold >= 0 && !(gold == 0 && silver == 0)
    && purse.silver >= silver && purse.gold >= gold
    && Counted(s, ch, people) >= 2
    && (silver / Counted(s, ch, people) != 0 || gold / Counted(s, ch, people) != 0)
  }

  /** The purses after the splitter has paid and `paid` have been given their shares. */
  ghost function Shared(s: State, ch: Addr, paid: seq<Addr>, members: nat, purses: map<Addr, Purse>, silver: int, gold: int)
    : map<Addr, Purse>
    requires members > 0
  {
    map p | p in purses ::
      if p == ch then
        purses[p].Plus(silver / members + silver % members - silver, gold / members + gold % members - gold)
      else if p in paid && IsPaid(s, ch, p) then purses[p].Plus(silver / members, gold / members)
      else purses[p]
  }

  /** The purses after these people, where entitled, have been given a share. */
  ghost function PaidUpTo(s: State, ch: Addr, paid: seq<Addr>, purses: map<Addr, Purse>, silver: int, gold: int)
    : map<Addr, Purse>
  {
    map p | p in purses :: if p in paid && IsPaid(s, ch, p) then purses[p].Plus(silver, gold) else purses[p]
  }

  /** One more of the people present: paid if entitled. */
  lemma PaidNext(s: State, ch: Addr, people: seq<Addr>, i: nat, purses: map<Addr, Purse>, silver: int, gold: int)
    requires NoDup(people) && i < |people| && people[i] in purses
    ensures var before, p := PaidUpTo(s, ch, people[..i], purses, silver, gold), people[i];
      && p in before
      && PaidUpTo(s, ch, people[..i + 1], purses, silver, gold)
         == if IsPaid(s, ch, p) then before[p := before[p].Plus(silver, gold)] else before
  {
    assert people[..i + 1] == people[..i] + [people[i]];
    assert people[i] !in people[..i];
  }

  lemma PayingAll(s: State, ch: Addr, people: seq<Addr>, members: nat, purses: map<Addr, Purse>, silver: int, gold: int)
    requires members > 0 && ch in purses
    ensures var kept := purses[ch].Plus(silver / members + silver % members - silver, gold / members + gold % members - gold);
      PaidUpTo(s, ch, people, purses[ch := kept], silver / members, gold / members)
        == Shared(s, ch, people, members, purses, silver, gold)
  {
  }

  /** The room of a splitter: who is there and what each carries. */
  class Room {
    const world: World
    var people: seq<Addr>
    var purses: map<Addr, Purse>

    constructor (world: World, people: seq<Addr>, purses: map<Addr, Purse>)
      ensures this.world == world && this.people == people && this.purses == purses
    {
      this.world, this.people, this.purses := world, people, purses;
    }

    /** Everybody in the room is there once and has a purse. */
    ghost predicate Present()
      reads this, world
    {
      NoDup(people) && (forall p :: p in people ==> p in world.chars && p in purses)
    }

    method CountMembers(ch: Addr) returns (members: nat)
      requires world.Valid() && Present() && ch in people
      ensures members == Counted(world.Snapshot(), ch, people)
    {
      members := 0;
      for i := 0 to |people|
        invariant members == Counted(world.Snapshot(), ch, people[..i])
      {
        assert people[..i + 1][..i] == people[..i];
        var same := world.SameGroup(people[i], ch);
        if same && !world.chars[people[i]].charmed {
          members := members + 1;
        }
      }
      assert people[..|people|] == people;
    }

    method PayShares(ch: Addr, shareSilver: int, shareGold: int)
      requires world.Valid() && Present() && ch in people
      modifies this`purses
      ensures Present()
      ensures purses == PaidUpTo(world.Snapshot(), ch, people, old(purses), shareSilver, shareGold)
    {
      ghost var was := purses;
      for i := 0 to |people|
        invariant Present()
        invariant purses == PaidUpTo(world.Snapshot(), ch, people[..i], was, shareSilver, shareGold)
      {
        var p := people[i];
        PaidNext(world.Snapshot(), ch, people, i, was, shareSilver, shareGold);
        var same := world.SameGroup(p, ch);
        if p != ch && same && !world.chars[p].npc {
          purses := purses[p := purses[p].Plus(shareSilver, shareGold)];
        }
      }
      assert people[..|people|] == people;
    }

    /** The splitter hands over the amounts, takes back its share and the remainder, and the others are paid. */
    method HandOut(ch: Addr, members: nat, silver: int, gold: int)
      requires world.Valid() && Present() && ch in people && members > 0
      modifies this`purses
      ensures Present()
      ensures purses == Shared(world.Snapshot(), ch, people, members, old(purses), silver, gold)
    {
      PayingAll(world.Snapshot(), ch, people, members, purses, silver, gold);
      var shareSilver, extraSilver := silver / members, silver % members;
      var shareGold, extraGold := gold / members, gold % members;
      var kept := purses[ch].Plus(-silver, -gold);
      kept := kept.Plus(shareSilver + extraSilver, shareGold + extraGold);
      purses := purses[ch := kept];
      PayShares(ch, shareSilver, shareGold);
    }

    /** do_split: nothing happens unless every test passes; then the shares are exactly these. */
    method DoSplit(ch: Addr, silver: int, gold: int)
      requires world.Valid() && Present() && ch in people
      modifies this`purses
      ensures Present()
      ensures var s, members := world.Snapshot(), Counted(world.Snapshot(), ch, people);
        purses == if Accepted(s, ch, people, old(purses)[ch], silver, gold)
                  then Shared(s, ch, people, members, old(purses), silver, gold)
                  else old(purses)
    {
      if gold < 0 || silver < 0 { return; }
      if gold == 0 && silver == 0 { return; }
      if purses[ch].gold < gold || purses[ch].silver < silver { return; }
      var members := CountMembers(ch);
      if members < 2 { return; }
      if gold / members == 0 && silver / members == 0 { return; }
      HandOut(ch, members, silver, gold);
    }
  }

  // ----- The room's wealth

  /** One purse after a split in which the splitter's own purse moves by `own` and the paid get `share`. */
  function AfterSplit(s: State, ch: Addr, p: Addr, purse: Purse, share: Purse, own: Purse): Purse {
    if p == ch then purse.Plus(own.silver, own.gold)
    else if IsPaid(s, ch, p) then purse.Plus(share.silver, share.gold)
    else purse
  }

  /** n times x, one at a time. */
  function Times(x: int, n: nat): int {
    if n == 0 then 0 else Times(x, n - 1) + x
  }

  lemma {:induction false} TimesProduct(x: int, n: nat)
    ensures Times(x, n) == x * n
  {
    if n == 0 {
    } else {
      TimesProduct(x, n - 1);
    }
  }

  lemma {:induction false} SumsSoFar(s: State, ch: Addr, list: seq<Addr>, purses: map<Addr, Purse>, after: map<Addr, Purse>,
                                     share: Purse, own: Purse)
    requires NoDup(list) && forall p :: p in list ==> p in purses && p in after
    requires forall p :: p in list ==> after[p] == AfterSplit(s, ch, p, purses[p], share, own)
    ensures Silver(after, list) - Silver(purses, list)
      == Times(share.silver, Paid(s, ch, list)) + (if ch in list then own.silver else 0)
    ensures Gold(after, list) - Gold(purses, list)
      == Times(share.gold, Paid(s, ch, list)) + (if ch in list then own.gold else 0)
  {
    if list == [] {
    } else {
      var init, last := list[..|list| - 1], list[|list| - 1];
      assert list == init + [last];
      assert last !in init;
      SumsSoFar(s, ch, init, purses, after, share, own);
    }
  }

  /** Everyone's coins but the splitter's grow by one share for each person paid. */
  lemma TotalsSoFar(s: State, ch: Addr, list: seq<Addr>, people: seq<Addr>, members: nat,
                    purses: map<Addr, Purse>, silver: int, gold: int)
    requires members > 0 && NoDup(list) && (forall p :: p in list ==> p in purses && p in people)
    ensures var after := Shared(s, ch, people, members, purses, silver, gold);
      && Silver(after, list) - Silver(purses, list)
           == (silver / members) * Paid(s, ch, list)
              + (if ch in list then silver / members + silver % members - silver else 0)
      && Gold(after, list) - Gold(purses, list)
           == (gold / members) * Paid(s, ch, list)
              + (if ch in list then gold / members + gold % members - gold else 0)
  {
    var share := Purse(silver / members, gold / members);
    var own := Purse(silver / members + silver % members - silver, gold / members + gold % members - gold);
    SumsSoFar(s, ch, list, purses, Shared(s, ch, people, members, purses, silver, gold), share, own);
    TimesProduct(share.silver, Paid(s, ch, list));
    TimesProduct(share.gold, Paid(s, ch, list));
  }

  /**
   A split changes the room's total of each coin by its share times (1 + those paid - those counted); the
   splitter's purse stays non-negative; and no coin is made or lost exactly when those two numbers agree.
   */
  lemma SplitBalance(s: State, ch: Addr, people: seq<Addr>, purses: map<Addr, Purse>, silver: int, gold: int)
    requires NoDup(people) && ch in people && (forall p :: p in people ==> p in purses)
    requires Accepted(s, ch, people, purses[ch], silver, gold)
    ensures var members := Counted(s, ch, people);
      var after := Shared(s, ch, people, members, purses, silver, gold);
      var surplus := 1 + Paid(s, ch, people) - members;
      && Silver(after, people) == Silver(purses, people) + (silver / members) * surplus
      && Gold(after, people) == Gold(purses, people) + (gold / members) * surplus
      && after[ch].silver >= 0 && after[ch].gold >= 0
      && (Silver(after, people) == Silver(purses, people) && Gold(after, people) == Gold(purses, people) <==> surplus == 0)
  {
    var members := Counted(s, ch, people);
    var n := Paid(s, ch, people);
    TotalsSoFar(s, ch, people, people, members, purses, silver, gold);
    Shares(silver, members, n);
    Shares(gold, members, n);
  }

  /** The splitter's loss against everyone's gain. */
  lemma Shares(amount: int, members: nat, paid: nat)
    requires amount >= 0 && members > 0
    ensures (amount / members) * paid + amount / members + amount % members - amount
         == (amount / members) * (1 + paid - members)
    ensures amount / members + amount % members >= 0
    ensures (amount / members) * (1 + paid - members) == 0 <==> amount / members == 0 || 1 + paid == members
  {
    assert amount == (amount / members) * members + amount % members;
    var q := amount / members;
    assert q * (1 + paid - members) == q + q * paid - q * members;
    if q != 0 && 1 + paid != members {
      NonZeroProduct(q, 1 + paid - members);
    }
  }

  lemma NonZeroProduct(x: int, y: int)
    requires x != 0 && y != 0
    ensures x * y != 0
  {
  }

  /** The shares are as many as the uncharmed companions present, the splitter among them unless charmed. */
  lemma {:induction false} CountedIsSize(s: State, ch: Addr, people: seq<Addr>)
    requires NoDup(people)
    ensures Counted(s, ch, people) == |set p | p in people && p in s.chars && IsSameGroup(s, p, ch) && !s.chars[p].charmed|
  {
    var sharing := set p | p in people && p in s.chars && IsSameGroup(s, p, ch) && !s.chars[p].charmed;
    if people == [] {
      assert sharing == {};
    } else {
      var init, last := people[..|people| - 1], people[|people| - 1];
      var before := set p | p in init && p in s.chars && IsSameGroup(s, p, ch) && !s.chars[p].charmed;
      assert people == init + [last];
      CountedIsSize(s, ch, init);
      assert last !in before;
      assert sharing == if Counts(s, ch, last) then before + {last} else before;
    }
  }

  lemma WholeShare(amount: int, n: nat)
    requires amount >= 0 && n > 0
    ensures amount / n != 0 <==> amount >= n
  {
    if amount < n {
      assert amount / n == 0;
    }
  }

  /** A split takes place exactly of coins the splitter has, among two at least, and with one coin at least a share. */
  lemma SplitTests(s: State, ch: Addr, people: seq<Addr>, purse: Purse, silver: int, gold: int)
    ensures var n := Counted(s, ch, people);
      Accepted(s, ch, people, purse, silver, gold)
      <==> 0 <= silver <= purse.silver && 0 <= gold <= purse.gold && n >= 2 && (silver >= n || gold >= n)
  {
    var n := Counted(s, ch, people);
    if silver >= 0 && gold >= 0 && n >= 2 {
      WholeShare(silver, n);
      WholeShare(gold, n);
    }
  }

  /**
   Who gets what: a share goes to every other player among the companions present, charmed or not; the splitter keeps
   one share and the remainder, and nobody else's purse changes.
   */
  lemma SplitShares(s: State, ch: Addr, people: seq<Addr>, n: nat, purses: map<Addr, Purse>, silver: int, gold: int, p: Addr)
    requires n > 0 && p in purses
    ensures var after := Shared(s, ch, people, n, purses, silver, gold);
      p in after && after[p] == (
        if p == ch then Purse(purses[p].silver - silver + silver / n + silver % n, purses[p].gold - gold + gold / n + gold % n)
        else if p in people && p in s.chars && IsSameGroup(s, p, ch) && !s.chars[p].npc
        then Purse(purses[p].silver + silver / n, purses[p].gold + gold / n)
        else purses[p])
  {
  }

  /** When every grouped character present is an uncharmed player, coins are conserved. */
  lemma {:induction false} PlayersConserve(s: State, ch: Addr, people: seq<Addr>)
    requires NoDup(people) && (ch in people ==> ch in s.chars)
    requires forall p :: p in people && p in s.chars && IsSameGroup(s, p, ch) ==> !s.chars[p].npc && !s.chars[p].charmed
    ensures Counted(s, ch, people) == Paid(s, ch, people) + if ch in people then 1 else 0
  {
    if people == [] {
    } else {
      var init, last := people[..|people| - 1], people[|people| - 1];
      assert people == init + [last];
      PlayersConserve(s, ch, init);
      assert last !in init;
    }
  }
}
