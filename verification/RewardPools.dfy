/** The stat pools over whole runs of class switches and level gains, and when the route taken does not matter. */
module RewardPools {
  import opened Lists
  import opened SkillSources
  import opened RewardModel
  import opened RewardLedger

  // ----- One pass over a class's rewards

  lemma LedgerAfterNext(applied: seq<Key>, rewards: seq<Reward>, from: int, to: int, k: Key)
    requires rewards != []
    ensures k in LedgerAfter(applied, rewards, from, to)
      <==> k in LedgerAfter(applied, rewards[..|rewards| - 1], from, to)
           || (InRange(rewards[|rewards| - 1], from, to) && KeyOf(rewards[|rewards| - 1]) == k)
  {
  }

  /** A first reward's key is in the ledger so far exactly when it was there at the start. */
  lemma FirstMeansFresh(applied: seq<Key>, rewards: seq<Reward>, from: int, to: int)
    requires rewards != [] && FirstWithKey(rewards, |rewards| - 1)
    ensures var k, init := KeyOf(rewards[|rewards| - 1]), rewards[..|rewards| - 1];
      k in LedgerAfter(applied, init, from, to) <==> k in applied
  {
    var k, init := KeyOf(rewards[|rewards| - 1]), rewards[..|rewards| - 1];
    LedgerKeys(applied, init, from, to, k);
    assert forall i :: 0 <= i < |init| ==> init[i] == rewards[i];
  }

  /** An earlier reward with the key of one in range is in range too: a key holds the level. */
  lemma EarlierMarked(applied: seq<Key>, init: seq<Reward>, last: Reward, from: int, to: int, i: nat)
    requires i < |init| && KeyOf(init[i]) == KeyOf(last) && InRange(last, from, to)
    ensures KeyOf(last) in LedgerAfter(applied, init, from, to)
  {
    assert InRange(init[i], from, to);
    LedgerKeys(applied, init, from, to, KeyOf(last));
  }

  /** A reward in range with the key of an earlier one finds that key in the ledger. */
  lemma LaterMeansMarked(applied: seq<Key>, rewards: seq<Reward>, from: int, to: int)
    requires rewards != [] && InRange(rewards[|rewards| - 1], from, to) && !FirstWithKey(rewards, |rewards| - 1)
    ensures KeyOf(rewards[|rewards| - 1]) in LedgerAfter(applied, rewards[..|rewards| - 1], from, to)
  {
    var last, init := rewards[|rewards| - 1], rewards[..|rewards| - 1];
    var j :| 0 <= j < |init| && KeyOf(rewards[j]) == KeyOf(last);
    EarlierMarked(applied, init, last, from, to, j);
  }

  /** Sums over a list see only the ledger entries of that list. */
  lemma {:induction false} OnceSumSame(rewards: seq<Reward>, a: seq<Key>, b: seq<Key>, pool: Pool)
    requires forall i :: 0 <= i < |rewards| ==> (KeyOf(rewards[i]) in a <==> KeyOf(rewards[i]) in b)
    ensures OnceSum(rewards, a, pool) == OnceSum(rewards, b, pool)
  {
    if rewards == [] {
    } else {
      var init := rewards[..|rewards| - 1];
      assert forall i :: 0 <= i < |init| ==> init[i] == rewards[i];
      OnceSumSame(init, a, b, pool);
    }
  }

  /** Marking the last reward adds nothing to the sums over the earlier ones. */
  lemma EarlierUnmoved(applied: seq<Key>, rewards: seq<Reward>, from: int, to: int, pool: Pool)
    requires rewards != []
    ensures var init := rewards[..|rewards| - 1];
      OnceSum(init, LedgerAfter(applied, rewards, from, to), pool) == OnceSum(init, LedgerAfter(applied, init, from, to), pool)
  {
    var init, last := rewards[..|rewards| - 1], rewards[|rewards| - 1];
    forall i | 0 <= i < |init|
      ensures KeyOf(init[i]) in LedgerAfter(applied, rewards, from, to) <==> KeyOf(init[i]) in LedgerAfter(applied, init, from, to)
    {
      LedgerAfterNext(applied, rewards, from, to, KeyOf(init[i]));
      if InRange(last, from, to) && KeyOf(last) == KeyOf(init[i]) {
        EarlierMarked(applied, init, last, from, to, i);
      }
    }
    OnceSumSame(init, LedgerAfter(applied, rewards, from, to), LedgerAfter(applied, init, from, to), pool);
  }

  /** One turn of the loop, for one pool. */
  lemma LastReward(t: Tables, s: Sheet, c: ClassId, r: Reward, from: int, to: int, pool: Pool)
    ensures MaxOf(ApplyReward(t, s, c, r, from, to).pools, pool) - MaxOf(s.pools, pool)
      == if InRange(r, from, to) && !(r.oneTime && IsApplied(s.applied, r)) then Amount(r, pool) else 0
  {
  }

  /**
   One pass over a range of levels, whatever the flags: it adds the bonuses of the range that are not one-time, and
   the one-time bonuses it records for the first time.
   */
  lemma {:induction false} JoinPools(t: Tables, s: Sheet, c: ClassId, rewards: seq<Reward>, from: int, to: int, pool: Pool)
    ensures var joined := ApplyRewards(t, s, c, rewards, from, to);
      MaxOf(joined.pools, pool) == MaxOf(s.pools, pool) + RepeatSum(rewards, from, to, pool)
                                   + OnceSum(rewards, joined.applied, pool) - OnceSum(rewards, s.applied, pool)
  {
    LedgerOfApply(t, s, c, rewards, from, to);
    if rewards == [] {
    } else {
      var init, last := rewards[..|rewards| - 1], rewards[|rewards| - 1];
      JoinPools(t, s, c, init, from, to, pool);
      LedgerOfApply(t, s, c, init, from, to);
      EarlierUnmoved(s.applied, rewards, from, to, pool);
      LedgerAfterNext(s.applied, rewards, from, to, KeyOf(last));
      if FirstWithKey(rewards, |init|) {
        FirstMeansFresh(s.applied, rewards, from, to);
      } else if InRange(last, from, to) {
        LaterMeansMarked(s.applied, rewards, from, to);
      }
      LastReward(t, ApplyRewards(t, s, c, init, from, to), c, last, from, to, pool);
    }
  }

  // ----- The balance of a player

  ghost predicate PlayerOk(p: Player) {
    && NoDup(p.order) && (forall c :: c in p.order <==> c in p.levels)
    && NO_CLASS !in p.levels && (p.current != NO_CLASS ==> p.current in p.levels)
  }

  /** What all recorded one-time bonuses are worth together. */
  ghost function TotalOnce(k: Catalogue, levels: map<ClassId, ClassLevel>, order: seq<ClassId>, pool: Pool): int {
    if order == [] then 0
    else
      var c := order[|order| - 1];
      TotalOnce(k, levels, order[..|order| - 1], pool)
      + if c in levels then OnceSum(RewardsOf(k, c), levels[c].applied, pool) else 0
  }

  /** What the active class's bonuses up to its level are worth, one-time bonuses apart. */
  function ActiveSum(k: Catalogue, p: Player, pool: Pool): int {
    if p.current in p.levels then RepeatSum(RewardsOf(k, p.current), 1, p.levels[p.current].level, pool) else 0
  }

  /** What is left of a maximum without its recorded one-time bonuses and the bonuses of the active class. */
  ghost function Balance(k: Catalogue, p: Player, pool: Pool): int {
    MaxOf(p.pools, pool) - TotalOnce(k, p.levels, p.order, pool) - ActiveSum(k, p, pool)
  }

  lemma {:induction false} TotalOnceSame(k: Catalogue, a: map<ClassId, ClassLevel>, b: map<ClassId, ClassLevel>,
                                         order: seq<ClassId>, pool: Pool)
    requires forall c :: c in order ==> (c in a <==> c in b) && (c in a ==> a[c].applied == b[c].applied)
    ensures TotalOnce(k, a, order, pool) == TotalOnce(k, b, order, pool)
  {
    if order == [] {
    } else {
      TotalOnceSame(k, a, b, order[..|order| - 1], pool);
    }
  }

  lemma {:induction false} TotalOnceUpdate(k: Catalogue, levels: map<ClassId, ClassLevel>, order: seq<ClassId>,
                                           c: ClassId, cl: ClassLevel, pool: Pool)
    requires NoDup(order) && c in order && c in levels
    ensures TotalOnce(k, levels[c := cl], order, pool) == TotalOnce(k, levels, order, pool)
      - OnceSum(RewardsOf(k, c), levels[c].applied, pool) + OnceSum(RewardsOf(k, c), cl.applied, pool)
  {
    var init, last := order[..|order| - 1], order[|order| - 1];
    assert order == init + [last];
    if last == c {
      assert c !in init;
      TotalOnceSame(k, levels, levels[c := cl], init, pool);
    } else {
      TotalOnceUpdate(k, levels, init, c, cl, pool);
    }
  }

  /** A range of a joined class's levels, taken by a player. */
  lemma RangePools(t: Tables, k: Catalogue, p: Player, c: ClassId, from: int, to: int, pool: Pool)
    requires PlayerOk(p) && c in p.levels
    ensures var q := JoinRange(t, k, p, c, from, to);
      && q.order == p.order && q.current == p.current && q.levels.Keys == p.levels.Keys
      && (forall d :: d in p.levels ==> q.levels[d].level == p.levels[d].level)
      && MaxOf(q.pools, pool) - TotalOnce(k, q.levels, q.order, pool)
         == MaxOf(p.pools, pool) - TotalOnce(k, p.levels, p.order, pool) + RepeatSum(RewardsOf(k, c), from, to, pool)
      && MaxOf(q.pools, pool) - PermOf(q.pools, pool) == MaxOf(p.pools, pool) - PermOf(p.pools, pool)
  {
    var sheet := Sheet(p.skills, p.pools, p.levels[c].applied);
    JoinPools(t, sheet, c, RewardsOf(k, c), from, to, pool);
    ApplyKeepsGap(t, sheet, c, RewardsOf(k, c), from, to, pool);
    TotalOnceUpdate(k, p.levels, p.order, c, JoinRange(t, k, p, c, from, to).levels[c], pool);
  }

  // ----- Whole runs of switches and level gains

  datatype Turn = Switch(c: ClassId) | Gain(c: ClassId, growth: Growth)

  function TakeTurn(t: Tables, k: Catalogue, p: Player, turn: Turn): Player {
    match turn
    case Switch(c) => SetClass(t, k, p, c)
    case Gain(c, growth) => GainLevel(t, k, p, c, growth)
  }

  function TakeTurns(t: Tables, k: Catalogue, p: Player, run: seq<Turn>): Player {
    if run == [] then p else TakeTurn(t, k, TakeTurns(t, k, p, run[..|run| - 1]), run[|run| - 1])
  }

  function Grown(g: Growth, pool: Pool): int {
    match pool
    case HitPool => g.hit
    case ManaPool => g.mana
    case MovePool => g.move
    case NoPool => 0
  }

  /** The switch leaves a class for another one. */
  predicate Leaves(p: Player, c: ClassId) {
    c in p.levels && p.current != c && p.current in p.levels
  }

  /**
   How far a turn moves the balance. Leaving a class takes what the revoke flag says and not what its level has
   given; a level gained gives its bonuses at once, whether or not the class is the active one.
   */
  function Drift(k: Catalogue, p: Player, turn: Turn, pool: Pool): int {
    match turn
    case Switch(c) => if Leaves(p, c) then ActiveSum(k, p, pool) - RevokedSum(RewardsOf(k, p.current), pool) else 0
    case Gain(c, growth) =>
      if c !in p.levels then 0
      else
        var rewards, level := RewardsOf(k, c), p.levels[c].level + 1;
        Grown(growth, pool) + RepeatSum(rewards, level, level, pool)
        - if p.current == c then RepeatSum(rewards, 1, level, pool) - ActiveSum(k, p, pool) else 0
  }

  function TotalDrift(t: Tables, k: Catalogue, p: Player, run: seq<Turn>, pool: Pool): int {
    if run == [] then 0
    else
      var init := run[..|run| - 1];
      TotalDrift(t, k, p, init, pool) + Drift(k, TakeTurns(t, k, p, init), run[|run| - 1], pool)
  }

  /** One turn was taken: the balance has moved by its drift, and maximum and permanent value together. */
  ghost predicate Balanced(k: Catalogue, p: Player, q: Player, drift: int, pool: Pool) {
    && PlayerOk(q) && q.order == p.order && q.levels.Keys == p.levels.Keys
    && Balance(k, q, pool) == Balance(k, p, pool) + drift
    && MaxOf(q.pools, pool) - PermOf(q.pools, pool) == MaxOf(p.pools, pool) - PermOf(p.pools, pool)
  }

  /** The player as do_setclass has it before it applies the rewards of c. */
  function Switched(t: Tables, k: Catalogue, p: Player, c: ClassId): Player {
    (if p.current != NO_CLASS then LeaveClass(t, k, p, p.current) else p).(current := c)
  }

  lemma SwitchedPools(t: Tables, k: Catalogue, p: Player, c: ClassId, pool: Pool)
    requires PlayerOk(p) && c in p.levels
    ensures var q := Switched(t, k, p, c);
      && PlayerOk(q) && q.levels == p.levels && q.order == p.order
      && MaxOf(q.pools, pool) == MaxOf(p.pools, pool)
                                 - (if p.current in p.levels then RevokedSum(RewardsOf(k, p.current), pool) else 0)
      && MaxOf(q.pools, pool) - PermOf(q.pools, pool) == MaxOf(p.pools, pool) - PermOf(p.pools, pool)
  {
    if p.current != NO_CLASS {
      RevokePools(t, Sheet(p.skills, p.pools, []), p.current, RewardsOf(k, p.current), pool);
    }
  }

  lemma SwitchBalance(t: Tables, k: Catalogue, p: Player, c: ClassId, pool: Pool)
    requires PlayerOk(p)
    ensures Balanced(k, p, SetClass(t, k, p, c), Drift(k, p, Switch(c), pool), pool)
  {
    if c in p.levels && p.current != c {
      var left, level := Switched(t, k, p, c), p.levels[c].level;
      var q := JoinRange(t, k, left, c, 1, level);
      SwitchedPools(t, k, p, c, pool);
      RangePools(t, k, left, c, 1, level, pool);
      assert SetClass(t, k, p, c) == q;
      assert ActiveSum(k, q, pool) == RepeatSum(RewardsOf(k, c), 1, level, pool);
    }
  }

  lemma GrowPools(p: Pools, g: Growth, pool: Pool)
    ensures MaxOf(Grow(p, g), pool) == MaxOf(p, pool) + Grown(g, pool)
    ensures PermOf(Grow(p, g), pool) == PermOf(p, pool) + Grown(g, pool)
  {
  }

  /** The level and the growth, before the rewards. */
  function Raised(p: Player, c: ClassId, g: Growth): Player
    requires c in p.levels
  {
    p.(levels := p.levels[c := p.levels[c].(level := p.levels[c].level + 1)], pools := Grow(p.pools, g))
  }

  lemma RaisedPools(k: Catalogue, p: Player, c: ClassId, g: Growth, pool: Pool)
    requires PlayerOk(p) && c in p.levels
    ensures var q := Raised(p, c, g);
      && PlayerOk(q) && q.levels.Keys == p.levels.Keys
      && MaxOf(q.pools, pool) - TotalOnce(k, q.levels, q.order, pool)
         == MaxOf(p.pools, pool) - TotalOnce(k, p.levels, p.order, pool) + Grown(g, pool)
      && MaxOf(q.pools, pool) - PermOf(q.pools, pool) == MaxOf(p.pools, pool) - PermOf(p.pools, pool)
  {
    GrowPools(p.pools, g, pool);
    TotalOnceUpdate(k, p.levels, p.order, c, Raised(p, c, g).levels[c], pool);
  }

  /** The active class's bonuses depend on which class it is and on its level. */
  lemma ActiveSame(k: Catalogue, p: Player, q: Player, pool: Pool)
    requires q.current == p.current && q.levels.Keys == p.levels.Keys
    requires p.current in p.levels ==> q.levels[p.current].level == p.levels[p.current].level
    ensures ActiveSum(k, q, pool) == ActiveSum(k, p, pool)
  {
  }

  lemma GainBalance(t: Tables, k: Catalogue, p: Player, c: ClassId, g: Growth, pool: Pool)
    requires PlayerOk(p)
    ensures Balanced(k, p, GainLevel(t, k, p, c, g), Drift(k, p, Gain(c, g), pool), pool)
  {
    if c in p.levels {
      RaisedBalance(t, k, p, c, g, p.levels[c].level + 1, pool);
    }
  }

  lemma RaisedBalance(t: Tables, k: Catalogue, p: Player, c: ClassId, g: Growth, level: int, pool: Pool)
    requires PlayerOk(p) && c in p.levels && level == p.levels[c].level + 1
    ensures Balanced(k, p, JoinRange(t, k, Raised(p, c, g), c, level, level), Drift(k, p, Gain(c, g), pool), pool)
  {
    var raised := Raised(p, c, g);
    RaisedPools(k, p, c, g, pool);
    RangePools(t, k, raised, c, level, level, pool);
    ActiveSame(k, raised, JoinRange(t, k, raised, c, level, level), pool);
    RaisedActive(k, p, c, g, pool);
  }

  lemma RaisedActive(k: Catalogue, p: Player, c: ClassId, g: Growth, pool: Pool)
    requires c in p.levels
    ensures ActiveSum(k, Raised(p, c, g), pool)
         == if p.current == c then RepeatSum(RewardsOf(k, c), 1, p.levels[c].level + 1, pool) else ActiveSum(k, p, pool)
  {
  }

  /** Over any run, whatever the flags of the rewards, each balance moves by the drift of its turns and nothing else. */
  lemma {:induction false} RunPools(t: Tables, k: Catalogue, p: Player, run: seq<Turn>, pool: Pool)
    requires PlayerOk(p)
    ensures Balanced(k, p, TakeTurns(t, k, p, run), TotalDrift(t, k, p, run, pool), pool)
  {
    if run == [] {
    } else {
      var init, turn := run[..|run| - 1], run[|run| - 1];
      RunPools(t, k, p, init, pool);
      match turn {
        case Switch(c) => SwitchBalance(t, k, TakeTurns(t, k, p, init), c, pool);
        case Gain(c, growth) => GainBalance(t, k, TakeTurns(t, k, p, init), c, growth, pool);
      }
    }
  }

  // ----- When the path does not matter

  /** The same one-time keys are on record for the class. */
  ghost predicate SameRecord(a: ClassLevel, b: ClassLevel) {
    forall key :: key in a.applied <==> key in b.applied
  }

  lemma {:induction false} TotalOnceByKeys(k: Catalogue, a: map<ClassId, ClassLevel>, b: map<ClassId, ClassLevel>,
                                           order: seq<ClassId>, pool: Pool)
    requires forall c :: c in order ==> c in a && c in b && SameRecord(a[c], b[c])
    ensures TotalOnce(k, a, order, pool) == TotalOnce(k, b, order, pool)
  {
    if order == [] {
    } else {
      var c := order[|order| - 1];
      TotalOnceByKeys(k, a, b, order[..|order| - 1], pool);
      assert SameRecord(a[c], b[c]);
      OnceSumSame(RewardsOf(k, c), a[c].applied, b[c].applied, pool);
    }
  }

  /** The same classes, with the same levels and records, and the same one active. */
  ghost predicate SameCareer(p: Player, q: Player) {
    && p.current == q.current && p.levels.Keys == q.levels.Keys
    && forall c :: c in p.levels ==> p.levels[c].level == q.levels[c].level && SameRecord(p.levels[c], q.levels[c])
  }

  lemma PathPool(t: Tables, k: Catalogue, p: Player, run1: seq<Turn>, run2: seq<Turn>, pool: Pool)
    requires PlayerOk(p) && SameCareer(TakeTurns(t, k, p, run1), TakeTurns(t, k, p, run2))
    ensures var q1, q2 := TakeTurns(t, k, p, run1), TakeTurns(t, k, p, run2);
      && MaxOf(q1.pools, pool) - MaxOf(q2.pools, pool) == TotalDrift(t, k, p, run1, pool) - TotalDrift(t, k, p, run2, pool)
      && MaxOf(q1.pools, pool) - PermOf(q1.pools, pool) == MaxOf(q2.pools, pool) - PermOf(q2.pools, pool)
  {
    var q1, q2 := TakeTurns(t, k, p, run1), TakeTurns(t, k, p, run2);
    RunPools(t, k, p, run1, pool);
    RunPools(t, k, p, run2, pool);
    TotalOnceByKeys(k, q1.levels, q2.levels, p.order, pool);
    assert ActiveSum(k, q1, pool) == ActiveSum(k, q2, pool);
  }

  /** The drift of a run, for the three pools at once. */
  function Drifts(t: Tables, k: Catalogue, p: Player, run: seq<Turn>): Growth {
    Growth(TotalDrift(t, k, p, run, HitPool), TotalDrift(t, k, p, run, ManaPool), TotalDrift(t, k, p, run, MovePool))
  }

  /**
   Path independence, exactly: two runs from the same player that end in the same class with the same levels and
   records end with the same six pool values if and only if their drifts are the same.
   */
  lemma PathIndependence(t: Tables, k: Catalogue, p: Player, run1: seq<Turn>, run2: seq<Turn>)
    requires PlayerOk(p) && SameCareer(TakeTurns(t, k, p, run1), TakeTurns(t, k, p, run2))
    ensures TakeTurns(t, k, p, run1).pools == TakeTurns(t, k, p, run2).pools
      <==> Drifts(t, k, p, run1) == Drifts(t, k, p, run2)
  {
    PathPool(t, k, p, run1, run2, HitPool);
    PathPool(t, k, p, run1, run2, ManaPool);
    PathPool(t, k, p, run1, run2, MovePool);
  }

  // ----- Fair runs

  /** Every bonus is one-time or revocable, and not both. */
  ghost predicate OneFlag(rewards: seq<Reward>) {
    forall i :: 0 <= i < |rewards| && rewards[i].kind.Bonus? ==> (rewards[i].oneTime <==> !rewards[i].revokeOnLeave)
  }

  ghost predicate OneFlagEach(k: Catalogue) {
    forall c :: c in k ==> OneFlag(k[c])
  }

  /** What of the revocable bonuses lies outside the range. */
  function OutsideSum(rewards: seq<Reward>, from: int, to: int, pool: Pool): int {
    if rewards == [] then 0
    else
      var r := rewards[|rewards| - 1];
      OutsideSum(rewards[..|rewards| - 1], from, to, pool)
      + if r.revokeOnLeave && !InRange(r, from, to) then Amount(r, pool) else 0
  }

  lemma {:induction false} RevokedOutside(rewards: seq<Reward>, from: int, to: int, pool: Pool)
    requires OneFlag(rewards)
    ensures RepeatSum(rewards, from, to, pool) - RevokedSum(rewards, pool) == -OutsideSum(rewards, from, to, pool)
  {
    if rewards == [] {
    } else {
      var init := rewards[..|rewards| - 1];
      assert forall i :: 0 <= i < |init| ==> init[i] == rewards[i];
      RevokedOutside(init, from, to, pool);
    }
  }

  lemma {:induction false} OneMoreLevel(rewards: seq<Reward>, level: int, pool: Pool)
    requires level >= 1
    ensures RepeatSum(rewards, 1, level, pool)
      == RepeatSum(rewards, 1, level - 1, pool) + RepeatSum(rewards, level, level, pool)
  {
    if rewards == [] {
    } else {
      OneMoreLevel(rewards[..|rewards| - 1], level, pool);
    }
  }

  /** What a turn is meant to add to a maximum by itself: the growth that comes with a level. */
  function GrowthOf(p: Player, turn: Turn, pool: Pool): int {
    if turn.Gain? && turn.c in p.levels then Grown(turn.growth, pool) else 0
  }

  /** What a turn moves a pool by on top of that: bonuses taken that were never given, or given and never taken. */
  function Unfair(k: Catalogue, p: Player, turn: Turn, pool: Pool): int {
    match turn
    case Switch(c) => if Leaves(p, c) then -OutsideSum(RewardsOf(k, p.current), 1, p.levels[p.current].level, pool) else 0
    case Gain(c, _) =>
      if c in p.levels && c != p.current then RepeatSum(RewardsOf(k, c), p.levels[c].level + 1, p.levels[c].level + 1, pool)
      else 0
  }

  ghost predicate LevelsOk(p: Player) {
    forall c :: c in p.levels ==> p.levels[c].level >= 0
  }

  /**
   The drift when each bonus has one flag: leaving a class takes its revocable bonuses beyond its level, which it
   never gave; a level of an idle class gives bonuses that joining the class gives again and leaving takes once.
   */
  lemma DriftMeaning(k: Catalogue, p: Player, turn: Turn, pool: Pool)
    requires PlayerOk(p) && LevelsOk(p) && OneFlagEach(k)
    ensures Drift(k, p, turn, pool) == GrowthOf(p, turn, pool) + Unfair(k, p, turn, pool)
  {
    if turn.Switch? {
      if Leaves(p, turn.c) {
        RevokedOutside(RewardsOf(k, p.current), 1, p.levels[p.current].level, pool);
      }
    } else if turn.c in p.levels && turn.c == p.current {
      OneMoreLevel(RewardsOf(k, turn.c), p.levels[turn.c].level + 1, pool);
    }
  }

  function TotalGrowth(t: Tables, k: Catalogue, p: Player, run: seq<Turn>, pool: Pool): int {
    if run == [] then 0
    else
      var init := run[..|run| - 1];
      TotalGrowth(t, k, p, init, pool) + GrowthOf(TakeTurns(t, k, p, init), run[|run| - 1], pool)
  }

  ghost predicate FairTurn(k: Catalogue, p: Player, turn: Turn) {
    forall pool :: Unfair(k, p, turn, pool) == 0
  }

  /** No turn of the run leaves a class with revocable bonuses beyond its level, or gives an idle class bonuses. */
  ghost predicate FairRun(t: Tables, k: Catalogue, p: Player, run: seq<Turn>) {
    run != [] ==>
      && FairRun(t, k, p, run[..|run| - 1])
      && FairTurn(k, TakeTurns(t, k, p, run[..|run| - 1]), run[|run| - 1])
  }

  lemma TurnLevels(t: Tables, k: Catalogue, p: Player, turn: Turn, c: ClassId)
    ensures var q := TakeTurn(t, k, p, turn);
      && q.levels.Keys == p.levels.Keys
      && (c in p.levels ==> q.levels[c].level == p.levels[c].level + if turn.Gain? && turn.c == c then 1 else 0)
  {
  }

  lemma {:induction false} RunLevels(t: Tables, k: Catalogue, p: Player, run: seq<Turn>, c: ClassId)
    ensures var q := TakeTurns(t, k, p, run);
      q.levels.Keys == p.levels.Keys && (c in p.levels ==> q.levels[c].level >= p.levels[c].level)
  {
    if run == [] {
    } else {
      RunLevels(t, k, p, run[..|run| - 1], c);
      TurnLevels(t, k, TakeTurns(t, k, p, run[..|run| - 1]), run[|run| - 1], c);
    }
  }

  lemma RunLevelsOk(t: Tables, k: Catalogue, p: Player, run: seq<Turn>)
    requires LevelsOk(p)
    ensures LevelsOk(TakeTurns(t, k, p, run))
  {
    var q := TakeTurns(t, k, p, run);
    forall c | c in q.levels
      ensures q.levels[c].level >= 0
    {
      RunLevels(t, k, p, run, c);
    }
  }

  /** Over a fair run the balances move by the growth of the levels alone. */
  lemma {:induction false} FairDrift(t: Tables, k: Catalogue, p: Player, run: seq<Turn>, pool: Pool)
    requires PlayerOk(p) && LevelsOk(p) && OneFlagEach(k) && FairRun(t, k, p, run)
    ensures TotalDrift(t, k, p, run, pool) == TotalGrowth(t, k, p, run, pool)
  {
    if run == [] {
    } else {
      var init := run[..|run| - 1];
      FairDrift(t, k, p, init, pool);
      RunPools(t, k, p, init, pool);
      RunLevelsOk(t, k, p, init);
      DriftMeaning(k, TakeTurns(t, k, p, init), run[|run| - 1], pool);
    }
  }

  // ----- Records, and the route in the player's terms

  /** The classes a run really switches into. */
  function Entered(t: Tables, k: Catalogue, p: Player, run: seq<Turn>): set<ClassId> {
    if run == [] then {}
    else
      var init, turn := run[..|run| - 1], run[|run| - 1];
      var q := TakeTurns(t, k, p, init);
      Entered(t, k, p, init) + if turn.Switch? && turn.c in q.levels && q.current != turn.c then {turn.c} else {}
  }

  /** Between two levels nothing is missed: what lies up to the higher one lies up to the lower one or above it. */
  lemma DueSplits(rewards: seq<Reward>, low: int, high: int, key: Key)
    requires low <= high
    ensures Due(rewards, 1, high, key) ==> Due(rewards, 1, low, key) || Due(rewards, low + 1, high, key)
    ensures Due(rewards, low + 1, high + 1, key) <==> Due(rewards, low + 1, high, key) || Due(rewards, high + 1, high + 1, key)
  {
  }

  lemma TurnRecords(t: Tables, k: Catalogue, p: Player, turn: Turn, c: ClassId, key: Key)
    requires c in p.levels
    ensures var q, rewards, level := TakeTurn(t, k, p, turn), RewardsOf(k, c), p.levels[c].level;
      c in q.levels && (key in q.levels[c].applied <==>
        || key in p.levels[c].applied
        || (turn == Switch(c) && p.current != c && Due(rewards, 1, level, key))
        || (turn.Gain? && turn.c == c && Due(rewards, level + 1, level + 1, key)))
  {
    var rewards, level := RewardsOf(k, c), p.levels[c].level;
    if turn.c == c {
      if turn.Switch? && p.current != c {
        var left := if p.current != NO_CLASS then LeaveClass(t, k, p, p.current) else p;
        LedgerOfApply(t, Sheet(left.skills, left.pools, p.levels[c].applied), c, rewards, 1, level);
        LedgerKeys(p.levels[c].applied, rewards, 1, level, key);
      } else if turn.Gain? {
        LedgerOfApply(t, Sheet(p.skills, Grow(p.pools, turn.growth), p.levels[c].applied), c, rewards, level + 1, level + 1);
        LedgerKeys(p.levels[c].applied, rewards, level + 1, level + 1, key);
      }
    }
  }

  /**
   What a class has on record after a run: what it had, what the levels it gained brought, and, if the run entered it,
   what its first level allowed already.
   */
  lemma {:induction false} RunRecords(t: Tables, k: Catalogue, p: Player, run: seq<Turn>, c: ClassId, key: Key)
    requires c in p.levels
    ensures var q, rewards, level := TakeTurns(t, k, p, run), RewardsOf(k, c), p.levels[c].level;
      c in q.levels && level <= q.levels[c].level && (key in q.levels[c].applied <==>
        || key in p.levels[c].applied
        || Due(rewards, level + 1, q.levels[c].level, key)
        || (c in Entered(t, k, p, run) && Due(rewards, 1, level, key)))
  {
    var rewards, level := RewardsOf(k, c), p.levels[c].level;
    if run == [] {
    } else {
      var init, turn := run[..|run| - 1], run[|run| - 1];
      var mid := TakeTurns(t, k, p, init);
      RunRecords(t, k, p, init, c, key);
      TurnRecords(t, k, mid, turn, c, key);
      TurnLevels(t, k, mid, turn, c);
      DueSplits(rewards, level, mid.levels[c].level, key);
      DueUpTo(rewards, level, mid.levels[c].level, key);
    }
  }

  lemma DueUpTo(rewards: seq<Reward>, low: int, high: int, key: Key)
    requires low <= high
    ensures Due(rewards, 1, low, key) ==> Due(rewards, 1, high, key)
  {
  }

  /** Runs that entered the same classes and end in the same one with the same levels leave the same records. */
  lemma SameRoute(t: Tables, k: Catalogue, p: Player, run1: seq<Turn>, run2: seq<Turn>)
    requires Entered(t, k, p, run1) == Entered(t, k, p, run2) && SameEnd(TakeTurns(t, k, p, run1), TakeTurns(t, k, p, run2))
    ensures SameCareer(TakeTurns(t, k, p, run1), TakeTurns(t, k, p, run2))
  {
    var q1, q2 := TakeTurns(t, k, p, run1), TakeTurns(t, k, p, run2);
    RunLevels(t, k, p, run1, NO_CLASS);
    RunLevels(t, k, p, run2, NO_CLASS);
    forall c | c in p.levels
      ensures SameRecord(q1.levels[c], q2.levels[c])
    {
      forall key
        ensures key in q1.levels[c].applied <==> key in q2.levels[c].applied
      {
        RunRecords(t, k, p, run1, c, key);
        RunRecords(t, k, p, run2, c, key);
      }
    }
  }

  ghost predicate SameEnd(p: Player, q: Player) {
    p.current == q.current && forall c :: c in p.levels && c in q.levels ==> p.levels[c].level == q.levels[c].level
  }

  function Growths(t: Tables, k: Catalogue, p: Player, run: seq<Turn>): Growth {
    Growth(TotalGrowth(t, k, p, run, HitPool), TotalGrowth(t, k, p, run, ManaPool), TotalGrowth(t, k, p, run, MovePool))
  }

  lemma FairDrifts(t: Tables, k: Catalogue, p: Player, run: seq<Turn>)
    requires PlayerOk(p) && LevelsOk(p) && OneFlagEach(k) && FairRun(t, k, p, run)
    ensures Drifts(t, k, p, run) == Growths(t, k, p, run)
  {
    FairDrift(t, k, p, run, HitPool);
    FairDrift(t, k, p, run, ManaPool);
    FairDrift(t, k, p, run, MovePool);
  }

  /**
   In the player's terms: of two fair runs that entered the same classes and end in the same class with the same
   levels, the pools are the same exactly if the levels brought the same growth, whatever the order of it all.
   */
  lemma RouteDoesNotMatter(t: Tables, k: Catalogue, p: Player, run1: seq<Turn>, run2: seq<Turn>)
    requires PlayerOk(p) && LevelsOk(p) && OneFlagEach(k) && FairRun(t, k, p, run1) && FairRun(t, k, p, run2)
    requires Entered(t, k, p, run1) == Entered(t, k, p, run2) && SameEnd(TakeTurns(t, k, p, run1), TakeTurns(t, k, p, run2))
    ensures TakeTurns(t, k, p, run1).pools == TakeTurns(t, k, p, run2).pools
      <==> Growths(t, k, p, run1) == Growths(t, k, p, run2)
  {
    SameRoute(t, k, p, run1, run2);
    PathIndependence(t, k, p, run1, run2);
    FairDrifts(t, k, p, run1);
    FairDrifts(t, k, p, run2);
  }

  // ----- Runs of switches alone, and a run that is not fair

  /** Switches alone are fair for a player whose classes have no revocable bonus beyond their level. */
  lemma {:induction false} SwitchesFair(t: Tables, k: Catalogue, p: Player, run: seq<Turn>)
    requires PlayerOk(p) && forall turn :: turn in run ==> turn.Switch?
    requires forall c, pool :: c in p.levels ==> OutsideSum(RewardsOf(k, c), 1, p.levels[c].level, pool) == 0
    ensures FairRun(t, k, p, run)
    ensures forall c :: c in p.levels ==>
      c in TakeTurns(t, k, p, run).levels && TakeTurns(t, k, p, run).levels[c].level == p.levels[c].level
    ensures forall pool :: TotalGrowth(t, k, p, run, pool) == 0
  {
    if run == [] {
    } else {
      var init, turn := run[..|run| - 1], run[|run| - 1];
      var q := TakeTurns(t, k, p, init);
      assert turn in run && forall e :: e in init ==> e in run;
      SwitchesFair(t, k, p, init);
      RunLevels(t, k, p, init, NO_CLASS);
      forall c | c in p.levels
        ensures c in TakeTurns(t, k, p, run).levels && TakeTurns(t, k, p, run).levels[c].level == p.levels[c].level
      {
        TurnLevels(t, k, q, turn, c);
      }
    }
  }

  lemma ThreeTurns(t: Tables, k: Catalogue, p: Player, a: Turn, b: Turn, c: Turn)
    ensures TakeTurns(t, k, p, [a, b, c]) == TakeTurn(t, k, TakeTurn(t, k, TakeTurn(t, k, p, a), b), c)
  {
    assert [a, b, c][..2] == [a, b] && [a, b][..1] == [a] && [a][..0] == [];
    assert TakeTurns(t, k, p, [a]) == TakeTurn(t, k, p, a);
    assert TakeTurns(t, k, p, [a, b]) == TakeTurn(t, k, TakeTurns(t, k, p, [a]), b);
  }

  /** A class with one reward, a revocable bonus of ten hit points at level two, beside a class without any. */
  function LateBonus(): Reward {
    Reward(2, Bonus, "hp_max", 10, 0, true, false)
  }

  function TwoClasses(hit: int, level: int, applied: seq<Key>, current: ClassId): Player {
    Player(map[], Pools(hit, hit, 0, 0, 0, 0), [1, 2], map[1 := ClassLevel(1, []), 2 := ClassLevel(level, applied)], current)
  }

  lemma OneReward(t: Tables, s: Sheet, c: ClassId, r: Reward, from: int, to: int)
    ensures ApplyRewards(t, s, c, [r], from, to) == ApplyReward(t, s, c, r, from, to)
    ensures RevokeRewards(t, s, c, [r]) == RevokeReward(t, s, c, r)
  {
    assert [r][..0] == [];
  }

  lemma LateGain(t: Tables, k: Catalogue, hit: int, current: ClassId)
    requires k == map[2 := [LateBonus()]]
    ensures GainLevel(t, k, TwoClasses(hit, 1, [], current), 2, Growth(0, 0, 0))
         == TwoClasses(hit + 10, 2, [KeyOf(LateBonus())], current)
  {
    var raised := Raised(TwoClasses(hit, 1, [], current), 2, Growth(0, 0, 0));
    var sheet := Sheet(raised.skills, raised.pools, []);
    OneReward(t, sheet, 2, LateBonus(), 2, 2);
    assert ApplyReward(t, sheet, 2, LateBonus(), 2, 2).applied == [KeyOf(LateBonus())];
    assert raised.levels[2 := ClassLevel(2, [KeyOf(LateBonus())])]
        == map[1 := ClassLevel(1, []), 2 := ClassLevel(2, [KeyOf(LateBonus())])];
  }

  /** Going to the class with the bonus, which is given if its level is reached. */
  lemma LateVisit(t: Tables, k: Catalogue, hit: int, reached: bool)
    requires k == map[2 := [LateBonus()]]
    ensures var level, applied := if reached then 2 else 1, if reached then [KeyOf(LateBonus())] else [];
      SetClass(t, k, TwoClasses(hit, level, applied, 1), 2)
      == TwoClasses(if reached then hit + 10 else hit, level, applied, 2)
  {
    var level, applied := if reached then 2 else 1, if reached then [KeyOf(LateBonus())] else [];
    var p := TwoClasses(hit, level, applied, 1);
    assert RevokeRewards(t, Sheet(p.skills, p.pools, []), 1, []) == Sheet(p.skills, p.pools, []);
    assert LeaveClass(t, k, p, 1) == p;
    OneReward(t, Sheet(p.skills, p.pools, applied), 2, LateBonus(), 1, level);
  }

  lemma LateReturn(t: Tables, k: Catalogue, hit: int)
    requires k == map[2 := [LateBonus()]]
    ensures var applied := [KeyOf(LateBonus())];
      SetClass(t, k, TwoClasses(hit, 2, applied, 2), 1) == TwoClasses(hit - 10, 2, applied, 1)
  {
    var p := TwoClasses(hit, 2, [KeyOf(LateBonus())], 2);
    OneReward(t, Sheet(p.skills, p.pools, []), 2, LateBonus(), 1, 1);
    var left := LeaveClass(t, k, p, 2);
    assert ApplyRewards(t, Sheet(left.skills, left.pools, []), 1, [], 1, 1) == Sheet(left.skills, left.pools, []);
  }

  /**
   A level gained while the class is idle and then visited leaves more hit points than the same level gained during
   the visit: the same end, levels and records, but ten more, which leaving the class has not taken away.
   */
  lemma IdleLevelPays(t: Tables)
    ensures var k: Catalogue := map[2 := [LateBonus()]];
      var p, none := TwoClasses(20, 1, [], 1), Growth(0, 0, 0);
      && TakeTurns(t, k, p, [Gain(2, none), Switch(2), Switch(1)]) == TwoClasses(30, 2, [KeyOf(LateBonus())], 1)
      && TakeTurns(t, k, p, [Switch(2), Gain(2, none), Switch(1)]) == TwoClasses(20, 2, [KeyOf(LateBonus())], 1)
  {
    var k: Catalogue := map[2 := [LateBonus()]];
    var none := Growth(0, 0, 0);
    var start: int := 20;
    ThreeTurns(t, k, TwoClasses(start, 1, [], 1), Gain(2, none), Switch(2), Switch(1));
    LateGain(t, k, start, 1);
    LateVisit(t, k, start + 10, true);
    LateReturn(t, k, start + 20);
    ThreeTurns(t, k, TwoClasses(start, 1, [], 1), Switch(2), Gain(2, none), Switch(1));
    LateVisit(t, k, start, false);
    LateGain(t, k, start, 2);
    LateReturn(t, k, start + 10);
  }
}
