/** The one-time ledger and the stat pools over whole runs. */
module RewardLedger {
  import opened Lists
  import opened SkillSources
  import opened RewardModel

  // ----- The ledger

  predicate InRange(r: Reward, from: int, to: int) {
    from <= r.level <= to
  }

  /** The ledger after one pass; it depends on nothing but the ledger before it. */
  function LedgerAfter(applied: seq<Key>, rewards: seq<Reward>, from: int, to: int): seq<Key> {
    if rewards == [] then applied
    else
      var r, before := rewards[|rewards| - 1], LedgerAfter(applied, rewards[..|rewards| - 1], from, to);
      if InRange(r, from, to) && !IsApplied(before, r) then before + [KeyOf(r)] else before
  }

  lemma {:induction false} LedgerOfApply(t: Tables, s: Sheet, c: ClassId, rewards: seq<Reward>, from: int, to: int)
    ensures ApplyRewards(t, s, c, rewards, from, to).applied == LedgerAfter(s.applied, rewards, from, to)
  {
    if rewards == [] {
    } else {
      LedgerOfApply(t, s, c, rewards[..|rewards| - 1], from, to);
    }
  }

  /** Marking a reward puts its key on record and changes nothing about any other key. */
  lemma Marking(applied: seq<Key>, r: Reward, q: Reward)
    ensures IsApplied(applied + [KeyOf(r)], q) <==> IsApplied(applied, q) || KeyOf(q) == KeyOf(r)
  {
  }

  /** A reward of the range carries the key. */
  ghost predicate Due(rewards: seq<Reward>, from: int, to: int, k: Key) {
    exists i :: 0 <= i < |rewards| && InRange(rewards[i], from, to) && KeyOf(rewards[i]) == k
  }

  lemma DueMore(init: seq<Reward>, last: Reward, from: int, to: int, k: Key)
    ensures Due(init + [last], from, to, k) <==> Due(init, from, to, k) || (InRange(last, from, to) && KeyOf(last) == k)
  {
    var all := init + [last];
    assert all[|init|] == last;
    if Due(init, from, to, k) {
      var i :| 0 <= i < |init| && InRange(init[i], from, to) && KeyOf(init[i]) == k;
      assert all[i] == init[i];
    }
  }

  /** A pass marks exactly the keys of the rewards in its range, and forgets none. */
  lemma {:induction false} LedgerKeys(applied: seq<Key>, rewards: seq<Reward>, from: int, to: int, k: Key)
    ensures k in LedgerAfter(applied, rewards, from, to) <==> k in applied || Due(rewards, from, to, k)
  {
    if rewards == [] {
    } else {
      var init, last := rewards[..|rewards| - 1], rewards[|rewards| - 1];
      LedgerKeys(applied, init, from, to, k);
      assert rewards == init + [last];
      DueMore(init, last, from, to, k);
    }
  }

  // ----- What a run really applies

  /** One act on a character: a reward applied, whatever the ledger says, or a class's rewards revoked. */
  datatype Act = Applying(r: Reward) | Revoking

  /** The effect of an act, unconditionally: nothing is skipped here. */
  function Do(t: Tables, s: Sheet, c: ClassId, rewards: seq<Reward>, act: Act): Sheet {
    match act
    case Applying(r) =>
      Sheet(ApplyToSkills(t, s.skills, c, r), ApplyBonus(s.pools, r),
            if IsApplied(s.applied, r) then s.applied else s.applied + [KeyOf(r)])
    case Revoking => RevokeRewards(t, s, c, rewards)
  }

  function DoAll(t: Tables, s: Sheet, c: ClassId, rewards: seq<Reward>, acts: seq<Act>): Sheet {
    if acts == [] then s
    else Do(t, DoAll(t, s, c, rewards, acts[..|acts| - 1]), c, rewards, acts[|acts| - 1])
  }

  /** The keys of the one-time rewards applied, in order. */
  function OneTimeKeys(acts: seq<Act>): seq<Key> {
    if acts == [] then []
    else
      var last := acts[|acts| - 1];
      OneTimeKeys(acts[..|acts| - 1]) + if last.Applying? && last.r.oneTime then [KeyOf(last.r)] else []
  }

  /** The rewards one pass applies: those of the range, but no one-time reward already on record. */
  function Fired(applied: seq<Key>, rewards: seq<Reward>, from: int, to: int): seq<Act> {
    if rewards == [] then []
    else
      var init, r := rewards[..|rewards| - 1], rewards[|rewards| - 1];
      var skipped := r.oneTime && IsApplied(LedgerAfter(applied, init, from, to), r);
      Fired(applied, init, from, to) + if InRange(r, from, to) && !skipped then [Applying(r)] else []
  }

  /** The state after a pass is what applying exactly these rewards, each unconditionally, makes of it. */
  lemma {:induction false} PassIsFired(t: Tables, s: Sheet, c: ClassId, all: seq<Reward>, rewards: seq<Reward>,
                                       from: int, to: int)
    ensures ApplyRewards(t, s, c, rewards, from, to) == DoAll(t, s, c, all, Fired(s.applied, rewards, from, to))
  {
    if rewards == [] {
    } else {
      var init, r := rewards[..|rewards| - 1], rewards[|rewards| - 1];
      var fired := Fired(s.applied, init, from, to);
      PassIsFired(t, s, c, all, init, from, to);
      LedgerOfApply(t, s, c, init, from, to);
      assert (fired + [Applying(r)])[..|fired|] == fired;
      assert fired + [] == fired;
    }
  }

  lemma {:induction false} FiredOnce(applied: seq<Key>, rewards: seq<Reward>, from: int, to: int)
    ensures NoDup(OneTimeKeys(Fired(applied, rewards, from, to)))
    ensures forall k :: k in OneTimeKeys(Fired(applied, rewards, from, to)) ==>
      k !in applied && k in LedgerAfter(applied, rewards, from, to)
    ensures forall k :: k in applied ==> k in LedgerAfter(applied, rewards, from, to)
  {
    if rewards == [] {
    } else {
      var fired, r := Fired(applied, rewards[..|rewards| - 1], from, to), rewards[|rewards| - 1];
      FiredOnce(applied, rewards[..|rewards| - 1], from, to);
      assert (fired + [Applying(r)])[..|fired|] == fired;
      assert fired + [] == fired;
    }
  }

  /** What happens to a joined class: a level range is taken, on a join or a level gain, or the class is left. */
  datatype Event = Pass(from: int, to: int) | Leave

  function AfterEvent(t: Tables, s: Sheet, c: ClassId, rewards: seq<Reward>, e: Event): Sheet {
    match e
    case Pass(from, to) => ApplyRewards(t, s, c, rewards, from, to)
    case Leave => RevokeRewards(t, s, c, rewards)
  }

  function AfterEvents(t: Tables, s: Sheet, c: ClassId, rewards: seq<Reward>, events: seq<Event>): Sheet {
    if events == [] then s
    else AfterEvent(t, AfterEvents(t, s, c, rewards, events[..|events| - 1]), c, rewards, events[|events| - 1])
  }

  /** The acts of a run, given the ledger each event finds. */
  function ActsOf(t: Tables, s: Sheet, c: ClassId, rewards: seq<Reward>, events: seq<Event>): seq<Act> {
    if events == [] then []
    else
      var init, e := events[..|events| - 1], events[|events| - 1];
      ActsOf(t, s, c, rewards, init) + (
        match e
        case Pass(from, to) => Fired(AfterEvents(t, s, c, rewards, init).applied, rewards, from, to)
        case Leave => [Revoking])
  }

  lemma {:induction false} DoAllConcat(t: Tables, s: Sheet, c: ClassId, rewards: seq<Reward>, a: seq<Act>, b: seq<Act>)
    ensures DoAll(t, s, c, rewards, a + b) == DoAll(t, DoAll(t, s, c, rewards, a), c, rewards, b)
    ensures OneTimeKeys(a + b) == OneTimeKeys(a) + OneTimeKeys(b)
  {
    if b == [] {
      assert a + b == a;
    } else {
      DoAllConcat(t, s, c, rewards, a, b[..|b| - 1]);
      assert (a + b)[..|a + b| - 1] == a + b[..|b| - 1];
    }
  }

  /** The state after a run is what its acts, each unconditional, make of it. */
  lemma {:induction false} RunIsActs(t: Tables, s: Sheet, c: ClassId, rewards: seq<Reward>, events: seq<Event>)
    ensures AfterEvents(t, s, c, rewards, events) == DoAll(t, s, c, rewards, ActsOf(t, s, c, rewards, events))
  {
    if events == [] {
    } else {
      var init, e := events[..|events| - 1], events[|events| - 1];
      var mid, acts := AfterEvents(t, s, c, rewards, init), ActsOf(t, s, c, rewards, init);
      RunIsActs(t, s, c, rewards, init);
      match e {
        case Pass(from, to) =>
          PassIsFired(t, mid, c, rewards, rewards, from, to);
          DoAllConcat(t, s, c, rewards, acts, Fired(mid.applied, rewards, from, to));
        case Leave =>
          assert (acts + [Revoking])[..|acts|] == acts;
      }
    }
  }

  /** Some pass of the run is due to record the key. */
  ghost predicate DueInRun(rewards: seq<Reward>, events: seq<Event>, k: Key) {
    exists i :: 0 <= i < |events| && events[i].Pass? && Due(rewards, events[i].from, events[i].to, k)
  }

  /** After a run a key is on record exactly when it was before it or some pass was due to record it. */
  lemma {:induction false} RunKeys(t: Tables, s: Sheet, c: ClassId, rewards: seq<Reward>, events: seq<Event>, k: Key)
    ensures k in AfterEvents(t, s, c, rewards, events).applied <==> k in s.applied || DueInRun(rewards, events, k)
  {
    if events == [] {
    } else {
      var init, e := events[..|events| - 1], events[|events| - 1];
      var mid := AfterEvents(t, s, c, rewards, init);
      RunKeys(t, s, c, rewards, init, k);
      DueMoreEvents(rewards, init, e, k);
      assert events == init + [e];
      match e {
        case Pass(from, to) =>
          LedgerOfApply(t, mid, c, rewards, from, to);
          LedgerKeys(mid.applied, rewards, from, to, k);
        case Leave =>
          RevokeKeepsLedger(t, mid, c, rewards);
      }
    }
  }

  lemma DueMoreEvents(rewards: seq<Reward>, init: seq<Event>, e: Event, k: Key)
    ensures DueInRun(rewards, init + [e], k)
      <==> DueInRun(rewards, init, k) || (e.Pass? && Due(rewards, e.from, e.to, k))
  {
    var all := init + [e];
    assert all[|init|] == e;
    if DueInRun(rewards, init, k) {
      var i :| 0 <= i < |init| && init[i].Pass? && Due(rewards, init[i].from, init[i].to, k);
      assert all[i] == init[i];
    }
  }

  lemma {:induction false} ActsOnce(t: Tables, s: Sheet, c: ClassId, rewards: seq<Reward>, events: seq<Event>)
    ensures var keys, after := OneTimeKeys(ActsOf(t, s, c, rewards, events)), AfterEvents(t, s, c, rewards, events).applied;
      && NoDup(keys)
      && (forall k :: k in keys ==> k !in s.applied && k in after)
      && (forall k :: k in s.applied ==> k in after)
  {
    if events == [] {
    } else {
      var init, e := events[..|events| - 1], events[|events| - 1];
      var mid, acts := AfterEvents(t, s, c, rewards, init), ActsOf(t, s, c, rewards, init);
      ActsOnce(t, s, c, rewards, init);
      match e {
        case Pass(from, to) =>
          var fired := Fired(mid.applied, rewards, from, to);
          LedgerOfApply(t, mid, c, rewards, from, to);
          FiredOnce(mid.applied, rewards, from, to);
          DoAllConcat(t, s, c, rewards, acts, fired);
          NoDupConcat(OneTimeKeys(acts), OneTimeKeys(fired));
        case Leave =>
          RevokeKeepsLedger(t, mid, c, rewards);
          assert (acts + [Revoking])[..|acts|] == acts;
      }
    }
  }

  /**
   Over any run of joins, level ranges and departures the character ends up exactly as its acts make it, and
   among these a one-time key is applied at most once, and never if it was on record before the run.
   */
  lemma OneTimeFiresOnce(t: Tables, s: Sheet, c: ClassId, rewards: seq<Reward>, events: seq<Event>)
    ensures var acts := ActsOf(t, s, c, rewards, events);
      && AfterEvents(t, s, c, rewards, events) == DoAll(t, s, c, rewards, acts)
      && NoDup(OneTimeKeys(acts)) && forall k :: k in OneTimeKeys(acts) ==> k !in s.applied
  {
    RunIsActs(t, s, c, rewards, events);
    ActsOnce(t, s, c, rewards, events);
  }

  lemma NoDupConcat<T(!new)>(a: seq<T>, b: seq<T>)
    requires NoDup(a) && NoDup(b) && forall x :: x in a ==> x !in b
    ensures NoDup(a + b)
  {
    forall i, j | 0 <= i < j < |a + b|
      ensures (a + b)[i] != (a + b)[j]
    {
      if i < |a| <= j {
        assert a[i] in a && b[j - |a|] in b;
      }
    }
  }

  // ----- Sums of bonuses

  function MaxOf(p: Pools, pool: Pool): int {
    match pool
    case HitPool => p.maxHit
    case ManaPool => p.maxMana
    case MovePool => p.maxMove
    case NoPool => 0
  }

  function PermOf(p: Pools, pool: Pool): int {
    match pool
    case HitPool => p.permHit
    case ManaPool => p.permMana
    case MovePool => p.permMove
    case NoPool => 0
  }

  function Amount(r: Reward, pool: Pool): int {
    if r.kind.Bonus? && PoolOf(r.name) == pool && pool != NoPool then r.value else 0
  }

  function RevokedSum(rewards: seq<Reward>, pool: Pool): int {
    if rewards == [] then 0
    else
      var r := rewards[|rewards| - 1];
      RevokedSum(rewards[..|rewards| - 1], pool) + if r.revokeOnLeave then Amount(r, pool) else 0
  }

  /** No earlier reward of the list has this one's key. */
  ghost predicate FirstWithKey(rewards: seq<Reward>, i: nat)
    requires i < |rewards|
  {
    forall j :: 0 <= j < i ==> KeyOf(rewards[j]) != KeyOf(rewards[i])
  }

  /** What the one-time bonuses recorded in a ledger are worth: each key counts for its first reward. */
  ghost function OnceSum(rewards: seq<Reward>, applied: seq<Key>, pool: Pool): int {
    if rewards == [] then 0
    else
      var r := rewards[|rewards| - 1];
      OnceSum(rewards[..|rewards| - 1], applied, pool)
      + if r.oneTime && KeyOf(r) in applied && FirstWithKey(rewards, |rewards| - 1) then Amount(r, pool) else 0
  }

  lemma {:induction false} RevokePools(t: Tables, s: Sheet, c: ClassId, rewards: seq<Reward>, pool: Pool)
    ensures MaxOf(RevokeRewards(t, s, c, rewards).pools, pool) == MaxOf(s.pools, pool) - RevokedSum(rewards, pool)
    ensures MaxOf(RevokeRewards(t, s, c, rewards).pools, pool) - PermOf(RevokeRewards(t, s, c, rewards).pools, pool)
         == MaxOf(s.pools, pool) - PermOf(s.pools, pool)
  {
    if rewards == [] {
    } else {
      RevokePools(t, s, c, rewards[..|rewards| - 1], pool);
    }
  }

  lemma {:induction false} ApplyKeepsGap(t: Tables, s: Sheet, c: ClassId, rewards: seq<Reward>, from: int, to: int, pool: Pool)
    ensures MaxOf(ApplyRewards(t, s, c, rewards, from, to).pools, pool) - PermOf(ApplyRewards(t, s, c, rewards, from, to).pools, pool)
         == MaxOf(s.pools, pool) - PermOf(s.pools, pool)
  {
    if rewards == [] {
    } else {
      ApplyKeepsGap(t, s, c, rewards[..|rewards| - 1], from, to, pool);
    }
  }

  // ----- Leaving and rejoining one class

  /** What every join after the first applies again: the bonuses in range that are not one-time. */
  function RepeatSum(rewards: seq<Reward>, from: int, to: int, pool: Pool): int {
    if rewards == [] then 0
    else
      var r := rewards[|rewards| - 1];
      RepeatSum(rewards[..|rewards| - 1], from, to, pool) + if InRange(r, from, to) && !r.oneTime then Amount(r, pool) else 0
  }

  /** Every reward in range is in the ledger: the class has been joined at this level before. */
  ghost predicate JoinedBefore(applied: seq<Key>, rewards: seq<Reward>, from: int, to: int) {
    forall i :: 0 <= i < |rewards| && InRange(rewards[i], from, to) ==> KeyOf(rewards[i]) in applied
  }

  lemma {:induction false} RejoinPools(t: Tables, s: Sheet, c: ClassId, rewards: seq<Reward>, from: int, to: int, pool: Pool)
    requires JoinedBefore(s.applied, rewards, from, to)
    ensures ApplyRewards(t, s, c, rewards, from, to).applied == s.applied
    ensures MaxOf(ApplyRewards(t, s, c, rewards, from, to).pools, pool) == MaxOf(s.pools, pool) + RepeatSum(rewards, from, to, pool)
  {
    if rewards == [] {
    } else {
      var init := rewards[..|rewards| - 1];
      assert forall i :: 0 <= i < |init| ==> init[i] == rewards[i];
      RejoinPools(t, s, c, init, from, to, pool);
    }
  }

  /**
   Leaving a class and joining it again at the same level gives every pool back exactly when, for each pool,
   the bonuses it re-applies are worth what its revocable bonuses take away. Bonuses that are neither one-time
   nor revocable, that are both, or that are revocable above the class level tip the balance.
   */
  lemma LeaveAndRejoin(t: Tables, s: Sheet, c: ClassId, rewards: seq<Reward>, level: int)
    requires JoinedBefore(s.applied, rewards, 1, level)
    ensures var back := ApplyRewards(t, RevokeRewards(t, s, c, rewards), c, rewards, 1, level);
      && (forall pool :: MaxOf(back.pools, pool) == MaxOf(s.pools, pool) + RepeatSum(rewards, 1, level, pool) - RevokedSum(rewards, pool))
      && (back.pools == s.pools <==> forall pool :: RepeatSum(rewards, 1, level, pool) == RevokedSum(rewards, pool))
  {
    var left := RevokeRewards(t, s, c, rewards);
    var back := ApplyRewards(t, left, c, rewards, 1, level);
    RevokeKeepsLedger(t, s, c, rewards);
    forall pool
      ensures MaxOf(back.pools, pool) == MaxOf(s.pools, pool) + RepeatSum(rewards, 1, level, pool) - RevokedSum(rewards, pool)
      ensures MaxOf(back.pools, pool) - PermOf(back.pools, pool) == MaxOf(s.pools, pool) - PermOf(s.pools, pool)
    {
      RevokePools(t, s, c, rewards, pool);
      RejoinPools(t, left, c, rewards, 1, level, pool);
      ApplyKeepsGap(t, left, c, rewards, 1, level, pool);
    }
    PoolsByParts(back.pools, s.pools);
  }

  /** A bonus that is neither one-time nor revocable is gained again by leaving the class and coming back. */
  lemma BonusGainedTwice(t: Tables)
    ensures var rewards := [Reward(1, Bonus, "hp_max", 10, 0, false, false)];
      var first := ApplyRewards(t, Sheet(map[], Pools(20, 20, 0, 0, 0, 0), []), 1, rewards, 1, 1);
      var again := ApplyRewards(t, RevokeRewards(t, first, 1, rewards), 1, rewards, 1, 1);
      first.pools.maxHit == 30 && again.pools.maxHit == 40
  {
    var rewards := [Reward(1, Bonus, "hp_max", 10, 0, false, false)];
    assert rewards[..0] == [];
  }

  lemma PoolsByParts(p: Pools, q: Pools)
    ensures p == q <==> forall pool :: MaxOf(p, pool) == MaxOf(q, pool) && PermOf(p, pool) == PermOf(q, pool)
  {
    if forall pool :: MaxOf(p, pool) == MaxOf(q, pool) && PermOf(p, pool) == PermOf(q, pool) {
      assert MaxOf(p, HitPool) == MaxOf(q, HitPool) && MaxOf(p, ManaPool) == MaxOf(q, ManaPool);
      assert MaxOf(p, MovePool) == MaxOf(q, MovePool) && PermOf(p, HitPool) == PermOf(q, HitPool);
      assert PermOf(p, ManaPool) == PermOf(q, ManaPool) && PermOf(p, MovePool) == PermOf(q, MovePool);
    }
  }

  lemma {:induction false} RevokeKeepsLedger(t: Tables, s: Sheet, c: ClassId, rewards: seq<Reward>)
    ensures RevokeRewards(t, s, c, rewards).applied == s.applied
  {
    if rewards == [] {
    } else {
      RevokeKeepsLedger(t, s, c, rewards[..|rewards| - 1]);
    }
  }
}
