/** Merging two scrolls or potions: the strongest-first pairing of their spells, and what it is worth. */
module Combine {
  import opened Lists

  /** SPELL_DATA: its number, its level, and the level of the spell it was paired with (zero: none). */
  datatype Spell = Spell(sn: int, level: int, repop: int)

  predicate Free(x: Spell) {
    x.level > 0 && x.repop == 0
  }

  /** The spell numbers of the spells that count, those of positive level, with how often each occurs. */
  function Magic(v: seq<Spell>): multiset<int> {
    if v == [] then multiset{}
    else Magic(v[..|v| - 1]) + (if v[|v| - 1].level > 0 then multiset{v[|v| - 1].sn} else multiset{})
  }

  /** The same for the spells not yet paired. */
  function Unpaired(v: seq<Spell>): multiset<int> {
    if v == [] then multiset{}
    else Unpaired(v[..|v| - 1]) + (if Free(v[|v| - 1]) then multiset{v[|v| - 1].sn} else multiset{})
  }

  predicate Cleared(v: seq<Spell>) {
    forall i :: 0 <= i < |v| ==> v[i].repop == 0
  }

  lemma {:induction false} ClearedUnpaired(v: seq<Spell>)
    requires Cleared(v)
    ensures Unpaired(v) == Magic(v)
  {
    if v == [] {
    } else {
      ClearedUnpaired(v[..|v| - 1]);
    }
  }

  lemma {:induction false} UnpairedHas(v: seq<Spell>, s: int)
    ensures s in Unpaired(v) <==> exists i :: 0 <= i < |v| && Free(v[i]) && v[i].sn == s
  {
    if v == [] {
    } else {
      var u := v[..|v| - 1];
      UnpairedHas(u, s);
      assert forall i :: 0 <= i < |u| ==> u[i] == v[i];
    }
  }

  lemma {:induction false} UnpairedCount(v: seq<Spell>, i: nat, mark: int, s: int)
    requires i < |v| && Free(v[i]) && mark != 0
    ensures Unpaired(v)[s] == Unpaired(v[i := v[i].(repop := mark)])[s] + if s == v[i].sn then 1 else 0
  {
    var u, n := v[i := v[i].(repop := mark)], |v| - 1;
    if i == n {
      assert u[..n] == v[..n];
    } else {
      UnpairedCount(v[..n], i, mark, s);
      assert u[..n] == v[..n][i := v[i].(repop := mark)];
    }
  }

  /** Pairing a spell takes one occurrence of its number out. */
  lemma UnpairedMark(v: seq<Spell>, i: nat, mark: int)
    requires i < |v| && Free(v[i]) && mark != 0
    ensures Unpaired(v) == Unpaired(v[i := v[i].(repop := mark)]) + multiset{v[i].sn}
  {
    forall s: int
      ensures Unpaired(v)[s] == (Unpaired(v[i := v[i].(repop := mark)]) + multiset{v[i].sn})[s]
    {
      UnpairedCount(v, i, mark, s);
    }
  }

  // ----- Pairings

  /** Positions in the first and in the second item. */
  type Pairs = seq<(nat, nat)>

  predicate InPlace(v: seq<Spell>, w: seq<Spell>, pairs: Pairs) {
    forall k :: 0 <= k < |pairs| ==> pairs[k].0 < |v| && pairs[k].1 < |w|
  }

  /** Spells of positive level, each with one of the same number, none twice. */
  predicate SameSpells(v: seq<Spell>, w: seq<Spell>, pairs: Pairs) {
    && InPlace(v, w, pairs)
    && (forall k :: 0 <= k < |pairs| ==>
          v[pairs[k].0].level > 0 && w[pairs[k].1].level > 0 && v[pairs[k].0].sn == w[pairs[k].1].sn)
    && (forall k, l :: 0 <= k < l < |pairs| ==> pairs[k].0 != pairs[l].0 && pairs[k].1 != pairs[l].1)
  }

  function Firsts(pairs: Pairs): (r: seq<nat>)
    ensures |r| == |pairs| && forall k :: 0 <= k < |r| ==> r[k] == pairs[k].0
  {
    seq(|pairs|, k requires 0 <= k < |pairs| => pairs[k].0)
  }

  function Seconds(pairs: Pairs): (r: seq<nat>)
    ensures |r| == |pairs| && forall k :: 0 <= k < |r| ==> r[k] == pairs[k].1
  {
    seq(|pairs|, k requires 0 <= k < |pairs| => pairs[k].1)
  }

  predicate AllPaired(v: seq<Spell>, taken: seq<nat>) {
    forall i :: 0 <= i < |v| && v[i].level > 0 ==> i in taken
  }

  /** One-to-one between the spells of positive level of both items, number by number. */
  predicate Matching(v: seq<Spell>, w: seq<Spell>, pairs: Pairs) {
    SameSpells(v, w, pairs) && AllPaired(v, Firsts(pairs)) && AllPaired(w, Seconds(pairs))
  }

  /** For each number, stronger spells of one item are with stronger spells of the other. */
  predicate Descending(v: seq<Spell>, w: seq<Spell>, pairs: Pairs)
    requires InPlace(v, w, pairs)
  {
    forall k, l :: 0 <= k < l < |pairs| && v[pairs[k].0].sn == v[pairs[l].0].sn ==>
      v[pairs[k].0].level >= v[pairs[l].0].level && w[pairs[k].1].level >= w[pairs[l].1].level
  }

  // ----- The pairing loop

  /** Outside the positions taken nothing is marked. */
  ghost predicate Untouched(v: seq<Spell>, x: seq<Spell>, taken: seq<nat>) {
    |x| == |v| && forall i :: 0 <= i < |v| && i !in taken ==> x[i] == v[i] && x[i].repop == 0
  }

  /** Where the loop stands: v and w are the items as they were, x and y as they are. */
  ghost predicate Midway(v: seq<Spell>, w: seq<Spell>, x: seq<Spell>, y: seq<Spell>, pairs: Pairs) {
    && SameSpells(v, w, pairs) && Descending(v, w, pairs)
    && Untouched(v, x, Firsts(pairs)) && Untouched(w, y, Seconds(pairs))
    && (forall k :: 0 <= k < |pairs| ==>
          && x[pairs[k].0] == v[pairs[k].0].(repop := w[pairs[k].1].level)
          && y[pairs[k].1] == w[pairs[k].1].(repop := 1))
  }

  /** What is left is no stronger than what was taken. */
  ghost predicate Greedy(v: seq<Spell>, w: seq<Spell>, x: seq<Spell>, y: seq<Spell>, pairs: Pairs)
    requires InPlace(v, w, pairs)
  {
    && (forall i, k :: 0 <= i < |x| && Free(x[i]) && 0 <= k < |pairs| && x[i].sn == v[pairs[k].0].sn ==>
          x[i].level <= v[pairs[k].0].level)
    && (forall j, k :: 0 <= j < |y| && Free(y[j]) && 0 <= k < |pairs| && y[j].sn == v[pairs[k].0].sn ==>
          y[j].level <= w[pairs[k].1].level)
  }

  /** The two items differ in the numbers of their unpaired spells as they did at the start. */
  ghost predicate Balanced(v: seq<Spell>, w: seq<Spell>, x: seq<Spell>, y: seq<Spell>) {
    Unpaired(x) + Magic(w) == Unpaired(y) + Magic(v)
  }

  predicate Candidate(x: Spell, sn: Option<int>) {
    Free(x) && (sn.Some? ==> x.sn == sn.value)
  }

  predicate IsStrongest(v: seq<Spell>, sn: Option<int>, best: nat) {
    best < |v| && Candidate(v[best], sn)
    && forall i :: 0 <= i < |v| && Candidate(v[i], sn) ==> v[i].level <= v[best].level
  }

  /** The inner loops: the strongest unpaired spell, of one number or of any. */
  method Strongest(a: array<Spell>, sn: Option<int>) returns (best: Option<nat>)
    ensures best.None? ==> forall i :: 0 <= i < a.Length ==> !Candidate(a[i], sn)
    ensures best.Some? ==> IsStrongest(a[..], sn, best.value)
  {
    best := None;
    for n := 0 to a.Length
      invariant best.None? ==> forall i :: 0 <= i < n ==> !Candidate(a[i], sn)
      invariant best.Some? ==> best.value < n && Candidate(a[best.value], sn)
      invariant best.Some? ==> forall i :: 0 <= i < n && Candidate(a[i], sn) ==> a[i].level <= a[best.value].level
    {
      if Candidate(a[n], sn) && (best.None? || a[n].level > a[best.value].level) {
        best := Some(n);
      }
    }
  }

  lemma SidesMore(pairs: Pairs, i: nat, j: nat)
    ensures Firsts(pairs + [(i, j)]) == Firsts(pairs) + [i] && Seconds(pairs + [(i, j)]) == Seconds(pairs) + [j]
  {
  }

  lemma SameSpellsMore(v: seq<Spell>, w: seq<Spell>, pairs: Pairs, i: nat, j: nat)
    requires SameSpells(v, w, pairs) && i < |v| && j < |w|
    requires v[i].level > 0 && w[j].level > 0 && v[i].sn == w[j].sn && i !in Firsts(pairs) && j !in Seconds(pairs)
    ensures SameSpells(v, w, pairs + [(i, j)])
  {
    forall k | 0 <= k < |pairs| ensures pairs[k].0 != i && pairs[k].1 != j {
      assert Firsts(pairs)[k] in Firsts(pairs) && Seconds(pairs)[k] in Seconds(pairs);
    }
  }

  lemma DescendingMore(v: seq<Spell>, w: seq<Spell>, x: seq<Spell>, y: seq<Spell>, pairs: Pairs, i: nat, j: nat)
    requires InPlace(v, w, pairs) && Descending(v, w, pairs) && Greedy(v, w, x, y, pairs)
    requires |x| == |v| && |y| == |w| && i < |v| && j < |w| && x[i] == v[i] && y[j] == w[j]
    requires Free(x[i]) && Free(y[j]) && x[i].sn == y[j].sn
    ensures Descending(v, w, pairs + [(i, j)])
  {
  }

  lemma MidwayStep(v: seq<Spell>, w: seq<Spell>, x: seq<Spell>, y: seq<Spell>, pairs: Pairs, i: nat, j: nat)
    requires Midway(v, w, x, y, pairs) && Greedy(v, w, x, y, pairs)
    requires IsStrongest(x, None, i) && IsStrongest(y, Some(x[i].sn), j)
    ensures Midway(v, w, x[i := x[i].(repop := y[j].level)], y[j := y[j].(repop := 1)], pairs + [(i, j)])
  {
    NotTaken(v, w, x, y, pairs, i, j);
    SidesMore(pairs, i, j);
    SameSpellsMore(v, w, pairs, i, j);
    DescendingMore(v, w, x, y, pairs, i, j);
    UntouchedMore(v, x, Firsts(pairs), i, y[j].level);
    UntouchedMore(w, y, Seconds(pairs), j, 1);
    MarksMore(v, w, x, y, pairs, i, j);
  }

  /** A spell still free is in no pair yet. */
  lemma NotTaken(v: seq<Spell>, w: seq<Spell>, x: seq<Spell>, y: seq<Spell>, pairs: Pairs, i: nat, j: nat)
    requires Midway(v, w, x, y, pairs) && i < |x| && j < |y| && Free(x[i]) && Free(y[j])
    ensures i !in Firsts(pairs) && j !in Seconds(pairs) && x[i] == v[i] && y[j] == w[j]
  {
  }

  lemma UntouchedMore(v: seq<Spell>, x: seq<Spell>, taken: seq<nat>, i: nat, mark: int)
    requires Untouched(v, x, taken) && i < |v|
    ensures Untouched(v, x[i := x[i].(repop := mark)], taken + [i])
  {
  }

  lemma MarksMore(v: seq<Spell>, w: seq<Spell>, x: seq<Spell>, y: seq<Spell>, pairs: Pairs, i: nat, j: nat)
    requires Midway(v, w, x, y, pairs) && i < |v| && j < |w| && x[i] == v[i] && y[j] == w[j]
    requires i !in Firsts(pairs) && j !in Seconds(pairs)
    ensures var x', y', more := x[i := x[i].(repop := y[j].level)], y[j := y[j].(repop := 1)], pairs + [(i, j)];
      && InPlace(v, w, more)
      && (forall k :: 0 <= k < |more| ==>
            && x'[more[k].0] == v[more[k].0].(repop := w[more[k].1].level)
            && y'[more[k].1] == w[more[k].1].(repop := 1))
  {
    forall k | 0 <= k < |pairs| ensures pairs[k].0 != i && pairs[k].1 != j {
      assert Firsts(pairs)[k] in Firsts(pairs) && Seconds(pairs)[k] in Seconds(pairs);
    }
  }

  lemma GreedyStep(v: seq<Spell>, w: seq<Spell>, x: seq<Spell>, y: seq<Spell>, pairs: Pairs, i: nat, j: nat)
    requires Midway(v, w, x, y, pairs) && Greedy(v, w, x, y, pairs)
    requires IsStrongest(x, None, i) && IsStrongest(y, Some(x[i].sn), j)
    requires InPlace(v, w, pairs + [(i, j)])
    ensures Greedy(v, w, x[i := x[i].(repop := y[j].level)], y[j := y[j].(repop := 1)], pairs + [(i, j)])
  {
    assert i !in Firsts(pairs) && j !in Seconds(pairs);
  }

  lemma BalancedStep(v: seq<Spell>, w: seq<Spell>, x: seq<Spell>, y: seq<Spell>, i: nat, j: nat)
    requires Balanced(v, w, x, y) && i < |x| && j < |y| && Free(x[i]) && Free(y[j]) && x[i].sn == y[j].sn
    ensures Balanced(v, w, x[i := x[i].(repop := y[j].level)], y[j := y[j].(repop := 1)])
    ensures |Unpaired(x[i := x[i].(repop := y[j].level)])| < |Unpaired(x)|
  {
    UnpairedMark(x, i, y[j].level);
    UnpairedMark(y, j, 1);
    var x1, y1 := Unpaired(x[i := x[i].(repop := y[j].level)]), Unpaired(y[j := y[j].(repop := 1)]);
    assert |Unpaired(x)| == |x1| + 1;
    forall s ensures (x1 + Magic(w))[s] == (y1 + Magic(v))[s] {
      assert (Unpaired(x) + Magic(w))[s] == (Unpaired(y) + Magic(v))[s];
    }
  }

  /** One round: the marks left on the strongest spell and on its mate. */
  method Mark(a: array<Spell>, b: array<Spell>, i: nat, j: nat)
    requires a != b && i < a.Length && j < b.Length
    modifies a, b
    ensures a[..] == old(a[..])[i := old(a[i]).(repop := old(b[j]).level)]
    ensures b[..] == old(b[..])[j := old(b[j]).(repop := 1)]
  {
    a[i] := a[i].(repop := b[j].level);
    b[j] := b[j].(repop := 1);
  }

  ghost predicate Pairing(v: seq<Spell>, w: seq<Spell>, x: seq<Spell>, y: seq<Spell>, pairs: Pairs) {
    Midway(v, w, x, y, pairs) && Greedy(v, w, x, y, pairs) && Balanced(v, w, x, y)
  }

  lemma PairingStarts(v: seq<Spell>, w: seq<Spell>)
    requires Cleared(v) && Cleared(w)
    ensures Pairing(v, w, v, w, [])
  {
    ClearedUnpaired(v);
    ClearedUnpaired(w);
  }

  lemma PairingStep(v: seq<Spell>, w: seq<Spell>, x: seq<Spell>, y: seq<Spell>, pairs: Pairs, i: nat, j: nat)
    requires Pairing(v, w, x, y, pairs)
    requires IsStrongest(x, None, i) && IsStrongest(y, Some(x[i].sn), j)
    ensures Pairing(v, w, x[i := x[i].(repop := y[j].level)], y[j := y[j].(repop := 1)], pairs + [(i, j)])
    ensures |Unpaired(x[i := x[i].(repop := y[j].level)])| < |Unpaired(x)|
  {
    MidwayStep(v, w, x, y, pairs, i, j);
    GreedyStep(v, w, x, y, pairs, i, j);
    BalancedStep(v, w, x, y, i, j);
  }

  /** A spell without a mate: the numbers of the two items were different from the start. */
  lemma NoMate(v: seq<Spell>, w: seq<Spell>, x: seq<Spell>, y: seq<Spell>, i: nat)
    requires Balanced(v, w, x, y) && i < |x| && Free(x[i])
    requires forall j :: 0 <= j < |y| ==> !Candidate(y[j], Some(x[i].sn))
    ensures Magic(v) != Magic(w)
  {
    var s := x[i].sn;
    UnpairedHas(x, s);
    UnpairedHas(y, s);
    assert (Unpaired(x) + Magic(w))[s] == (Unpaired(y) + Magic(v))[s];
  }

  /** The maximizing branch: pairs the spells up, or finds one of the first item without a mate. */
  method PairStrongest(a: array<Spell>, b: array<Spell>) returns (ok: bool, ghost pairs: Pairs)
    requires a != b && Cleared(a[..]) && Cleared(b[..])
    modifies a, b
    ensures Pairing(old(a[..]), old(b[..]), a[..], b[..], pairs)
    ensures ok ==> forall i :: 0 <= i < a.Length ==> !Free(a[i])
    ensures !ok ==> Magic(old(a[..])) != Magic(old(b[..]))
  {
    ghost var v, w := a[..], b[..];
    pairs := [];
    PairingStarts(v, w);
    while true
      invariant Pairing(v, w, a[..], b[..], pairs)
      decreases |Unpaired(a[..])|
    {
      var best := Strongest(a, None);
      if best.None? {
        return true, pairs;
      }
      var i := best.value;
      var mate := Strongest(b, Some(a[i].sn));
      if mate.None? {
        NoMate(v, w, a[..], b[..], i);
        return false, pairs;
      }
      PairingStep(v, w, a[..], b[..], pairs, i, mate.value);
      Mark(a, b, i, mate.value);
      pairs := pairs + [(i, mate.value)];
    }
  }

  /** Both items used up: the pairs made are a complete pairing, and the items had the same spells. */
  lemma AllMatched(v: seq<Spell>, w: seq<Spell>, x: seq<Spell>, y: seq<Spell>, pairs: Pairs)
    requires Pairing(v, w, x, y, pairs)
    requires (forall i :: 0 <= i < |x| ==> !Free(x[i])) && (forall j :: 0 <= j < |y| ==> !Free(y[j]))
    ensures Matching(v, w, pairs) && Magic(v) == Magic(w)
  {
    AllTaken(v, x, Firsts(pairs));
    AllTaken(w, y, Seconds(pairs));
    SameMagic(v, w, x, y);
  }

  lemma AllTaken(v: seq<Spell>, x: seq<Spell>, taken: seq<nat>)
    requires Untouched(v, x, taken)
    requires forall i :: 0 <= i < |x| ==> !Free(x[i])
    ensures AllPaired(v, taken)
  {
  }

  lemma SameMagic(v: seq<Spell>, w: seq<Spell>, x: seq<Spell>, y: seq<Spell>)
    requires Balanced(v, w, x, y)
    requires (forall i :: 0 <= i < |x| ==> !Free(x[i])) && (forall j :: 0 <= j < |y| ==> !Free(y[j]))
    ensures Magic(v) == Magic(w)
  {
    NothingFree(x);
    NothingFree(y);
    assert multiset{} + Magic(w) == Magic(w);
  }

  /** The second item has a spell left over: the items did not have the same spells. */
  lemma LeftOver(v: seq<Spell>, w: seq<Spell>, x: seq<Spell>, y: seq<Spell>, j: nat)
    requires Balanced(v, w, x, y) && (forall i :: 0 <= i < |x| ==> !Free(x[i])) && j < |y| && Free(y[j])
    ensures Magic(v) != Magic(w)
  {
    NothingFree(x);
    UnpairedHas(y, y[j].sn);
    assert Unpaired(y)[y[j].sn] > 0;
    assert (Unpaired(x) + Magic(w))[y[j].sn] == (Unpaired(y) + Magic(v))[y[j].sn];
  }

  lemma NothingFree(v: seq<Spell>)
    requires forall i :: 0 <= i < |v| ==> !Free(v[i])
    ensures Unpaired(v) == multiset{}
  {
    forall s ensures s !in Unpaired(v) {
      UnpairedHas(v, s);
    }
  }

  // ----- What strongest-first gives

  /** All of one item used up, each spell once. */
  predicate UsedUp(v: seq<Spell>, taken: seq<nat>) {
    && (forall k :: 0 <= k < |taken| ==> taken[k] < |v| && v[taken[k]].level > 0)
    && (forall k, l :: 0 <= k < l < |taken| ==> taken[k] != taken[l])
    && AllPaired(v, taken)
  }

  function Sum(v: seq<Spell>, taken: seq<nat>, f: Spell -> int): int
    requires forall k :: 0 <= k < |taken| ==> taken[k] < |v|
  {
    if taken == [] then 0 else Sum(v, taken[..|taken| - 1], f) + f(v[taken[|taken| - 1]])
  }

  function SumAll(v: seq<Spell>, f: Spell -> int): int {
    if v == [] then 0
    else SumAll(v[..|v| - 1], f) + (if v[|v| - 1].level > 0 then f(v[|v| - 1]) else 0)
  }

  lemma {:induction false} SumCut(v: seq<Spell>, taken: seq<nat>, k: nat, f: Spell -> int)
    requires k < |taken| && forall n :: 0 <= n < |taken| ==> taken[n] < |v|
    ensures Sum(v, taken, f) == Sum(v, taken[..k] + taken[k + 1..], f) + f(v[taken[k]])
  {
    if k == |taken| - 1 {
      assert taken[..k] + taken[k + 1..] == taken[..k];
    } else {
      CutShort(taken, k);
      SumCut(v, taken[..|taken| - 1], k, f);
    }
  }

  lemma CutShort(taken: seq<nat>, k: nat)
    requires k < |taken| - 1
    ensures var rest, short := taken[..k] + taken[k + 1..], taken[..|taken| - 1];
      rest[..|rest| - 1] == short[..k] + short[k + 1..] && rest[|rest| - 1] == taken[|taken| - 1]
  {
  }

  lemma {:induction false} SumShort(v: seq<Spell>, taken: seq<nat>, f: Spell -> int)
    requires v != [] && forall k :: 0 <= k < |taken| ==> taken[k] < |v| - 1
    ensures Sum(v, taken, f) == Sum(v[..|v| - 1], taken, f)
  {
    if taken == [] {
    } else {
      SumShort(v, taken[..|taken| - 1], f);
    }
  }

  /** The positions of the spells of positive level, each once. */
  function Places(v: seq<Spell>): multiset<nat> {
    if v == [] then multiset{}
    else Places(v[..|v| - 1]) + (if v[|v| - 1].level > 0 then multiset{|v| - 1} else multiset{})
  }

  lemma {:induction false} PlacesHas(v: seq<Spell>, i: nat)
    ensures Places(v)[i] == if i < |v| && v[i].level > 0 then 1 else 0
  {
    if v == [] {
    } else {
      PlacesHas(v[..|v| - 1], i);
    }
  }

  lemma {:induction false} OnceEach(taken: seq<nat>, i: nat)
    requires forall k, l :: 0 <= k < l < |taken| ==> taken[k] != taken[l]
    ensures multiset(taken)[i] == if i in taken then 1 else 0
  {
    if taken == [] {
    } else {
      var short := taken[..|taken| - 1];
      OnceEach(short, i);
      assert taken == short + [taken[|taken| - 1]];
    }
  }

  lemma UsedUpPlaces(v: seq<Spell>, taken: seq<nat>)
    requires UsedUp(v, taken)
    ensures multiset(taken) == Places(v)
  {
    forall i: nat ensures multiset(taken)[i] == Places(v)[i] {
      OnceEach(taken, i);
      PlacesHas(v, i);
    }
  }

  lemma MatchingPlaces(v: seq<Spell>, w: seq<Spell>, pairs: Pairs)
    requires Matching(v, w, pairs)
    ensures multiset(Firsts(pairs)) == Places(v) && multiset(Seconds(pairs)) == Places(w)
  {
    UsedUpPlaces(v, Firsts(pairs));
    UsedUpPlaces(w, Seconds(pairs));
  }

  lemma Position(taken: seq<nat>, i: nat) returns (k: nat)
    requires i in taken
    ensures k < |taken| && taken[k] == i
  {
    k :| k < |taken| && taken[k] == i;
  }

  lemma CutOne(taken: seq<nat>, k: nat)
    requires k < |taken|
    ensures multiset(taken[..k] + taken[k + 1..]) == multiset(taken) - multiset{taken[k]}
  {
    assert taken == taken[..k] + [taken[k]] + taken[k + 1..];
  }

  lemma InRange(v: seq<Spell>, taken: seq<nat>)
    requires multiset(taken) <= Places(v)
    ensures forall k :: 0 <= k < |taken| ==> taken[k] < |v|
  {
    forall k | 0 <= k < |taken| ensures taken[k] < |v| {
      assert taken[k] in multiset(taken);
      PlacesHas(v, taken[k]);
    }
  }

  /** A sum over a whole item does not depend on the order in which its spells were taken. */
  lemma {:induction false} SumUsedUp(v: seq<Spell>, taken: seq<nat>, f: Spell -> int)
    requires multiset(taken) == Places(v)
    ensures forall k :: 0 <= k < |taken| ==> taken[k] < |v|
    ensures Sum(v, taken, f) == SumAll(v, f)
    decreases |v|
  {
    InRange(v, taken);
    if v == [] {
      assert |multiset(taken)| == |taken| == 0;
    } else if v[|v| - 1].level > 0 {
      assert |v| - 1 in multiset(taken);
      var k := Position(taken, |v| - 1);
      var rest := taken[..k] + taken[k + 1..];
      CutOne(taken, k);
      SumUsedUp(v[..|v| - 1], rest, f);
      SumCut(v, taken, k, f);
      SumShort(v, rest, f);
    } else {
      SumUsedUp(v[..|v| - 1], taken, f);
      SumShort(v, taken, f);
    }
  }

  /** Twice a third of either level: what a pair is blended into, before the cap. */
  function Blend(level: int, mate: int): int {
    2 * level / 3 + 2 * mate / 3
  }

  function PairBlend(v: seq<Spell>, w: seq<Spell>, p: (nat, nat)): int
    requires p.0 < |v| && p.1 < |w|
  {
    Blend(v[p.0].level, w[p.1].level)
  }

  /** The strongest blended level of a pairing. */
  function Best(v: seq<Spell>, w: seq<Spell>, pairs: Pairs): int
    requires InPlace(v, w, pairs)
  {
    if pairs == [] then 0
    else
      var b, p := Best(v, w, pairs[..|pairs| - 1]), PairBlend(v, w, pairs[|pairs| - 1]);
      if p > b then p else b
  }

  lemma {:induction false} BestIsMost(v: seq<Spell>, w: seq<Spell>, pairs: Pairs)
    requires InPlace(v, w, pairs)
    ensures forall k :: 0 <= k < |pairs| ==> PairBlend(v, w, pairs[k]) <= Best(v, w, pairs)
    ensures Best(v, w, pairs) == 0 || exists k :: 0 <= k < |pairs| && PairBlend(v, w, pairs[k]) == Best(v, w, pairs)
    ensures Best(v, w, pairs) >= 0
  {
    if pairs == [] {
    } else {
      var short := pairs[..|pairs| - 1];
      BestIsMost(v, w, short);
      assert forall k :: 0 <= k < |short| ==> short[k] == pairs[k];
    }
  }

  /** Strongest-first is as strong as any: no other pairing of same spells blends into a higher level. */
  lemma NoneStronger(v: seq<Spell>, w: seq<Spell>, pairs: Pairs, other: Pairs)
    requires Matching(v, w, pairs) && Descending(v, w, pairs) && SameSpells(v, w, other)
    ensures Best(v, w, other) <= Best(v, w, pairs)
  {
    BestIsMost(v, w, pairs);
    BestIsMost(v, w, other);
    if Best(v, w, other) != 0 {
      var k :| 0 <= k < |other| && PairBlend(v, w, other[k]) == Best(v, w, other);
      var l := AsStrong(v, w, pairs, other, k);
    }
  }

  /** Spell by spell: each pair of the other pairing is matched by the first pair of its spell. */
  lemma AsStrong(v: seq<Spell>, w: seq<Spell>, pairs: Pairs, other: Pairs, k: nat) returns (l: nat)
    requires Matching(v, w, pairs) && Descending(v, w, pairs) && SameSpells(v, w, other) && k < |other|
    ensures l < |pairs| && v[pairs[l].0].sn == v[other[k].0].sn
    ensures PairBlend(v, w, other[k]) <= PairBlend(v, w, pairs[l])
  {
    var a, b := MatesIn(v, w, pairs, other[k]);
    l := FirstOf(v, pairs, v[other[k].0].sn, a);
    TopLevels(v, w, pairs, l, a);
    TopLevels(v, w, pairs, l, b);
    BlendGrows(v[other[k].0].level, w[other[k].1].level, v[pairs[l].0].level, w[pairs[l].1].level);
  }

  lemma BlendGrows(level: int, mate: int, higher: int, higherMate: int)
    requires level <= higher && mate <= higherMate
    ensures Blend(level, mate) <= Blend(higher, higherMate)
  {
  }

  lemma MatesIn(v: seq<Spell>, w: seq<Spell>, pairs: Pairs, p: (nat, nat)) returns (a: nat, b: nat)
    requires Matching(v, w, pairs) && p.0 < |v| && p.1 < |w| && v[p.0].level > 0 && w[p.1].level > 0
    ensures a < |pairs| && b < |pairs| && pairs[a].0 == p.0 && pairs[b].1 == p.1
    ensures w[p.1].sn == v[pairs[b].0].sn
  {
    a := Position(Firsts(pairs), p.0);
    b := Position(Seconds(pairs), p.1);
  }

  lemma TopLevels(v: seq<Spell>, w: seq<Spell>, pairs: Pairs, l: nat, a: nat)
    requires SameSpells(v, w, pairs) && Descending(v, w, pairs) && l < |pairs| && a < |pairs|
    requires v[pairs[l].0].sn == v[pairs[a].0].sn
    requires forall k :: 0 <= k < l ==> v[pairs[k].0].sn != v[pairs[a].0].sn
    ensures v[pairs[a].0].level <= v[pairs[l].0].level && w[pairs[a].1].level <= w[pairs[l].1].level
  {
  }

  lemma FirstOf(v: seq<Spell>, pairs: Pairs, s: int, a: nat) returns (l: nat)
    requires a < |pairs| && (forall k :: 0 <= k < |pairs| ==> pairs[k].0 < |v|) && v[pairs[a].0].sn == s
    ensures l <= a && v[pairs[l].0].sn == s
    ensures forall k :: 0 <= k < l ==> v[pairs[k].0].sn != s
  {
    l := 0;
    while v[pairs[l].0].sn != s
      invariant l <= a
      invariant forall k :: 0 <= k < l ==> v[pairs[k].0].sn != s
      decreases a - l
    {
      l := l + 1;
    }
  }

  function Total(v: seq<Spell>, w: seq<Spell>, pairs: Pairs): int
    requires InPlace(v, w, pairs)
  {
    if pairs == [] then 0
    else Total(v, w, pairs[..|pairs| - 1]) + PairBlend(v, w, pairs[|pairs| - 1])
  }

  function TwoThirds(): Spell -> int {
    (x: Spell) => 2 * x.level / 3
  }

  lemma {:induction false} TotalSplits(v: seq<Spell>, w: seq<Spell>, pairs: Pairs)
    requires InPlace(v, w, pairs)
    ensures Total(v, w, pairs) == Sum(v, Firsts(pairs), TwoThirds()) + Sum(w, Seconds(pairs), TwoThirds())
  {
    if pairs == [] {
    } else {
      var short := pairs[..|pairs| - 1];
      TotalSplits(v, w, short);
      SidesShort(pairs);
    }
  }

  /** What strongest-first does not change: every complete pairing has the same total, before the cap. */
  lemma TotalSame(v: seq<Spell>, w: seq<Spell>, pairs: Pairs, other: Pairs)
    requires Matching(v, w, pairs) && Matching(v, w, other)
    ensures Total(v, w, pairs) == Total(v, w, other)
  {
    TotalSplits(v, w, pairs);
    TotalSplits(v, w, other);
    MatchingPlaces(v, w, pairs);
    MatchingPlaces(v, w, other);
    SumUsedUp(v, Firsts(pairs), TwoThirds());
    SumUsedUp(v, Firsts(other), TwoThirds());
    SumUsedUp(w, Seconds(pairs), TwoThirds());
    SumUsedUp(w, Seconds(other), TwoThirds());
  }

  // ----- The k-th strongest with the k-th strongest

  predicate Descends(r: seq<int>) {
    forall k, l :: 0 <= k < l < |r| ==> r[k] >= r[l]
  }

  function Insert(level: int, r: seq<int>): seq<int> {
    if r == [] || level >= r[0] then [level] + r else [r[0]] + Insert(level, r[1..])
  }

  lemma {:induction false} InsertSorts(level: int, r: seq<int>)
    requires Descends(r)
    ensures Descends(Insert(level, r)) && multiset(Insert(level, r)) == multiset(r) + multiset{level}
  {
    if r == [] || level >= r[0] {
      assert multiset([level] + r) == multiset{level} + multiset(r);
    } else {
      InsertSorts(level, r[1..]);
      FirstOut(r);
      InsertBelow(r[0], level, r[1..], Insert(level, r[1..]));
    }
  }

  lemma InsertBelow(x: int, level: int, r: seq<int>, t: seq<int>)
    requires Descends(t) && multiset(t) == multiset(r) + multiset{level} && level < x && forall y :: y in multiset(r) ==> y <= x
    ensures Descends([x] + t) && multiset([x] + t) == multiset{x} + multiset(r) + multiset{level}
  {
    forall y | y in t ensures y <= x {
      assert y in multiset(t);
    }
    DescendsOn(x, t);
  }

  lemma DescendsOn(x: int, t: seq<int>)
    requires Descends(t) && forall y :: y in t ==> y <= x
    ensures Descends([x] + t) && multiset([x] + t) == multiset{x} + multiset(t)
  {
    forall k | 0 <= k < |t| ensures t[k] <= x {
      assert t[k] in t;
    }
  }

  lemma FirstOut(r: seq<int>)
    requires r != []
    ensures multiset(r) == multiset{r[0]} + multiset(r[1..])
    ensures Descends(r) ==> Descends(r[1..]) && forall x :: x in multiset(r) ==> x <= r[0]
  {
    assert r == [r[0]] + r[1..];
  }

  /** The levels of the spells of one number, strongest first. */
  function Ranked(v: seq<Spell>, s: int): (r: seq<int>)
    ensures Descends(r)
  {
    if v == [] then []
    else
      var rest := Ranked(v[..|v| - 1], s);
      if v[|v| - 1].level > 0 && v[|v| - 1].sn == s then
        InsertSorts(v[|v| - 1].level, rest);
        Insert(v[|v| - 1].level, rest)
      else rest
  }

  /** The pairs of one spell number, in the order in which they were made. */
  function OfSpell(v: seq<Spell>, pairs: Pairs, s: int): Pairs
    requires forall k :: 0 <= k < |pairs| ==> pairs[k].0 < |v|
  {
    if pairs == [] then []
    else
      var p := pairs[|pairs| - 1];
      OfSpell(v, pairs[..|pairs| - 1], s) + (if v[p.0].sn == s then [p] else [])
  }

  function Levels(v: seq<Spell>, taken: seq<nat>): (r: seq<int>)
    requires forall k :: 0 <= k < |taken| ==> taken[k] < |v|
    ensures |r| == |taken| && forall k :: 0 <= k < |r| ==> r[k] == v[taken[k]].level
  {
    seq(|taken|, k requires 0 <= k < |taken| => v[taken[k]].level)
  }

  function Counter(s: int, level: int): Spell -> int {
    (x: Spell) => if x.sn == s && x.level == level then 1 else 0
  }

  lemma {:induction false} RankedCount(v: seq<Spell>, s: int, level: int)
    ensures multiset(Ranked(v, s))[level] == SumAll(v, Counter(s, level))
  {
    if v == [] {
    } else {
      var rest, x := Ranked(v[..|v| - 1], s), v[|v| - 1];
      RankedCount(v[..|v| - 1], s, level);
      if x.level > 0 && x.sn == s {
        InsertSorts(x.level, rest);
        assert (multiset(rest) + multiset{x.level})[level] == multiset(rest)[level] + Counter(s, level)(x);
      }
    }
  }

  lemma {:induction false} OfSpellIn(v: seq<Spell>, pairs: Pairs, s: int)
    requires forall k :: 0 <= k < |pairs| ==> pairs[k].0 < |v|
    ensures forall p :: p in OfSpell(v, pairs, s) ==> p in pairs && p.0 < |v| && v[p.0].sn == s
  {
    if pairs == [] {
    } else {
      var short := pairs[..|pairs| - 1];
      OfSpellIn(v, short, s);
      forall p | p in OfSpell(v, pairs, s) ensures p in pairs && p.0 < |v| && v[p.0].sn == s {
        assert p in OfSpell(v, short, s) || p == pairs[|pairs| - 1];
        assert p in short ==> p in pairs;
      }
    }
  }

  lemma DescendsMore(r: seq<int>, x: int)
    requires Descends(r) && forall k :: 0 <= k < |r| ==> r[k] >= x
    ensures Descends(r + [x])
  {
  }

  lemma OfSpellInPlace(v: seq<Spell>, w: seq<Spell>, pairs: Pairs, s: int)
    requires InPlace(v, w, pairs)
    ensures InPlace(v, w, OfSpell(v, pairs, s))
  {
    var q := OfSpell(v, pairs, s);
    OfSpellIn(v, pairs, s);
    forall k | 0 <= k < |q| ensures q[k].0 < |v| && q[k].1 < |w| {
      assert q[k] in q;
      var n :| 0 <= n < |pairs| && pairs[n] == q[k];
    }
  }

  /** The earlier pairs of a spell are no weaker than the last. */
  lemma OfSpellAbove(v: seq<Spell>, w: seq<Spell>, pairs: Pairs, s: int, k: nat)
    requires pairs != [] && InPlace(v, w, pairs) && Descending(v, w, pairs)
    requires k < |OfSpell(v, pairs[..|pairs| - 1], s)| && v[pairs[|pairs| - 1].0].sn == s
    ensures var p, q := pairs[|pairs| - 1], OfSpell(v, pairs[..|pairs| - 1], s)[k];
      q.0 < |v| && q.1 < |w| && v[q.0].level >= v[p.0].level && w[q.1].level >= w[p.1].level
  {
    var short := pairs[..|pairs| - 1];
    OfSpellIn(v, short, s);
    assert OfSpell(v, short, s)[k] in OfSpell(v, short, s);
    var n :| 0 <= n < |short| && short[n] == OfSpell(v, short, s)[k];
    assert pairs[n] == short[n];
  }

  lemma {:induction false} OfSpellDescends(v: seq<Spell>, w: seq<Spell>, pairs: Pairs, s: int)
    requires InPlace(v, w, pairs) && Descending(v, w, pairs) && InPlace(v, w, OfSpell(v, pairs, s))
    ensures Descends(Levels(v, Firsts(OfSpell(v, pairs, s)))) && Descends(Levels(w, Seconds(OfSpell(v, pairs, s))))
  {
    if pairs == [] {
    } else {
      var short, p := pairs[..|pairs| - 1], pairs[|pairs| - 1];
      var q0 := OfSpell(v, short, s);
      OfSpellInPlace(v, w, short, s);
      OfSpellDescends(v, w, short, s);
      if v[p.0].sn == s {
        forall k | 0 <= k < |q0| ensures v[q0[k].0].level >= v[p.0].level && w[q0[k].1].level >= w[p.1].level {
          OfSpellAbove(v, w, pairs, s, k);
        }
        LevelsMore(v, w, q0, p);
        DescendsMore(Levels(v, Firsts(q0)), v[p.0].level);
        DescendsMore(Levels(w, Seconds(q0)), w[p.1].level);
      } else {
        assert OfSpell(v, pairs, s) == q0;
      }
    }
  }

  lemma SidesShort(pairs: Pairs)
    requires pairs != []
    ensures Firsts(pairs)[..|pairs| - 1] == Firsts(pairs[..|pairs| - 1])
    ensures Seconds(pairs)[..|pairs| - 1] == Seconds(pairs[..|pairs| - 1])
  {
  }

  lemma LevelsMore(v: seq<Spell>, w: seq<Spell>, q: Pairs, p: (nat, nat))
    requires InPlace(v, w, q) && p.0 < |v| && p.1 < |w| && InPlace(v, w, q + [p])
    ensures Levels(v, Firsts(q + [p])) == Levels(v, Firsts(q)) + [v[p.0].level]
    ensures Levels(w, Seconds(q + [p])) == Levels(w, Seconds(q)) + [w[p.1].level]
  {
  }

  lemma CountMore(r: seq<int>, x: int, level: int)
    ensures multiset(r + [x])[level] == multiset(r)[level] + if x == level then 1 else 0
  {
  }

  /** Counting a level among spells of one number. */
  lemma {:induction false} LevelsCount(v: seq<Spell>, taken: seq<nat>, s: int, level: int)
    requires forall k :: 0 <= k < |taken| ==> taken[k] < |v| && v[taken[k]].sn == s
    ensures multiset(Levels(v, taken))[level] == Sum(v, taken, Counter(s, level))
  {
    if taken == [] {
    } else {
      var short, x := taken[..|taken| - 1], v[taken[|taken| - 1]].level;
      LevelsCount(v, short, s, level);
      assert Levels(v, taken) == Levels(v, short) + [x];
      CountMore(Levels(v, short), x, level);
    }
  }

  lemma SumLast(v: seq<Spell>, taken: seq<nat>, i: nat, f: Spell -> int)
    requires i < |v| && forall k :: 0 <= k < |taken| ==> taken[k] < |v|
    ensures Sum(v, taken + [i], f) == Sum(v, taken, f) + f(v[i])
  {
    assert (taken + [i])[..|taken|] == taken;
  }

  lemma SumsMore(v: seq<Spell>, w: seq<Spell>, pairs: Pairs, i: nat, j: nat, s: int, level: int)
    requires InPlace(v, w, pairs) && i < |v| && j < |w|
    ensures var f, more := Counter(s, level), pairs + [(i, j)];
      && InPlace(v, w, more)
      && Sum(v, Firsts(more), f) == Sum(v, Firsts(pairs), f) + f(v[i])
      && Sum(w, Seconds(more), f) == Sum(w, Seconds(pairs), f) + f(w[j])
  {
    SidesMore(pairs, i, j);
    SumLast(v, Firsts(pairs), i, Counter(s, level));
    SumLast(w, Seconds(pairs), j, Counter(s, level));
  }

  lemma OfSpellSumsStep(v: seq<Spell>, w: seq<Spell>, short: Pairs, q: Pairs, i: nat, j: nat, s: int, level: int)
    requires InPlace(v, w, short) && InPlace(v, w, q) && i < |v| && j < |w| && v[i].sn == w[j].sn
    requires Sum(v, Firsts(q), Counter(s, level)) == Sum(v, Firsts(short), Counter(s, level))
    requires Sum(w, Seconds(q), Counter(s, level)) == Sum(w, Seconds(short), Counter(s, level))
    ensures var more, pairs := (if v[i].sn == s then q + [(i, j)] else q), short + [(i, j)];
      && InPlace(v, w, more) && InPlace(v, w, pairs)
      && Sum(v, Firsts(more), Counter(s, level)) == Sum(v, Firsts(pairs), Counter(s, level))
      && Sum(w, Seconds(more), Counter(s, level)) == Sum(w, Seconds(pairs), Counter(s, level))
  {
    SumsMore(v, w, short, i, j, s, level);
    SumsMore(v, w, q, i, j, s, level);
  }

  predicate SameNumbers(v: seq<Spell>, w: seq<Spell>, pairs: Pairs)
    requires InPlace(v, w, pairs)
  {
    forall k :: 0 <= k < |pairs| ==> v[pairs[k].0].sn == w[pairs[k].1].sn
  }

  lemma OfSpellLast(v: seq<Spell>, w: seq<Spell>, pairs: Pairs, s: int)
    requires pairs != [] && InPlace(v, w, pairs) && SameNumbers(v, w, pairs)
    ensures var short, p := pairs[..|pairs| - 1], pairs[|pairs| - 1];
      && InPlace(v, w, short) && SameNumbers(v, w, short)
      && p.0 < |v| && p.1 < |w| && v[p.0].sn == w[p.1].sn && pairs == short + [(p.0, p.1)]
      && OfSpell(v, pairs, s) == if v[p.0].sn == s then OfSpell(v, short, s) + [(p.0, p.1)] else OfSpell(v, short, s)
  {
  }

  /** The pairs of other numbers count for nothing. */
  lemma {:induction false} OfSpellSums(v: seq<Spell>, w: seq<Spell>, pairs: Pairs, s: int, level: int)
    requires InPlace(v, w, pairs) && SameNumbers(v, w, pairs)
    ensures InPlace(v, w, OfSpell(v, pairs, s))
    ensures Sum(v, Firsts(OfSpell(v, pairs, s)), Counter(s, level)) == Sum(v, Firsts(pairs), Counter(s, level))
    ensures Sum(w, Seconds(OfSpell(v, pairs, s)), Counter(s, level)) == Sum(w, Seconds(pairs), Counter(s, level))
  {
    if pairs == [] {
      assert OfSpell(v, pairs, s) == [];
    } else {
      var short, p := pairs[..|pairs| - 1], pairs[|pairs| - 1];
      OfSpellLast(v, w, pairs, s);
      OfSpellSums(v, w, short, s, level);
      OfSpellSumsStep(v, w, short, OfSpell(v, short, s), p.0, p.1, s, level);
    }
  }

  lemma OfSpellCount(v: seq<Spell>, w: seq<Spell>, pairs: Pairs, s: int, level: int)
    requires SameSpells(v, w, pairs) && InPlace(v, w, OfSpell(v, pairs, s))
    ensures var q := OfSpell(v, pairs, s);
      && multiset(Levels(v, Firsts(q)))[level] == Sum(v, Firsts(pairs), Counter(s, level))
      && multiset(Levels(w, Seconds(q)))[level] == Sum(w, Seconds(pairs), Counter(s, level))
  {
    var q := OfSpell(v, pairs, s);
    OfSpellIn(v, pairs, s);
    OfSpellSums(v, w, pairs, s, level);
    forall k | 0 <= k < |q| ensures v[q[k].0].sn == s && w[q[k].1].sn == s {
      assert q[k] in q;
      var n :| 0 <= n < |pairs| && pairs[n] == q[k];
    }
    LevelsCount(v, Firsts(q), s, level);
    LevelsCount(w, Seconds(q), s, level);
  }

  lemma SameTop(r: seq<int>, t: seq<int>)
    requires r != [] && Descends(r) && Descends(t) && multiset(r) == multiset(t)
    ensures t != [] && r[0] == t[0]
  {
    assert r[0] in multiset(t) && |multiset(t)| == |t|;
    assert t[0] in multiset(r);
    FirstOut(r);
    FirstOut(t);
  }

  lemma SameTail(r: seq<int>, t: seq<int>)
    requires r != [] && t != [] && r[0] == t[0] && multiset(r) == multiset(t)
    ensures multiset(r[1..]) == multiset(t[1..])
  {
    FirstOut(r);
    FirstOut(t);
    assert multiset(r[1..]) == multiset(r) - multiset{r[0]};
  }

  lemma {:induction false} DescendsOnce(r: seq<int>, t: seq<int>)
    requires Descends(r) && Descends(t) && multiset(r) == multiset(t)
    ensures r == t
  {
    if r == [] {
      assert |multiset(t)| == 0;
    } else {
      SameTop(r, t);
      SameTail(r, t);
      DescendsOnce(r[1..], t[1..]);
      assert r == [r[0]] + r[1..] && t == [t[0]] + t[1..];
    }
  }

  /** The pairs of a spell use exactly the levels that the two items have of it. */
  lemma SameLevels(v: seq<Spell>, w: seq<Spell>, pairs: Pairs, s: int)
    requires Matching(v, w, pairs) && InPlace(v, w, OfSpell(v, pairs, s))
    ensures multiset(Levels(v, Firsts(OfSpell(v, pairs, s)))) == multiset(Ranked(v, s))
    ensures multiset(Levels(w, Seconds(OfSpell(v, pairs, s)))) == multiset(Ranked(w, s))
  {
    var q := OfSpell(v, pairs, s);
    MatchingPlaces(v, w, pairs);
    forall level: int
      ensures multiset(Levels(v, Firsts(q)))[level] == multiset(Ranked(v, s))[level]
      ensures multiset(Levels(w, Seconds(q)))[level] == multiset(Ranked(w, s))[level]
    {
      OfSpellCount(v, w, pairs, s, level);
      SumUsedUp(v, Firsts(pairs), Counter(s, level));
      SumUsedUp(w, Seconds(pairs), Counter(s, level));
      RankedCount(v, s, level);
      RankedCount(w, s, level);
    }
  }

  /** For every spell number, strongest-first pairs the k-th strongest of one item with the k-th of the other. */
  lemma KthWithKth(v: seq<Spell>, w: seq<Spell>, pairs: Pairs, s: int)
    requires Matching(v, w, pairs) && Descending(v, w, pairs)
    ensures var q := OfSpell(v, pairs, s);
      && |q| == |Ranked(v, s)| == |Ranked(w, s)| && InPlace(v, w, q)
      && forall k :: 0 <= k < |q| ==>
           q[k] in pairs && v[q[k].0].level == Ranked(v, s)[k] && w[q[k].1].level == Ranked(w, s)[k]
  {
    var q := OfSpell(v, pairs, s);
    OfSpellIn(v, pairs, s);
    OfSpellInPlace(v, w, pairs, s);
    OfSpellDescends(v, w, pairs, s);
    SameLevels(v, w, pairs, s);
    DescendsOnce(Levels(v, Firsts(q)), Ranked(v, s));
    DescendsOnce(Levels(w, Seconds(q)), Ranked(w, s));
    forall k | 0 <= k < |q|
      ensures q[k] in pairs && v[q[k].0].level == Ranked(v, s)[k] && w[q[k].1].level == Ranked(w, s)[k]
    {
      assert q[k] in q && Levels(v, Firsts(q))[k] == v[q[k].0].level && Levels(w, Seconds(q))[k] == w[q[k].1].level;
    }
  }

  // ----- The command

  datatype ItemType = Scroll | Potion | OtherType

  /** OBJ_DATA: its type, the charges of a potion, its spells, and whether it has been extracted. */
  class Item {
    const itemType: ItemType
    const spells: array<Spell>
    var amount: int
    var extracted: bool

    constructor (itemType: ItemType, spells: array<Spell>, amount: int)
      ensures this.itemType == itemType && this.spells == spells && this.amount == amount && !extracted
    {
      this.itemType, this.spells, this.amount, extracted := itemType, spells, amount, false;
    }
  }

  function Min(a: int, b: int): int {
    if a < b then a else b
  }

  function Plain(v: seq<Spell>): (r: seq<Spell>)
    ensures |r| == |v| && Cleared(r) && forall i :: 0 <= i < |v| ==> r[i] == v[i].(repop := 0)
  {
    seq(|v|, i requires 0 <= i < |v| => v[i].(repop := 0))
  }

  method ClearMarks(a: array<Spell>)
    modifies a
    ensures a[..] == Plain(old(a[..]))
  {
    for i := 0 to a.Length
      invariant forall k :: 0 <= k < a.Length ==> a[k] == if k < i then old(a[k]).(repop := 0) else old(a[k])
    {
      a[i] := a[i].(repop := 0);
    }
  }

  /**
   The other branch, for a near miss. Its test reads "found", so that it gives up on the first spell that does
   have a mate; it goes through only where no spell of the first item has one, and then it has paired nothing.
   */
  method PairInOrder(a: array<Spell>, b: array<Spell>) returns (ok: bool)
    requires a != b && Cleared(a[..]) && Cleared(b[..])
    modifies a, b
    ensures ok <==> forall i, j :: 0 <= i < a.Length && 0 <= j < b.Length && old(a[i].level) > 0 && old(b[j].level) > 0 ==>
      old(a[i].sn) != old(b[j].sn)
    ensures ok ==> a[..] == old(a[..]) && b[..] == old(b[..])
    ensures Plain(a[..]) == old(a[..]) && Plain(b[..]) == old(b[..])
  {
    for i := 0 to a.Length
      invariant a[..] == old(a[..]) && b[..] == old(b[..])
      invariant forall k, j :: 0 <= k < i && 0 <= j < b.Length && a[k].level > 0 && b[j].level > 0 ==> a[k].sn != b[j].sn
    {
      if a[i].level >= 1 {
        for j := 0 to b.Length
          invariant a[..] == old(a[..]) && b[..] == old(b[..])
          invariant forall k :: 0 <= k < j && b[k].level > 0 ==> a[i].sn != b[k].sn
        {
          if a[i].sn == b[j].sn && b[j].level > 0 && b[j].repop == 0 {
            Mark(a, b, i, j);
            return false;
          }
        }
      }
    }
    ok := true;
  }

  /** The last loop before the merge: is a spell of the second item left unpaired? */
  method AnyLeft(b: array<Spell>) returns (left: Option<nat>)
    ensures left.None? ==> forall j :: 0 <= j < b.Length ==> !Free(b[j])
    ensures left.Some? ==> left.value < b.Length && Free(b[left.value])
  {
    for j := 0 to b.Length
      invariant forall k :: 0 <= k < j ==> !Free(b[k])
    {
      if Free(b[j]) {
        return Some(j);
      }
    }
    left := None;
  }

  /** The pairing and the check for leftovers, strongest first: it goes through exactly for the same spells. */
  method MatchStrongest(a: array<Spell>, b: array<Spell>) returns (ok: bool, ghost pairs: Pairs)
    requires a != b && Cleared(a[..]) && Cleared(b[..])
    modifies a, b
    ensures ok <==> Magic(old(a[..])) == Magic(old(b[..]))
    ensures Midway(old(a[..]), old(b[..]), a[..], b[..], pairs)
    ensures ok ==> Matching(old(a[..]), old(b[..]), pairs)
  {
    ghost var v, w := a[..], b[..];
    ok, pairs := PairStrongest(a, b);
    if ok {
      var left := AnyLeft(b);
      if left.Some? {
        LeftOver(v, w, a[..], b[..], left.value);
        ok := false;
      } else {
        AllMatched(v, w, a[..], b[..], pairs);
      }
    }
  }

  /** The same in list order: it goes through exactly when the second item has no spell of positive level. */
  method MatchInOrder(a: array<Spell>, b: array<Spell>) returns (ok: bool)
    requires a != b && Cleared(a[..]) && Cleared(b[..])
    modifies a, b
    ensures ok <==> Magic(old(b[..])) == multiset{}
    ensures ok ==> a[..] == old(a[..])
    ensures Plain(a[..]) == old(a[..]) && Plain(b[..]) == old(b[..])
  {
    ghost var w := b[..];
    ClearedUnpaired(w);
    ok := PairInOrder(a, b);
    if ok {
      var left := AnyLeft(b);
      if left.Some? {
        UnpairedHas(w, b[left.value].sn);
        ok := false;
      } else {
        NothingFree(w);
      }
    } else {
      SomeMagic(w);
    }
  }

  lemma SomeMagic(w: seq<Spell>)
    requires Cleared(w) && exists j :: 0 <= j < |w| && w[j].level > 0
    ensures Magic(w) != multiset{}
  {
    ClearedUnpaired(w);
    var j :| 0 <= j < |w| && w[j].level > 0;
    UnpairedHas(w, w[j].sn);
  }

  /** The blended level under the cap of twice the character's level. */
  function Merged(x: Spell, totLevel: int): Spell {
    if x.level > 0 then x.(level := Min(Blend(x.level, x.repop), totLevel * 2)) else x
  }

  method BlendLevels(a: array<Spell>, totLevel: int)
    modifies a
    ensures forall i :: 0 <= i < a.Length ==> a[i] == Merged(old(a[i]), totLevel)
  {
    for i := 0 to a.Length
      invariant forall k :: 0 <= k < a.Length ==> a[k] == if k < i then Merged(old(a[k]), totLevel) else old(a[k])
    {
      if a[i].level > 0 {
        var blended := 2 * a[i].level / 3 + 2 * a[i].repop / 3;
        a[i] := a[i].(level := Min(blended, totLevel * 2));
      }
    }
  }

  datatype Outcome = Unskilled | WrongType | SameItem | NoMagic | DifferentSpells | Destroyed | Combined

  /** The roll misses the skill by seven or less: the second branch. By more, both items will be lost. */
  predicate NearMiss(chance: int, roll: int) {
    chance < roll <= chance + 7
  }

  /** The same spells; after a near miss, no spell of positive level in the second item. */
  predicate Matches(nearMiss: bool, v: seq<Spell>, w: seq<Spell>) {
    if nearMiss then Magic(w) == multiset{} else Magic(v) == Magic(w)
  }

  /** Which way the command ends, from what it was given alone. */
  function Verdict(chance: int, roll: int, first: ItemType, second: ItemType, same: bool,
      v: seq<Spell>, w: seq<Spell>): Outcome
  {
    if chance < 1 then Unskilled
    else if first == OtherType || second != first then WrongType
    else if same then SameItem
    else if v == [] || w == [] then NoMagic
    else if !Matches(NearMiss(chance, roll), v, w) then DifferentSpells
    else if roll > chance + 7 then Destroyed
    else Combined
  }

  /** Two items with one spell each, the same: a near miss still calls them different. */
  lemma NearMissRefusesTwins()
    ensures var v := [Spell(1, 10, 0)];
      Verdict(75, 80, Scroll, Scroll, false, v, v) == DifferentSpells
  {
    assert Magic([Spell(1, 10, 0)])[1] == 1;
  }

  /** Exactly when a near miss does what the skill promises of it: merge items which have the same spells. */
  lemma NearMissMerges(chance: int, roll: int, itemType: ItemType, v: seq<Spell>, w: seq<Spell>)
    requires chance >= 1 && NearMiss(chance, roll) && itemType != OtherType && v != [] && w != []
    ensures (Verdict(chance, roll, itemType, itemType, false, v, w) == Combined <==> Magic(v) == Magic(w)) <==>
      ((forall i :: 0 <= i < |v| ==> v[i].level <= 0) || (
        (exists j :: 0 <= j < |w| && w[j].level > 0) && Magic(v) != Magic(w)))
  {
    Magicless(v);
    Magicless(w);
  }

  lemma {:induction false} Magicless(v: seq<Spell>)
    ensures Magic(v) == multiset{} <==> forall i :: 0 <= i < |v| ==> v[i].level <= 0
  {
    if v == [] {
    } else {
      Magicless(v[..|v| - 1]);
      assert Magic(v)[v[|v| - 1].sn] >= if v[|v| - 1].level > 0 then 1 else 0;
      assert forall i :: 0 <= i < |v| - 1 ==> v[..|v| - 1][i] == v[i];
    }
  }

  /** The levels after a merge of spells paired one-to-one. */
  ghost predicate Fused(v: seq<Spell>, w: seq<Spell>, after: seq<Spell>, pairs: Pairs, totLevel: int) {
    && Matching(v, w, pairs) && Descending(v, w, pairs) && |after| == |v|
    && (forall k :: 0 <= k < |pairs| ==> after[pairs[k].0].level == Min(PairBlend(v, w, pairs[k]), totLevel * 2))
    && (forall i :: 0 <= i < |v| ==> after[i].sn == v[i].sn)
    && (forall i :: 0 <= i < |v| && v[i].level <= 0 ==> after[i].level == v[i].level)
  }

  /** The levels after a merge in which nothing was paired: two thirds of what they were. */
  predicate Weakened(v: seq<Spell>, after: seq<Spell>, totLevel: int) {
    && |after| == |v|
    && (forall i :: 0 <= i < |v| && v[i].level > 0 ==> after[i].level == Min(Blend(v[i].level, 0), totLevel * 2))
    && (forall i :: 0 <= i < |v| ==> after[i].sn == v[i].sn)
    && (forall i :: 0 <= i < |v| && v[i].level <= 0 ==> after[i].level == v[i].level)
  }

  lemma MergedFuses(v: seq<Spell>, w: seq<Spell>, x: seq<Spell>, y: seq<Spell>, after: seq<Spell>, pairs: Pairs,
      totLevel: int)
    requires Midway(v, w, x, y, pairs) && Matching(v, w, pairs) && |after| == |v|
    requires forall i :: 0 <= i < |x| ==> after[i] == Merged(x[i], totLevel)
    ensures Fused(v, w, after, pairs, totLevel)
  {
    forall i | 0 <= i < |v|
      ensures after[i].sn == v[i].sn
      ensures v[i].level <= 0 ==> after[i].level == v[i].level
    {
      if i in Firsts(pairs) {
        var k := Position(Firsts(pairs), i);
      }
    }
  }

  lemma MarksOnly(v: seq<Spell>, w: seq<Spell>, x: seq<Spell>, y: seq<Spell>, pairs: Pairs)
    requires Midway(v, w, x, y, pairs) && Cleared(v) && Cleared(w)
    ensures Plain(x) == v && Plain(y) == w
  {
    forall i | 0 <= i < |v| ensures Plain(x)[i] == v[i] {
      if i in Firsts(pairs) {
        var k := Position(Firsts(pairs), i);
      }
    }
    forall j | 0 <= j < |w| ensures Plain(y)[j] == w[j] {
      if j in Seconds(pairs) {
        var k := Position(Seconds(pairs), j);
      }
    }
  }

  /** Marks as the pairing left them. */
  ghost predicate Paired(nearMiss: bool, v: seq<Spell>, w: seq<Spell>, x: seq<Spell>, y: seq<Spell>, pairs: Pairs) {
    if nearMiss then x == v && Cleared(v) else Midway(v, w, x, y, pairs) && Matching(v, w, pairs)
  }

  ghost predicate Blended(nearMiss: bool, v: seq<Spell>, w: seq<Spell>, after: seq<Spell>, pairs: Pairs, totLevel: int) {
    if nearMiss then Weakened(v, after, totLevel) else Fused(v, w, after, pairs, totLevel)
  }

  /** From clearing the marks to the check for leftovers. */
  method MatchSpells(a: array<Spell>, b: array<Spell>, nearMiss: bool) returns (ok: bool, ghost pairs: Pairs)
    requires a != b
    modifies a, b
    ensures ok <==> Matches(nearMiss, Plain(old(a[..])), Plain(old(b[..])))
    ensures Plain(a[..]) == Plain(old(a[..])) && Plain(b[..]) == Plain(old(b[..]))
    ensures ok ==> Paired(nearMiss, Plain(old(a[..])), Plain(old(b[..])), a[..], b[..], pairs)
  {
    pairs := [];
    ClearMarks(a);
    ClearMarks(b);
    ghost var v, w := a[..], b[..];
    if nearMiss {
      ok := MatchInOrder(a, b);
    } else {
      ok, pairs := MatchStrongest(a, b);
      MarksOnly(v, w, a[..], b[..], pairs);
    }
  }

  /** The merge of the levels, for whichever branch was taken. */
  method Merge(a: array<Spell>, totLevel: int,
      ghost nearMiss: bool, ghost v: seq<Spell>, ghost w: seq<Spell>, ghost y: seq<Spell>, ghost pairs: Pairs)
    requires Paired(nearMiss, v, w, a[..], y, pairs)
    modifies a
    ensures Blended(nearMiss, v, w, a[..], pairs, totLevel)
  {
    ghost var x := a[..];
    BlendLevels(a, totLevel);
    if !nearMiss {
      MergedFuses(v, w, x, y, a[..], pairs, totLevel);
    }
  }

  /** do_combine on two items found, with the skill, the roll and the character's level given. */
  method DoCombine(chance: int, roll: int, totLevel: int, obj1: Item, obj2: Item)
    returns (outcome: Outcome, ghost pairs: Pairs)
    requires obj1 != obj2 ==> obj1.spells != obj2.spells
    modifies obj1`amount, obj1`extracted, obj2`extracted, obj1.spells, obj2.spells
    ensures var v, w := Plain(old(obj1.spells[..])), Plain(old(obj2.spells[..]));
      && outcome == Verdict(chance, roll, obj1.itemType, obj2.itemType, obj1 == obj2, v, w)
      && (outcome != Combined ==> Plain(obj1.spells[..]) == v && Plain(obj2.spells[..]) == w)
      && (outcome == Combined ==> Blended(NearMiss(chance, roll), v, w, obj1.spells[..], pairs, totLevel))
    ensures obj1.amount == if outcome in {Destroyed, Combined} && obj1.itemType == Potion
      then Min(2 + old(obj1.amount) + old(obj2.amount), 3) else old(obj1.amount)
    ensures obj1.extracted == (old(obj1.extracted) || outcome == Destroyed)
    ensures obj2.extracted == (old(obj2.extracted) || outcome in {Destroyed, Combined})
  {
    pairs := [];
    if chance < 1 { return Unskilled, pairs; }
    if obj1.itemType == OtherType || obj2.itemType != obj1.itemType { return WrongType, pairs; }
    if obj1 == obj2 { return SameItem, pairs; }
    if obj1.spells.Length == 0 || obj2.spells.Length == 0 { return NoMagic, pairs; }
    ghost var v, w := Plain(obj1.spells[..]), Plain(obj2.spells[..]);
    var ok;
    ok, pairs := MatchSpells(obj1.spells, obj2.spells, NearMiss(chance, roll));
    if !ok { return DifferentSpells, pairs; }
    if obj1.itemType == Potion {
      obj1.amount := Min(2 + obj1.amount + obj2.amount, 3);
    }
    if roll > chance + 7 {
      obj1.extracted := true;
      obj2.extracted := true;
      return Destroyed, pairs;
    }
    Merge(obj1.spells, totLevel, NearMiss(chance, roll), v, w, obj2.spells[..], pairs);
    obj2.extracted := true;
    outcome := Combined;
  }
}
