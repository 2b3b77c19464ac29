/** What combining does to the two items, told from the skill, the roll and the spells. */
module CombineEffects {
  import opened Lists
  import opened Combine

  lemma {:induction false} MagicOfPlain(v: seq<Spell>)
    ensures Magic(Plain(v)) == Magic(v)
  {
    if v == [] {
    } else {
      MagicOfPlain(v[..|v| - 1]);
      assert Plain(v)[..|v| - 1] == Plain(v[..|v| - 1]);
    }
  }

  lemma {:induction false} RankedOfPlain(v: seq<Spell>, s: int)
    ensures Ranked(Plain(v), s) == Ranked(v, s)
  {
    if v == [] {
    } else {
      RankedOfPlain(v[..|v| - 1], s);
      assert Plain(v)[..|v| - 1] == Plain(v[..|v| - 1]);
    }
  }

  /** Two thirds of each, added up, and no more than twice the character's level. */
  function Mixed(x: int, y: int, totLevel: int): int {
    if 2 * x / 3 + 2 * y / 3 < totLevel * 2 then 2 * x / 3 + 2 * y / 3 else totLevel * 2
  }

  /**
   The k-th strongest spell of the number s in v, for every k, has become the mix of its own level and that of the
   k-th strongest in w; `at` says where it stands.
   */
  ghost predicate MixedAt(v: seq<Spell>, w: seq<Spell>, after: seq<Spell>, s: int, totLevel: int, at: seq<nat>) {
    && |at| == |Ranked(v, s)| == |Ranked(w, s)| && NoDup(at) && |after| == |v|
    && forall k :: 0 <= k < |at| ==>
         && at[k] < |v| && v[at[k]].sn == after[at[k]].sn == s && v[at[k]].level == Ranked(v, s)[k]
         && after[at[k]].level == Mixed(Ranked(v, s)[k], Ranked(w, s)[k], totLevel)
  }

  ghost predicate MixedFor(v: seq<Spell>, w: seq<Spell>, after: seq<Spell>, s: int, totLevel: int) {
    exists at :: MixedAt(v, w, after, s, totLevel, at)
  }

  ghost predicate MixedAll(v: seq<Spell>, w: seq<Spell>, after: seq<Spell>, totLevel: int) {
    && |after| == |v|
    && (forall s :: MixedFor(v, w, after, s, totLevel))
    && (forall i :: 0 <= i < |v| && v[i].level <= 0 ==> after[i].level == v[i].level && after[i].sn == v[i].sn)
  }

  /** No spell of the first item is taken twice. */
  lemma {:induction false} OfSpellOnce(v: seq<Spell>, w: seq<Spell>, pairs: Pairs, s: int)
    requires SameSpells(v, w, pairs)
    ensures NoDup(Firsts(OfSpell(v, pairs, s)))
  {
    if pairs == [] {
    } else {
      var init, p := pairs[..|pairs| - 1], pairs[|pairs| - 1];
      OfSpellOnce(v, w, init, s);
      OfSpellIn(v, init, s);
      var q := OfSpell(v, init, s);
      forall k | 0 <= k < |q|
        ensures q[k].0 != p.0
      {
        assert q[k] in q && q[k] in init;
      }
    }
  }

  /** One pair of the merge. */
  lemma PairMixed(v: seq<Spell>, w: seq<Spell>, after: seq<Spell>, pairs: Pairs, totLevel: int, p: (nat, nat))
    requires Fused(v, w, after, pairs, totLevel) && p in pairs
    ensures p.0 < |v| && p.1 < |w| && after[p.0].sn == v[p.0].sn
    ensures after[p.0].level == Mixed(v[p.0].level, w[p.1].level, totLevel)
  {
    var j :| 0 <= j < |pairs| && pairs[j] == p;
    assert after[pairs[j].0].level == Min(PairBlend(v, w, pairs[j]), totLevel * 2);
  }

  lemma FusedIsMixed(v: seq<Spell>, w: seq<Spell>, after: seq<Spell>, pairs: Pairs, totLevel: int, s: int)
    requires Fused(v, w, after, pairs, totLevel)
    ensures MixedFor(v, w, after, s, totLevel)
  {
    var q := OfSpell(v, pairs, s);
    KthWithKth(v, w, pairs, s);
    OfSpellIn(v, pairs, s);
    OfSpellOnce(v, w, pairs, s);
    forall k | 0 <= k < |q|
      ensures q[k].0 < |v| && q[k].1 < |w| && v[q[k].0].sn == after[q[k].0].sn == s
      ensures after[q[k].0].level == Mixed(v[q[k].0].level, w[q[k].1].level, totLevel)
    {
      assert q[k] in q;
      PairMixed(v, w, after, pairs, totLevel, q[k]);
    }
    RankedMixed(v, w, after, s, totLevel, q);
  }

  lemma RankedMixed(v: seq<Spell>, w: seq<Spell>, after: seq<Spell>, s: int, totLevel: int, q: Pairs)
    requires |q| == |Ranked(v, s)| == |Ranked(w, s)| && NoDup(Firsts(q)) && InPlace(v, w, q) && |after| == |v|
    requires forall k :: 0 <= k < |q| ==> v[q[k].0].level == Ranked(v, s)[k] && w[q[k].1].level == Ranked(w, s)[k]
    requires forall k :: 0 <= k < |q| ==> v[q[k].0].sn == after[q[k].0].sn == s
    requires forall k :: 0 <= k < |q| ==> after[q[k].0].level == Mixed(v[q[k].0].level, w[q[k].1].level, totLevel)
    ensures MixedFor(v, w, after, s, totLevel)
  {
    assert MixedAt(v, w, after, s, totLevel, Firsts(q));
  }

  lemma MixedOfPlain(v: seq<Spell>, w: seq<Spell>, after: seq<Spell>, totLevel: int)
    requires MixedAll(Plain(v), Plain(w), after, totLevel)
    ensures MixedAll(v, w, after, totLevel)
  {
    forall s
      ensures MixedFor(v, w, after, s, totLevel)
    {
      assert MixedFor(Plain(v), Plain(w), after, s, totLevel);
      var at :| MixedAt(Plain(v), Plain(w), after, s, totLevel, at);
      RankedOfPlain(v, s);
      RankedOfPlain(w, s);
      assert MixedAt(v, w, after, s, totLevel, at);
    }
  }

  /** The spells of an item but for the marks of the pairing. */
  predicate SameButMarks(v: seq<Spell>, w: seq<Spell>) {
    |v| == |w| && forall i :: 0 <= i < |v| ==> v[i].sn == w[i].sn && v[i].level == w[i].level
  }

  lemma PlainIsSame(v: seq<Spell>, w: seq<Spell>)
    requires Plain(v) == Plain(w)
    ensures SameButMarks(v, w)
  {
    forall i | 0 <= i < |v|
      ensures v[i].sn == w[i].sn && v[i].level == w[i].level
    {
      assert Plain(v)[i] == Plain(w)[i];
    }
  }

  /**
   Two different scrolls, or potions, with the same spells, and some skill. A roll within the skill keeps the first
   item, with its k-th strongest spells mixed with the second's, and uses up the second; one that misses by more
   than seven destroys both.
   */
  method CombineTwins(chance: int, roll: int, totLevel: int, obj1: Item, obj2: Item)
    requires obj1 != obj2 && obj1.spells != obj2.spells && obj1.itemType == obj2.itemType && obj1.itemType != OtherType
    requires obj1.spells.Length > 0 && obj2.spells.Length > 0 && Magic(obj1.spells[..]) == Magic(obj2.spells[..])
    requires chance >= 1 && (roll <= chance || roll > chance + 7)
    modifies obj1`amount, obj1`extracted, obj2`extracted, obj1.spells, obj2.spells
    ensures roll <= chance ==>
      && obj1.extracted == old(obj1.extracted) && obj2.extracted
      && MixedAll(old(obj1.spells[..]), old(obj2.spells[..]), obj1.spells[..], totLevel)
    ensures roll > chance + 7 ==> obj1.extracted && obj2.extracted
    ensures obj1.itemType == Potion ==>
      obj1.amount == if old(obj1.amount) + old(obj2.amount) < 1 then old(obj1.amount) + old(obj2.amount) + 2 else 3
    ensures obj1.itemType == Scroll ==> obj1.amount == old(obj1.amount)
  {
    ghost var v, w := obj1.spells[..], obj2.spells[..];
    MagicOfPlain(v);
    MagicOfPlain(w);
    ghost var pairs;
    var outcome;
    outcome, pairs := DoCombine(chance, roll, totLevel, obj1, obj2);
    if roll <= chance {
      forall s
        ensures MixedFor(Plain(v), Plain(w), obj1.spells[..], s, totLevel)
      {
        FusedIsMixed(Plain(v), Plain(w), obj1.spells[..], pairs, totLevel, s);
      }
      MixedOfPlain(v, w, obj1.spells[..], totLevel);
    }
  }

  /**
   No skill, items of other or of different types, an item with itself, one without spells, or, with a roll outside
   the near misses, different spells: nothing happens to either item.
   */
  method CombineRefused(chance: int, roll: int, totLevel: int, obj1: Item, obj2: Item)
    requires obj1 != obj2 ==> obj1.spells != obj2.spells
    requires || chance < 1 || obj1.itemType == OtherType || obj1.itemType != obj2.itemType || obj1 == obj2
             || obj1.spells.Length == 0 || obj2.spells.Length == 0
             || ((roll <= chance || roll > chance + 7) && Magic(obj1.spells[..]) != Magic(obj2.spells[..]))
    modifies obj1`amount, obj1`extracted, obj2`extracted, obj1.spells, obj2.spells
    ensures obj1.extracted == old(obj1.extracted) && obj2.extracted == old(obj2.extracted) && obj1.amount == old(obj1.amount)
    ensures SameButMarks(obj1.spells[..], old(obj1.spells[..])) && SameButMarks(obj2.spells[..], old(obj2.spells[..]))
  {
    ghost var v, w := obj1.spells[..], obj2.spells[..];
    MagicOfPlain(v);
    MagicOfPlain(w);
    ghost var pairs;
    var outcome;
    outcome, pairs := DoCombine(chance, roll, totLevel, obj1, obj2);
    PlainIsSame(obj1.spells[..], v);
    PlainIsSame(obj2.spells[..], w);
  }

  /** A near miss of two items that have the same spell is refused, although it is neither a success nor a failure. */
  method NearMissRefused(chance: int, roll: int, totLevel: int, obj1: Item, obj2: Item)
    requires obj1 != obj2 && obj1.spells != obj2.spells && chance < roll <= chance + 7
    requires exists j :: 0 <= j < obj2.spells.Length && obj2.spells[j].level > 0
    modifies obj1`amount, obj1`extracted, obj2`extracted, obj1.spells, obj2.spells
    ensures obj1.extracted == old(obj1.extracted) && obj2.extracted == old(obj2.extracted) && obj1.amount == old(obj1.amount)
    ensures SameButMarks(obj1.spells[..], old(obj1.spells[..])) && SameButMarks(obj2.spells[..], old(obj2.spells[..]))
  {
    ghost var v, w := obj1.spells[..], obj2.spells[..];
    Magicless(Plain(w));
    assert exists j :: 0 <= j < |w| && Plain(w)[j].level > 0 by {
      var j :| 0 <= j < |w| && w[j].level > 0;
      assert Plain(w)[j].level > 0;
    }
    ghost var pairs;
    var outcome;
    outcome, pairs := DoCombine(chance, roll, totLevel, obj1, obj2);
    PlainIsSame(obj1.spells[..], v);
    PlainIsSame(obj2.spells[..], w);
  }
}
