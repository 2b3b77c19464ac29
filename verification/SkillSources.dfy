/**
 A skill entry's list of class sources with its cached broadest source: what adding and removing a class
 does to it, in place and as a map from classes to scopes.
 */
module SkillSources {

  type ClassId = nat

  const NO_CLASS: ClassId := 0
  const SCOPE_CLASS := 0
  const SCOPE_TYPE := 1
  const SCOPE_COMBAT := 2
  const SCOPE_ALWAYS := 3

  /** SKILL_SOURCE: which class grants the skill, and how broadly. */
  datatype Source = Source(clazz: ClassId, scope: int)

  // ----- What the two operations do to the list

  function AddSource(sources: seq<Source>, clazz: ClassId, scope: int): seq<Source> {
    if HasClass(sources, clazz) then Broaden(sources, clazz, scope) else [Source(clazz, scope)] + sources
  }

  predicate HasClass(sources: seq<Source>, clazz: ClassId) {
    exists i :: 0 <= i < |sources| && sources[i].clazz == clazz
  }

  /** The first node of the class takes the broader of the two scopes. */
  function Broaden(sources: seq<Source>, clazz: ClassId, scope: int): seq<Source> {
    if sources == [] then []
    else if sources[0].clazz == clazz then
      [Source(clazz, if scope > sources[0].scope then scope else sources[0].scope)] + sources[1..]
    else [sources[0]] + Broaden(sources[1..], clazz, scope)
  }

  function RemoveSource(sources: seq<Source>, clazz: ClassId): seq<Source> {
    if sources == [] then []
    else if sources[0].clazz == clazz then sources[1..]
    else [sources[0]] + RemoveSource(sources[1..], clazz)
  }

  /** The cached pair for a list: its first node of maximal scope, or nothing. */
  ghost predicate IsBroadest(sources: seq<Source>, clazz: ClassId, scope: int) {
    if sources == [] then clazz == NO_CLASS && scope == 0
    else exists i :: 0 <= i < |sources| && BroadestAt(sources, i) && sources[i] == Source(clazz, scope)
  }

  ghost predicate BroadestAt(sources: seq<Source>, i: nat)
    requires i < |sources|
  {
    && (forall j :: 0 <= j < |sources| ==> sources[j].scope <= sources[i].scope)
    && (forall j :: 0 <= j < i ==> sources[j].scope < sources[i].scope)
  }

  /** The cache is determined by the list. */
  lemma BroadestUnique(sources: seq<Source>, c1: ClassId, x1: int, c2: ClassId, x2: int)
    requires IsBroadest(sources, c1, x1) && IsBroadest(sources, c2, x2)
    ensures c1 == c2 && x1 == x2
  {
    if sources != [] {
      var i :| 0 <= i < |sources| && BroadestAt(sources, i) && sources[i] == Source(c1, x1);
      var j :| 0 <= j < |sources| && BroadestAt(sources, j) && sources[j] == Source(c2, x2);
    }
  }

  /** The broadest of one more node. */
  lemma BroadestNext(sources: seq<Source>, i: nat, clazz: ClassId, scope: int)
    requires i < |sources| && IsBroadest(sources[..i], clazz, scope) && (i > 0 ==> clazz != NO_CLASS)
    ensures if clazz == NO_CLASS || sources[i].scope > scope
            then IsBroadest(sources[..i + 1], sources[i].clazz, sources[i].scope)
            else IsBroadest(sources[..i + 1], clazz, scope)
  {
    var more := sources[..i + 1];
    assert more == sources[..i] + [sources[i]];
    if clazz == NO_CLASS || sources[i].scope > scope {
      assert BroadestAt(more, i) && more[i] == sources[i];
    } else {
      var k :| 0 <= k < |sources[..i]| && BroadestAt(sources[..i], k) && sources[..i][k] == Source(clazz, scope);
      assert BroadestAt(more, k) && more[k] == sources[..i][k];
    }
  }

  // ----- The list as a map

  ghost predicate OnePerClass(sources: seq<Source>) {
    forall i, j :: 0 <= i < j < |sources| ==> sources[i].clazz != sources[j].clazz
  }

  /** No node without a class: the operations refuse the null class. */
  ghost predicate RealClasses(sources: seq<Source>) {
    forall i :: 0 <= i < |sources| ==> sources[i].clazz != NO_CLASS
  }

  ghost predicate SourcesOk(sources: seq<Source>) {
    OnePerClass(sources) && RealClasses(sources)
  }

  ghost function Scopes(sources: seq<Source>): map<ClassId, int> {
    if sources == [] then map[] else Scopes(sources[1..])[sources[0].clazz := sources[0].scope]
  }

  function Join(m: map<ClassId, int>, clazz: ClassId, scope: int): map<ClassId, int> {
    if clazz in m && m[clazz] >= scope then m else m[clazz := scope]
  }

  lemma {:induction false} ScopesKeys(sources: seq<Source>)
    ensures forall c :: c in Scopes(sources) <==> HasClass(sources, c)
    ensures OnePerClass(sources) ==>
      forall i :: 0 <= i < |sources| ==> sources[i].clazz in Scopes(sources) && Scopes(sources)[sources[i].clazz] == sources[i].scope
  {
    if sources == [] {
    } else {
      var rest := sources[1..];
      ScopesKeys(rest);
      assert sources == [sources[0]] + rest;
      forall c
        ensures c in Scopes(sources) <==> HasClass(sources, c)
      {
        HasClassCons(sources, c);
      }
      if OnePerClass(sources) {
        assert forall i :: 0 <= i < |rest| ==> rest[i] == sources[i + 1];
        assert forall i :: 0 < i < |sources| ==> sources[i] == rest[i - 1];
      }
    }
  }

  lemma HasClassCons(sources: seq<Source>, c: ClassId)
    requires sources != []
    ensures HasClass(sources, c) <==> sources[0].clazz == c || HasClass(sources[1..], c)
  {
    if HasClass(sources, c) {
      var i :| 0 <= i < |sources| && sources[i].clazz == c;
      assert i > 0 ==> sources[1..][i - 1].clazz == c;
    }
    if HasClass(sources[1..], c) {
      var i :| 0 <= i < |sources[1..]| && sources[1..][i].clazz == c;
      assert sources[i + 1].clazz == c;
    }
  }

  lemma {:induction false} BroadenShape(sources: seq<Source>, clazz: ClassId, scope: int)
    ensures |Broaden(sources, clazz, scope)| == |sources|
    ensures forall i :: 0 <= i < |sources| ==> Broaden(sources, clazz, scope)[i].clazz == sources[i].clazz
  {
    if sources == [] || sources[0].clazz == clazz {
    } else {
      BroadenShape(sources[1..], clazz, scope);
    }
  }

  /** No second node of the class that heads a duplicate-free list. */
  lemma HeadIsOnly(sources: seq<Source>)
    requires sources != [] && OnePerClass(sources)
    ensures !HasClass(sources[1..], sources[0].clazz)
    ensures OnePerClass(sources[1..])
  {
    var rest := sources[1..];
    assert forall i :: 0 <= i < |rest| ==> rest[i] == sources[i + 1];
  }

  lemma {:induction false} BroadenScopes(sources: seq<Source>, clazz: ClassId, scope: int)
    requires OnePerClass(sources) && HasClass(sources, clazz)
    ensures Scopes(Broaden(sources, clazz, scope)) == Join(Scopes(sources), clazz, scope)
  {
    var rest, wide := sources[1..], Broaden(sources, clazz, scope);
    HeadIsOnly(sources);
    ScopesKeys(rest);
    HasClassCons(sources, clazz);
    if sources[0].clazz == clazz {
      assert wide[1..] == rest;
    } else {
      BroadenScopes(rest, clazz, scope);
      assert wide[1..] == Broaden(rest, clazz, scope) && wide[0] == sources[0];
    }
  }

  lemma ConsInjective(x: Source, y: Source, a: seq<Source>, b: seq<Source>)
    ensures [x] + a == [y] + b <==> x == y && a == b
  {
    assert ([x] + a)[1..] == a && ([y] + b)[1..] == b;
    assert ([x] + a)[0] == x && ([y] + b)[0] == y;
  }

  lemma {:induction false} BroadenSame(sources: seq<Source>, clazz: ClassId, scope: int)
    requires OnePerClass(sources) && HasClass(sources, clazz)
    ensures clazz in Scopes(sources)
    ensures Broaden(sources, clazz, scope) == sources <==> Scopes(sources)[clazz] >= scope
  {
    var head, rest := sources[0], sources[1..];
    HeadIsOnly(sources);
    HasClassCons(sources, clazz);
    assert sources == [head] + rest;
    if head.clazz == clazz {
      ConsInjective(Source(clazz, if scope > head.scope then scope else head.scope), head, rest, rest);
    } else {
      BroadenSame(rest, clazz, scope);
      ConsInjective(head, head, Broaden(rest, clazz, scope), rest);
    }
  }

  lemma ConsOk(x: Source, sources: seq<Source>)
    requires SourcesOk(sources) && x.clazz != NO_CLASS && !HasClass(sources, x.clazz)
    ensures SourcesOk([x] + sources) && Scopes([x] + sources) == Scopes(sources)[x.clazz := x.scope]
  {
    assert ([x] + sources)[1..] == sources;
  }

  /** Adding a source joins one class and scope into the map; it changes nothing exactly when already covered. */
  lemma AddMeaning(sources: seq<Source>, clazz: ClassId, scope: int)
    requires SourcesOk(sources) && clazz != NO_CLASS
    ensures SourcesOk(AddSource(sources, clazz, scope))
    ensures Scopes(AddSource(sources, clazz, scope)) == Join(Scopes(sources), clazz, scope)
    ensures AddSource(sources, clazz, scope) == sources <==> clazz in Scopes(sources) && Scopes(sources)[clazz] >= scope
  {
    ScopesKeys(sources);
    if HasClass(sources, clazz) {
      BroadenShape(sources, clazz, scope);
      BroadenScopes(sources, clazz, scope);
      BroadenSame(sources, clazz, scope);
    } else {
      ConsOk(Source(clazz, scope), sources);
      assert |AddSource(sources, clazz, scope)| != |sources|;
    }
  }

  lemma {:induction false} RemoveMembers(sources: seq<Source>, clazz: ClassId)
    requires OnePerClass(sources)
    ensures forall x :: x in RemoveSource(sources, clazz) <==> x in sources && x.clazz != clazz
  {
    if sources == [] {
    } else {
      HeadIsOnly(sources);
      assert sources == [sources[0]] + sources[1..];
      RemoveMembers(sources[1..], clazz);
      assert forall x :: x in sources[1..] ==> HasClass(sources[1..], x.clazz);
    }
  }

  lemma MinusOther<V>(m: map<ClassId, V>, k: ClassId, v: V, x: ClassId)
    requires k != x
    ensures m[k := v] - {x} == (m - {x})[k := v]
  {
  }

  lemma MinusHead<V>(m: map<ClassId, V>, k: ClassId, v: V)
    requires k !in m
    ensures m[k := v] - {k} == m
  {
  }

  lemma {:induction false} RemoveScopes(sources: seq<Source>, clazz: ClassId)
    requires SourcesOk(sources)
    ensures SourcesOk(RemoveSource(sources, clazz))
    ensures Scopes(RemoveSource(sources, clazz)) == Scopes(sources) - {clazz}
  {
    if sources == [] {
    } else {
      var head, rest := sources[0], sources[1..];
      HeadIsOnly(sources);
      ScopesKeys(rest);
      assert RealClasses(rest);
      if head.clazz == clazz {
        MinusHead(Scopes(rest), clazz, head.scope);
      } else {
        RemoveScopes(rest, clazz);
        ScopesKeys(RemoveSource(rest, clazz));
        ConsOk(head, RemoveSource(rest, clazz));
        MinusOther(Scopes(rest), head.clazz, head.scope, clazz);
      }
    }
  }

  /** Removing a source takes exactly that class out of the map; the list is empty when no other class is left. */
  lemma RemoveMeaning(sources: seq<Source>, clazz: ClassId)
    requires SourcesOk(sources)
    ensures SourcesOk(RemoveSource(sources, clazz))
    ensures Scopes(RemoveSource(sources, clazz)) == Scopes(sources) - {clazz}
    ensures RemoveSource(sources, clazz) == [] <==> Scopes(sources).Keys <= {clazz}
  {
    RemoveScopes(sources, clazz);
    var left := RemoveSource(sources, clazz);
    ScopesKeys(left);
    if left != [] {
      assert HasClass(left, left[0].clazz);
      assert left[0].clazz in Scopes(sources) - {clazz};
    }
  }

  // ----- The entry, updated in place

  class SkillEntry {
    var sources: seq<Source>
    var sourceClass: ClassId
    var crossClassScope: int
    var rating: int

    ghost predicate Valid()
      reads this
    {
      SourcesOk(sources) && IsBroadest(sources, sourceClass, crossClassScope)
    }

    constructor ()
      ensures Valid() && sources == [] && rating == 0
    {
      sources, sourceClass, crossClassScope, rating := [], NO_CLASS, 0, 0;
    }

    /** The loop that picks the broadest source into the cached fields. */
    method RefreshCache()
      requires SourcesOk(sources)
      modifies this`sourceClass, this`crossClassScope
      ensures IsBroadest(sources, sourceClass, crossClassScope)
    {
      crossClassScope, sourceClass := 0, NO_CLASS;
      for i := 0 to |sources|
        invariant i == 0 ==> sourceClass == NO_CLASS && crossClassScope == 0
        invariant i > 0 ==> sourceClass != NO_CLASS && IsBroadest(sources[..i], sourceClass, crossClassScope)
      {
        BroadestNext(sources, i, sourceClass, crossClassScope);
        if sourceClass == NO_CLASS || sources[i].scope > crossClassScope {
          sourceClass, crossClassScope := sources[i].clazz, sources[i].scope;
        }
      }
      assert sources[..|sources|] == sources;
    }

    /** The search of skill_entry_add_source: broaden the class's node, or put a new one at the head. */
    method AddNode(clazz: ClassId, scope: int)
      modifies this`sources
      ensures sources == AddSource(old(sources), clazz, scope)
    {
      ghost var was := sources;
      var i := 0;
      while i < |sources|
        invariant 0 <= i <= |sources| && sources == was && !HasClass(was[..i], clazz)
      {
        if sources[i].clazz == clazz {
          BroadenAt(was, clazz, scope, i);
          if scope > sources[i].scope {
            sources := sources[i := Source(clazz, scope)];
          }
          return;
        }
        NotYet(was, clazz, i);
        i := i + 1;
      }
      assert was[..i] == was;
      sources := [Source(clazz, scope)] + sources;
    }

    /** skill_entry_add_source */
    method Add(clazz: ClassId, scope: int)
      requires Valid()
      modifies this`sources, this`sourceClass, this`crossClassScope
      ensures Valid()
      ensures sources == if clazz == NO_CLASS then old(sources) else AddSource(old(sources), clazz, scope)
    {
      if clazz == NO_CLASS { return; }
      AddMeaning(sources, clazz, scope);
      AddNode(clazz, scope);
      RefreshCache();
    }

    /** The search of skill_entry_remove_source: splice out the class's node. */
    method RemoveNode(clazz: ClassId)
      modifies this`sources
      ensures sources == RemoveSource(old(sources), clazz)
    {
      ghost var was := sources;
      var i := 0;
      while i < |sources|
        invariant 0 <= i <= |sources| && sources == was && !HasClass(was[..i], clazz)
      {
        if sources[i].clazz == clazz {
          RemoveAt(was, clazz, i);
          sources := sources[..i] + sources[i + 1..];
          return;
        }
        NotYet(was, clazz, i);
        i := i + 1;
      }
      assert was[..i] == was;
      RemoveAbsent(was, clazz);
    }

    /** skill_entry_remove_source: true if sources remain. */
    method Remove(clazz: ClassId) returns (remain: bool)
      requires Valid()
      modifies this`sources, this`sourceClass, this`crossClassScope
      ensures Valid()
      ensures sources == if clazz == NO_CLASS then old(sources) else RemoveSource(old(sources), clazz)
      ensures remain <==> sources != []
    {
      if clazz == NO_CLASS { return sources != []; }
      RemoveMeaning(sources, clazz);
      RemoveNode(clazz);
      RefreshCache();
      remain := sources != [];
    }
  }

  lemma NotYet(sources: seq<Source>, clazz: ClassId, i: nat)
    requires i < |sources| && !HasClass(sources[..i], clazz) && sources[i].clazz != clazz
    ensures !HasClass(sources[..i + 1], clazz)
  {
    var fewer, more := sources[..i], sources[..i + 1];
    forall k | 0 <= k < |more|
      ensures more[k].clazz != clazz
    {
      assert k < i ==> fewer[k] == more[k];
    }
  }

  lemma {:induction false} BroadenAt(sources: seq<Source>, clazz: ClassId, scope: int, i: nat)
    requires i < |sources| && sources[i].clazz == clazz && !HasClass(sources[..i], clazz)
    ensures HasClass(sources, clazz)
    ensures Broaden(sources, clazz, scope) == if scope > sources[i].scope then sources[i := Source(clazz, scope)] else sources
  {
    assert sources == [sources[0]] + sources[1..];
    if i == 0 {
    } else {
      assert sources[0].clazz != clazz by {
        assert sources[..i][0] == sources[0];
      }
      assert sources[1..][..i - 1] == sources[..i][1..];
      HasClassCons(sources[..i], clazz);
      BroadenAt(sources[1..], clazz, scope, i - 1);
    }
  }

  lemma {:induction false} RemoveAt(sources: seq<Source>, clazz: ClassId, i: nat)
    requires i < |sources| && sources[i].clazz == clazz && !HasClass(sources[..i], clazz)
    ensures RemoveSource(sources, clazz) == sources[..i] + sources[i + 1..]
  {
    if i == 0 {
    } else {
      assert sources[0].clazz != clazz by {
        assert sources[..i][0] == sources[0];
      }
      assert sources[1..][..i - 1] == sources[..i][1..];
      HasClassCons(sources[..i], clazz);
      RemoveAt(sources[1..], clazz, i - 1);
      assert sources[1..][i..] == sources[i + 1..];
    }
  }

  lemma {:induction false} RemoveAbsent(sources: seq<Source>, clazz: ClassId)
    requires !HasClass(sources, clazz)
    ensures RemoveSource(sources, clazz) == sources
  {
    if sources == [] {
    } else {
      HasClassCons(sources, clazz);
      RemoveAbsent(sources[1..], clazz);
    }
  }
}
