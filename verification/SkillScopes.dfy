/** When a skill may be used: every source counts, and what gaining or losing a source does to that. */
module SkillScopes {
  import opened SkillSources

  /** CLASS_DATA, as far as scopes look at it. */
  datatype ClassKind = ClassKind(kind: int, combative: bool)

  /** A node of class c and this scope makes the skill usable while `current` is active. */
  predicate Covers(classes: map<ClassId, ClassKind>, current: ClassId, c: ClassId, scope: int) {
    && c in classes
    && (|| scope == SCOPE_ALWAYS
        || (current in classes &&
            if scope == SCOPE_COMBAT then classes[c].combative && classes[current].combative
            else if scope == SCOPE_TYPE then classes[c].kind == classes[current].kind
            else c == current))
  }

  /** is_skill_available_for_class on an entry that keeps its cache in step with its list. */
  predicate Available(classes: map<ClassId, ClassKind>, current: ClassId, sources: seq<Source>, token: bool) {
    sources == [] || token || AnyCovers(classes, current, sources)
  }

  predicate AnyCovers(classes: map<ClassId, ClassKind>, current: ClassId, sources: seq<Source>) {
    exists i :: 0 <= i < |sources| && Covers(classes, current, sources[i].clazz, sources[i].scope)
  }

  /** The walk over the sources. */
  method FindCover(classes: map<ClassId, ClassKind>, current: ClassId, sources: seq<Source>) returns (yes: bool)
    ensures yes == AnyCovers(classes, current, sources)
  {
    for i := 0 to |sources|
      invariant forall j :: 0 <= j < i ==> !Covers(classes, current, sources[j].clazz, sources[j].scope)
    {
      if Covers(classes, current, sources[i].clazz, sources[i].scope) { return true; }
    }
    yes := false;
  }

  /** is_skill_available_for_class; with a cache in step with its list the fallback is never reached. */
  method IsAvailable(classes: map<ClassId, ClassKind>, current: ClassId, entry: SkillEntry, token: bool)
    returns (yes: bool)
    requires entry.Valid()
    ensures yes == Available(classes, current, entry.sources, token)
  {
    if entry.sources == [] && entry.sourceClass == NO_CLASS { return true; }
    if token { return true; }
    yes := FindCover(classes, current, entry.sources);
    if entry.sources == [] {
      assert false;
    }
  }

  /** Three classes: the first two of one kind, the first and the third fight. */
  function ThreeClasses(): map<ClassId, ClassKind> {
    map[1 := ClassKind(0, true), 2 := ClassKind(0, false), 3 := ClassKind(1, true)]
  }

  /** The classes a node of class 1 serves, scope by scope; without an active class only the broadest serves. */
  lemma ScopesReach(current: ClassId, scope: int)
    requires SCOPE_CLASS <= scope <= SCOPE_ALWAYS
    ensures Available(ThreeClasses(), current, [Source(1, scope)], false)
      <==> current in [{1}, {1, 2}, {1, 3}, {1, 2, 3, current}][scope]
  {
    var sources := [Source(1, scope)];
    assert AnyCovers(ThreeClasses(), current, sources)
      <==> Covers(ThreeClasses(), current, sources[0].clazz, sources[0].scope);
  }

  /** Availability of a sourced skill is a question about the map alone. */
  lemma CoversByScopes(classes: map<ClassId, ClassKind>, current: ClassId, sources: seq<Source>)
    requires OnePerClass(sources)
    ensures AnyCovers(classes, current, sources)
      <==> exists c :: c in Scopes(sources) && Covers(classes, current, c, Scopes(sources)[c])
  {
    ScopesKeys(sources);
    if exists c :: c in Scopes(sources) && Covers(classes, current, c, Scopes(sources)[c]) {
      var c :| c in Scopes(sources) && Covers(classes, current, c, Scopes(sources)[c]);
      var i :| 0 <= i < |sources| && sources[i].clazz == c;
      assert Covers(classes, current, sources[i].clazz, sources[i].scope);
    }
    if AnyCovers(classes, current, sources) {
      var i :| 0 <= i < |sources| && Covers(classes, current, sources[i].clazz, sources[i].scope);
      assert sources[i].clazz in Scopes(sources);
    }
  }

  /** Taking one class away keeps the skill available whenever a remaining class's node covers the current class. */
  lemma RemovalKeepsCover(classes: map<ClassId, ClassKind>, current: ClassId, sources: seq<Source>, gone: ClassId)
    requires SourcesOk(sources)
    ensures AnyCovers(classes, current, RemoveSource(sources, gone))
      <==> exists i :: 0 <= i < |sources| && sources[i].clazz != gone && Covers(classes, current, sources[i].clazz, sources[i].scope)
  {
    var left := RemoveSource(sources, gone);
    RemoveMembers(sources, gone);
    if AnyCovers(classes, current, left) {
      var i :| 0 <= i < |left| && Covers(classes, current, left[i].clazz, left[i].scope);
      assert left[i] in left;
      var j :| 0 <= j < |sources| && sources[j] == left[i];
      assert sources[j].clazz != gone && Covers(classes, current, sources[j].clazz, sources[j].scope);
    }
    if exists i :: 0 <= i < |sources| && sources[i].clazz != gone && Covers(classes, current, sources[i].clazz, sources[i].scope) {
      var i :| 0 <= i < |sources| && sources[i].clazz != gone && Covers(classes, current, sources[i].clazz, sources[i].scope);
      assert sources[i] in sources;
      assert sources[i] in left;
      var j :| 0 <= j < |left| && left[j] == sources[i];
      assert Covers(classes, current, left[j].clazz, left[j].scope);
    }
  }

  /** With one source added, the skill is covered by another class or by the joined node. */
  lemma AdditionCovers(classes: map<ClassId, ClassKind>, current: ClassId, sources: seq<Source>, clazz: ClassId, scope: int)
    requires SourcesOk(sources) && clazz != NO_CLASS
    ensures AnyCovers(classes, current, AddSource(sources, clazz, scope))
      <==> || Covers(classes, current, clazz, Join(Scopes(sources), clazz, scope)[clazz])
           || exists c :: c in Scopes(sources) && c != clazz && Covers(classes, current, c, Scopes(sources)[c])
  {
    var added := AddSource(sources, clazz, scope);
    AddMeaning(sources, clazz, scope);
    CoversByScopes(classes, current, added);
    var m := Scopes(added);
    if exists c :: c in m && Covers(classes, current, c, m[c]) {
      var c :| c in m && Covers(classes, current, c, m[c]);
      assert c != clazz ==> c in Scopes(sources) && Scopes(sources)[c] == m[c];
    }
    if exists c :: c in Scopes(sources) && c != clazz && Covers(classes, current, c, Scopes(sources)[c]) {
      var c :| c in Scopes(sources) && c != clazz && Covers(classes, current, c, Scopes(sources)[c]);
      assert c in m && m[c] == Scopes(sources)[c];
    }
  }

  /** The class's own node covered, and the added combat scope replaces it although one of the two does not fight. */
  ghost predicate TurnsCombat(classes: map<ClassId, ClassKind>, current: ClassId, sources: seq<Source>, clazz: ClassId, scope: int) {
    && clazz in classes && clazz in Scopes(sources) && Covers(classes, current, clazz, Scopes(sources)[clazz])
    && Scopes(sources)[clazz] < scope == SCOPE_COMBAT
    && !(current in classes && classes[clazz].combative && classes[current].combative)
  }

  /** A node of some other class covers. */
  ghost predicate OtherCovers(classes: map<ClassId, ClassKind>, current: ClassId, sources: seq<Source>, clazz: ClassId) {
    exists c :: c in Scopes(sources) && c != clazz && Covers(classes, current, c, Scopes(sources)[c])
  }

  ghost predicate ScopesInRange(sources: seq<Source>) {
    forall i :: 0 <= i < |sources| ==> SCOPE_CLASS <= sources[i].scope <= SCOPE_ALWAYS
  }

  /**
   Adding a source is not monotone. It takes a usable skill away in two cases only, and never one a token grants:
   the skill had no source, which makes it usable by everyone, and its first node does not cover; or no other class
   covers it and the class's own covering node becomes a combat node while one of the two classes does not fight.
   */
  lemma AdditionLoses(classes: map<ClassId, ClassKind>, current: ClassId, sources: seq<Source>, token: bool,
                      clazz: ClassId, scope: int)
    requires SourcesOk(sources) && clazz != NO_CLASS
    requires SCOPE_CLASS <= scope <= SCOPE_ALWAYS && ScopesInRange(sources)
    ensures Available(classes, current, sources, token)
            && !Available(classes, current, AddSource(sources, clazz, scope), token)
      <==> !token && if sources == [] then !Covers(classes, current, clazz, scope)
                     else TurnsCombat(classes, current, sources, clazz, scope)
                          && !OtherCovers(classes, current, sources, clazz)
  {
    ScopesKeys(sources);
    AddMeaning(sources, clazz, scope);
    AdditionCovers(classes, current, sources, clazz, scope);
    CoversByScopes(classes, current, sources);
    if clazz in Scopes(sources) {
      assert SCOPE_CLASS <= Scopes(sources)[clazz] <= SCOPE_ALWAYS;
    }
  }

  /** Two classes of one kind, of which the second fights. */
  function TwoClasses(): map<ClassId, ClassKind> {
    map[1 := ClassKind(0, false), 2 := ClassKind(0, true)]
  }

  /** A skill held without a source, usable by everyone, is lost to class 2 when class 1 grants it for itself. */
  lemma SourcelessLost()
    ensures Available(TwoClasses(), 2, [], false)
      && !Available(TwoClasses(), 2, AddSource([], 1, SCOPE_CLASS), false)
  {
    assert AddSource([], 1, SCOPE_CLASS) == [Source(1, SCOPE_CLASS)];
  }

  /** A class loses its own skill when it is granted at the broader combat scope and does not fight. */
  lemma CombatLost()
    ensures Available(TwoClasses(), 1, [Source(1, SCOPE_CLASS)], false)
      && !Available(TwoClasses(), 1, AddSource([Source(1, SCOPE_CLASS)], 1, SCOPE_COMBAT), false)
  {
    var sources := [Source(1, SCOPE_CLASS)];
    assert Covers(TwoClasses(), 1, sources[0].clazz, sources[0].scope);
    assert HasClass(sources, 1) && AddSource(sources, 1, SCOPE_COMBAT) == [Source(1, SCOPE_COMBAT)] + sources[1..];
  }

  /**
   Granting a skill and revoking it again. The revocation restores the very same list of sources exactly
   when the class was not already a source; a skill held without any class source is then lost, because the
   entry is dropped with its last node.
   */
  lemma GrantThenRevoke(sources: seq<Source>, clazz: ClassId, scope: int)
    requires SourcesOk(sources) && clazz != NO_CLASS
    ensures RemoveSource(AddSource(sources, clazz, scope), clazz) == sources <==> !HasClass(sources, clazz)
    ensures RemoveSource(AddSource(sources, clazz, scope), clazz) == [] <==> Scopes(sources).Keys <= {clazz}
  {
    AddMeaning(sources, clazz, scope);
    var added := AddSource(sources, clazz, scope);
    RemoveMeaning(added, clazz);
    ScopesKeys(sources);
    assert Scopes(added).Keys == Scopes(sources).Keys + {clazz};
    if HasClass(sources, clazz) {
      assert clazz in Scopes(sources) && clazz !in Scopes(RemoveSource(added, clazz));
    }
  }
}
