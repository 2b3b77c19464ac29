/** Skill sources over whole passes: what rebuilding computes, when it changes nothing, and what revoking removes. */
module RewardSkills {
  import opened Lists
  import opened Strings
  import opened SkillSources
  import opened SkillScopes
  import opened RewardModel
  import opened RewardLedger

  /** The reward names this skill: as its own, or as one of the group it names in any case of letters. */
  ghost predicate GivesName(t: Tables, r: Reward, name: string) {
    match r.kind
    case Skill => name == r.name
    case SkillGroup => r.name != "" && Fold(r.name) in t.groups && name in t.groups[Fold(r.name)]
    case Bonus => false
    case Other(_) => false
  }

  lemma GivenNames(t: Tables, r: Reward, name: string)
    ensures name in GrantedNames(t, r) <==> GivesName(t, r, name)
  {
  }

  /** One fact a reward states: class c grants skill sn at this scope. */
  datatype Grant = Grant(clazz: ClassId, sn: int, scope: int)

  ghost predicate SkillsOk(skills: map<int, HeldSkill>) {
    forall sn :: sn in skills ==> SourcesOk(skills[sn].sources)
  }

  // ----- Rebuilding is folding grants

  function AddGrant(skills: map<int, HeldSkill>, g: Grant): map<int, HeldSkill> {
    if IsSkill(g.sn) && g.sn in skills then
      skills[g.sn := skills[g.sn].(sources := AddSource(skills[g.sn].sources, g.clazz, g.scope))]
    else skills
  }

  function AddGrants(skills: map<int, HeldSkill>, grants: seq<Grant>): map<int, HeldSkill> {
    if grants == [] then skills
    else AddGrant(AddGrants(skills, grants[..|grants| - 1]), grants[|grants| - 1])
  }

  function GrantsOfNames(t: Tables, c: ClassId, names: seq<string>, scope: int): seq<Grant> {
    if names == [] then []
    else GrantsOfNames(t, c, names[..|names| - 1], scope) + [Grant(c, SkillNo(t, names[|names| - 1]), scope)]
  }

  function GrantsOfReward(t: Tables, c: ClassId, level: int, r: Reward): seq<Grant> {
    if r.level > level then [] else GrantsOfNames(t, c, GrantedNames(t, r), r.scope)
  }

  function GrantsOfClass(t: Tables, c: ClassId, level: int, rewards: seq<Reward>): seq<Grant> {
    if rewards == [] then []
    else GrantsOfClass(t, c, level, rewards[..|rewards| - 1]) + GrantsOfReward(t, c, level, rewards[|rewards| - 1])
  }

  function GrantsOf(t: Tables, k: Catalogue, p: Player, order: seq<ClassId>): seq<Grant> {
    if order == [] then []
    else
      var c := order[|order| - 1];
      GrantsOf(t, k, p, order[..|order| - 1]) + if c in p.levels then GrantsOfClass(t, c, p.levels[c].level, RewardsOf(k, c)) else []
  }

  lemma {:induction false} AddGrantsConcat(skills: map<int, HeldSkill>, a: seq<Grant>, b: seq<Grant>)
    ensures AddGrants(skills, a + b) == AddGrants(AddGrants(skills, a), b)
  {
    if b == [] {
      assert a + b == a;
    } else {
      AddGrantsConcat(skills, a, b[..|b| - 1]);
      assert (a + b)[..|a + b| - 1] == a + b[..|b| - 1] && (a + b)[|a + b| - 1] == b[|b| - 1];
    }
  }

  lemma {:induction false} NamesAreGrants(t: Tables, skills: map<int, HeldSkill>, c: ClassId, names: seq<string>, scope: int)
    ensures RebuildNames(t, skills, c, names, scope) == AddGrants(skills, GrantsOfNames(t, c, names, scope))
  {
    if names == [] {
    } else {
      var grants := GrantsOfNames(t, c, names, scope);
      NamesAreGrants(t, skills, c, names[..|names| - 1], scope);
      assert grants[..|grants| - 1] == GrantsOfNames(t, c, names[..|names| - 1], scope);
    }
  }

  lemma {:induction false} ClassIsGrants(t: Tables, skills: map<int, HeldSkill>, c: ClassId, level: int, rewards: seq<Reward>)
    ensures RebuildClass(t, skills, c, level, rewards) == AddGrants(skills, GrantsOfClass(t, c, level, rewards))
  {
    if rewards == [] {
    } else {
      var init, last := rewards[..|rewards| - 1], rewards[|rewards| - 1];
      ClassIsGrants(t, skills, c, level, init);
      AddGrantsConcat(skills, GrantsOfClass(t, c, level, init), GrantsOfReward(t, c, level, last));
      NamesAreGrants(t, RebuildClass(t, skills, c, level, init), c, GrantedNames(t, last), last.scope);
    }
  }

  lemma {:induction false} PlayerIsGrants(t: Tables, k: Catalogue, p: Player, order: seq<ClassId>)
    ensures RebuildClasses(t, k, p, order) == AddGrants(p.skills, GrantsOf(t, k, p, order))
  {
    if order == [] {
    } else {
      var init, c := order[..|order| - 1], order[|order| - 1];
      PlayerIsGrants(t, k, p, init);
      if c in p.levels {
        ClassIsGrants(t, RebuildClasses(t, k, p, init), c, p.levels[c].level, RewardsOf(k, c));
        AddGrantsConcat(p.skills, GrantsOf(t, k, p, init), GrantsOfClass(t, c, p.levels[c].level, RewardsOf(k, c)));
      } else {
        assert GrantsOf(t, k, p, order) == GrantsOf(t, k, p, init);
      }
    }
  }

  // ----- The join the fold computes

  /** after is before joined with these grants for skill sn: the maximum scope per class, nothing else. */
  ghost predicate IsJoin(before: map<ClassId, int>, grants: seq<Grant>, sn: int, after: map<ClassId, int>) {
    && (forall c :: c in after <==> c in before || exists g :: g in grants && g.sn == sn && g.clazz == c)
    && (forall c :: c in before ==> c in after && before[c] <= after[c])
    && (forall g :: g in grants && g.sn == sn ==> g.clazz in after && g.scope <= after[g.clazz])
    && (forall c :: c in after ==> (c in before && before[c] == after[c]) || Grant(c, sn, after[c]) in grants)
  }

  /** A join is determined by the map before and the set of grants, whatever their order and multiplicity. */
  lemma JoinUnique(before: map<ClassId, int>, g1: seq<Grant>, g2: seq<Grant>, sn: int, m1: map<ClassId, int>, m2: map<ClassId, int>)
    requires forall g :: g in g1 <==> g in g2
    requires IsJoin(before, g1, sn, m1) && IsJoin(before, g2, sn, m2)
    ensures m1 == m2
  {
    forall c | c in m1
      ensures c in m2 && m1[c] == m2[c]
    {
      assert c in m2;
    }
    assert forall c :: c in m2 ==> c in m1;
  }

  ghost predicate GrantsOk(grants: seq<Grant>) {
    forall g :: g in grants ==> g.clazz != NO_CLASS
  }

  lemma JoinSkips(before: map<ClassId, int>, grants: seq<Grant>, g: Grant, sn: int, mid: map<ClassId, int>)
    requires IsJoin(before, grants, sn, mid) && g.sn != sn
    ensures IsJoin(before, grants + [g], sn, mid)
  {
    var all := grants + [g];
    assert forall x :: x in all <==> x in grants || x == g;
    forall c
      ensures c in mid <==> c in before || exists x :: x in all && x.sn == sn && x.clazz == c
    {
      if exists x :: x in grants && x.sn == sn && x.clazz == c {
        var x :| x in grants && x.sn == sn && x.clazz == c;
        assert x in all;
      }
    }
  }

  lemma JoinTakes(before: map<ClassId, int>, grants: seq<Grant>, g: Grant, sn: int, mid: map<ClassId, int>)
    requires IsJoin(before, grants, sn, mid) && g.sn == sn
    ensures IsJoin(before, grants + [g], sn, Join(mid, g.clazz, g.scope))
  {
    var all, after := grants + [g], Join(mid, g.clazz, g.scope);
    assert forall x :: x in all <==> x in grants || x == g;
    forall c
      ensures c in after <==> c in before || exists x :: x in all && x.sn == sn && x.clazz == c
    {
      if exists x :: x in grants && x.sn == sn && x.clazz == c {
        var x :| x in grants && x.sn == sn && x.clazz == c;
        assert x in all;
      }
      assert g in all;
    }
  }

  lemma JoinStep(before: map<ClassId, int>, grants: seq<Grant>, g: Grant, sn: int, mid: map<ClassId, int>)
    requires IsJoin(before, grants, sn, mid)
    ensures IsJoin(before, grants + [g], sn, if g.sn == sn then Join(mid, g.clazz, g.scope) else mid)
  {
    if g.sn == sn {
      JoinTakes(before, grants, g, sn, mid);
    } else {
      JoinSkips(before, grants, g, sn, mid);
    }
  }

  /** Folding grants keeps which skills are held and their ratings, and joins the grants into each source map. */
  lemma {:induction false} FoldMeaning(skills: map<int, HeldSkill>, grants: seq<Grant>, sn: int)
    requires SkillsOk(skills) && GrantsOk(grants) && sn in skills && IsSkill(sn)
    ensures var after := AddGrants(skills, grants);
      && SkillsOk(after) && after.Keys == skills.Keys && after[sn].rating == skills[sn].rating
      && IsJoin(Scopes(skills[sn].sources), grants, sn, Scopes(after[sn].sources))
  {
    if grants == [] {
    } else {
      var init, g := grants[..|grants| - 1], grants[|grants| - 1];
      assert grants == init + [g];
      FoldMeaning(skills, init, sn);
      var mid := AddGrants(skills, init);
      JoinStep(Scopes(skills[sn].sources), init, g, sn, Scopes(mid[sn].sources));
      if IsSkill(g.sn) && g.sn in mid {
        AddMeaning(mid[g.sn].sources, g.clazz, g.scope);
      }
    }
  }

  // ----- When nothing changes

  /** Every grant for a held skill is already covered by that skill's own node of the class. */
  ghost predicate Saturated(skills: map<int, HeldSkill>, grants: seq<Grant>) {
    forall g :: g in grants ==> Covered(skills, g)
  }

  ghost predicate Covered(skills: map<int, HeldSkill>, g: Grant) {
    IsSkill(g.sn) && g.sn in skills ==>
      g.clazz in Scopes(skills[g.sn].sources) && g.scope <= Scopes(skills[g.sn].sources)[g.clazz]
  }

  lemma AddGrantFixed(skills: map<int, HeldSkill>, g: Grant)
    requires SkillsOk(skills) && g.clazz != NO_CLASS
    ensures AddGrant(skills, g) == skills <==> Covered(skills, g)
  {
    if IsSkill(g.sn) && g.sn in skills {
      AddMeaning(skills[g.sn].sources, g.clazz, g.scope);
      if Covered(skills, g) {
        assert skills[g.sn].(sources := skills[g.sn].sources) == skills[g.sn];
      } else {
        assert AddGrant(skills, g)[g.sn].sources != skills[g.sn].sources;
      }
    }
  }

  lemma {:induction false} SaturatedFixed(skills: map<int, HeldSkill>, grants: seq<Grant>)
    requires SkillsOk(skills) && GrantsOk(grants) && Saturated(skills, grants)
    ensures AddGrants(skills, grants) == skills
  {
    if grants == [] {
    } else {
      var init, g := grants[..|grants| - 1], grants[|grants| - 1];
      assert grants == init + [g];
      SaturatedFixed(skills, init);
      assert Covered(skills, g);
      AddGrantFixed(skills, g);
    }
  }

  lemma FoldSaturates(skills: map<int, HeldSkill>, grants: seq<Grant>)
    requires SkillsOk(skills) && GrantsOk(grants)
    ensures SkillsOk(AddGrants(skills, grants)) && Saturated(AddGrants(skills, grants), grants)
  {
    FoldOk(skills, grants);
    forall g | g in grants
      ensures Covered(AddGrants(skills, grants), g)
    {
      if IsSkill(g.sn) && g.sn in skills {
        FoldMeaning(skills, grants, g.sn);
      }
    }
  }

  lemma {:induction false} FoldOk(skills: map<int, HeldSkill>, grants: seq<Grant>)
    requires SkillsOk(skills) && GrantsOk(grants)
    ensures SkillsOk(AddGrants(skills, grants)) && AddGrants(skills, grants).Keys == skills.Keys
  {
    if grants == [] {
    } else {
      var init, g := grants[..|grants| - 1], grants[|grants| - 1];
      assert grants == init + [g];
      FoldOk(skills, init);
      if IsSkill(g.sn) && g.sn in skills {
        AddMeaning(AddGrants(skills, init)[g.sn].sources, g.clazz, g.scope);
      }
    }
  }

  // ----- rebuild_skill_sources

  lemma {:induction false} GrantsAreOk(t: Tables, k: Catalogue, p: Player, order: seq<ClassId>)
    requires NO_CLASS !in order
    ensures GrantsOk(GrantsOf(t, k, p, order))
    ensures forall g :: g in GrantsOf(t, k, p, order) ==> g.clazz in order
  {
    if order == [] {
    } else {
      var init, c := order[..|order| - 1], order[|order| - 1];
      assert order == init + [c];
      GrantsAreOk(t, k, p, init);
      if c in p.levels {
        ClassGrantsClass(t, c, p.levels[c].level, RewardsOf(k, c));
      }
    }
  }

  lemma {:induction false} ClassGrantsClass(t: Tables, c: ClassId, level: int, rewards: seq<Reward>)
    ensures forall g :: g in GrantsOfClass(t, c, level, rewards) ==> g.clazz == c
  {
    if rewards == [] {
    } else {
      ClassGrantsClass(t, c, level, rewards[..|rewards| - 1]);
      NamesGrantClass(t, c, GrantedNames(t, rewards[|rewards| - 1]), rewards[|rewards| - 1].scope);
    }
  }

  lemma {:induction false} NamesGrantClass(t: Tables, c: ClassId, names: seq<string>, scope: int)
    ensures forall g :: g in GrantsOfNames(t, c, names, scope) ==> g.clazz == c && g.scope == scope
    ensures forall i :: 0 <= i < |names| ==> Grant(c, SkillNo(t, names[i]), scope) in GrantsOfNames(t, c, names, scope)
  {
    if names == [] {
    } else {
      NamesGrantClass(t, c, names[..|names| - 1], scope);
    }
  }

  /**
   Rebuilding joins, for every held skill, the existing class-to-scope map with all direct and group grants
   of the joined classes up to their levels; it adds no skill and changes no rating.
   */
  lemma RebuildJoins(t: Tables, k: Catalogue, p: Player, sn: int)
    requires SkillsOk(p.skills) && NO_CLASS !in p.order && sn in p.skills && IsSkill(sn)
    ensures var q := Rebuild(t, k, p);
      && q.skills.Keys == p.skills.Keys && q.skills[sn].rating == p.skills[sn].rating && SkillsOk(q.skills)
      && IsJoin(Scopes(p.skills[sn].sources), GrantsOf(t, k, p, p.order), sn, Scopes(q.skills[sn].sources))
  {
    PlayerIsGrants(t, k, p, p.order);
    GrantsAreOk(t, k, p, p.order);
    FoldMeaning(p.skills, GrantsOf(t, k, p, p.order), sn);
  }

  /** Rebuilding changes nothing exactly when every grant is already covered. */
  lemma RebuildFixed(t: Tables, k: Catalogue, p: Player)
    requires SkillsOk(p.skills) && NO_CLASS !in p.order
    ensures Rebuild(t, k, p) == p <==> Saturated(p.skills, GrantsOf(t, k, p, p.order))
  {
    PlayerIsGrants(t, k, p, p.order);
    GrantsAreOk(t, k, p, p.order);
    FoldSaturates(p.skills, GrantsOf(t, k, p, p.order));
    if Saturated(p.skills, GrantsOf(t, k, p, p.order)) {
      SaturatedFixed(p.skills, GrantsOf(t, k, p, p.order));
    }
  }

  /** Rebuilding twice is rebuilding once. */
  lemma RebuildIdempotent(t: Tables, k: Catalogue, p: Player)
    requires SkillsOk(p.skills) && NO_CLASS !in p.order
    ensures Rebuild(t, k, Rebuild(t, k, p)) == Rebuild(t, k, p)
  {
    var q := Rebuild(t, k, p);
    PlayerIsGrants(t, k, p, p.order);
    GrantsAreOk(t, k, p, p.order);
    FoldSaturates(p.skills, GrantsOf(t, k, p, p.order));
    SameGrants(t, k, p, q, p.order);
    RebuildFixed(t, k, q);
  }

  // ----- Which grants a player's classes make, whatever the order

  /** The reward, within the level, names a skill to this effect. */
  ghost predicate RewardGrants(t: Tables, c: ClassId, level: int, r: Reward, g: Grant) {
    r.level <= level && exists name :: GivesName(t, r, name) && g == Grant(c, SkillNo(t, name), r.scope)
  }

  /** Some joined class has a reward to this effect. */
  ghost predicate PlayerGrants(t: Tables, k: Catalogue, p: Player, order: seq<ClassId>, g: Grant) {
    g.clazz in order && g.clazz in p.levels
    && exists r :: r in RewardsOf(k, g.clazz) && RewardGrants(t, g.clazz, p.levels[g.clazz].level, r, g)
  }

  ghost predicate NamesGrant(t: Tables, c: ClassId, names: seq<string>, scope: int, g: Grant) {
    exists name :: name in names && g == Grant(c, SkillNo(t, name), scope)
  }

  lemma OneMoreName(t: Tables, c: ClassId, init: seq<string>, last: string, scope: int, g: Grant)
    ensures NamesGrant(t, c, init + [last], scope, g) <==> NamesGrant(t, c, init, scope, g) || g == Grant(c, SkillNo(t, last), scope)
  {
    assert last in init + [last];
    if NamesGrant(t, c, init, scope, g) {
      var name :| name in init && g == Grant(c, SkillNo(t, name), scope);
      assert name in init + [last];
    }
  }

  lemma {:induction false} NamesMember(t: Tables, c: ClassId, names: seq<string>, scope: int, g: Grant)
    ensures g in GrantsOfNames(t, c, names, scope) <==> NamesGrant(t, c, names, scope, g)
  {
    if names == [] {
    } else {
      var init, last := names[..|names| - 1], names[|names| - 1];
      NamesMember(t, c, init, scope, g);
      OneMoreName(t, c, init, last, scope, g);
      assert names == init + [last];
    }
  }

  lemma {:induction false} ClassMember(t: Tables, c: ClassId, level: int, rewards: seq<Reward>, g: Grant)
    ensures g in GrantsOfClass(t, c, level, rewards) <==> exists r :: r in rewards && RewardGrants(t, c, level, r, g)
  {
    if rewards == [] {
    } else {
      var init, last := rewards[..|rewards| - 1], rewards[|rewards| - 1];
      ClassMember(t, c, level, init, g);
      NamesMember(t, c, GrantedNames(t, last), last.scope, g);
      forall name ensures name in GrantedNames(t, last) <==> GivesName(t, last, name) {
        GivenNames(t, last, name);
      }
      assert rewards == init + [last];
      assert g in GrantsOfReward(t, c, level, last) <==> RewardGrants(t, c, level, last, g);
    }
  }

  /** A grant is made exactly when a joined class has a reward to that effect within its level. */
  lemma {:induction false} GrantMember(t: Tables, k: Catalogue, p: Player, order: seq<ClassId>, g: Grant)
    ensures g in GrantsOf(t, k, p, order) <==> PlayerGrants(t, k, p, order, g)
  {
    if order == [] {
    } else {
      var init, c := order[..|order| - 1], order[|order| - 1];
      GrantMember(t, k, p, init, g);
      assert order == init + [c];
      if c in p.levels {
        ClassMember(t, c, p.levels[c].level, RewardsOf(k, c), g);
        ClassGrantsClass(t, c, p.levels[c].level, RewardsOf(k, c));
      }
    }
  }

  /** Two lists with the same elements; the one may be the other in any order. */
  ghost predicate SameElements<T(!new)>(a: seq<T>, b: seq<T>) {
    forall x :: x in a <==> x in b
  }

  /** The same game and player but for the order of a group's skills, of a class's rewards, and of the classes. */
  ghost predicate Reordered(t1: Tables, k1: Catalogue, p1: Player, t2: Tables, k2: Catalogue, p2: Player) {
    && t1.skills == t2.skills && t1.groups.Keys == t2.groups.Keys
    && (forall name :: name in t1.groups ==> SameElements(t1.groups[name], t2.groups[name]))
    && (forall c :: SameElements(RewardsOf(k1, c), RewardsOf(k2, c)))
    && p1.skills == p2.skills && SameElements(p1.order, p2.order) && p1.levels.Keys == p2.levels.Keys
    && (forall c :: c in p1.levels ==> p1.levels[c].level == p2.levels[c].level)
  }

  lemma ReorderedGrants(t1: Tables, k1: Catalogue, p1: Player, t2: Tables, k2: Catalogue, p2: Player, g: Grant)
    requires Reordered(t1, k1, p1, t2, k2, p2) && PlayerGrants(t1, k1, p1, p1.order, g)
    ensures PlayerGrants(t2, k2, p2, p2.order, g)
  {
    var c := g.clazz;
    assert SameElements(RewardsOf(k1, c), RewardsOf(k2, c));
    var r :| r in RewardsOf(k1, c) && RewardGrants(t1, c, p1.levels[c].level, r, g);
    assert Fold(r.name) in t1.groups ==> SameElements(t1.groups[Fold(r.name)], t2.groups[Fold(r.name)]);
    var name :| GivesName(t1, r, name) && g == Grant(c, SkillNo(t1, name), r.scope);
    assert GivesName(t2, r, name) && g == Grant(c, SkillNo(t2, name), r.scope);
    assert r in RewardsOf(k2, c) && RewardGrants(t2, c, p2.levels[c].level, r, g);
  }

  lemma ReorderedBack(t1: Tables, k1: Catalogue, p1: Player, t2: Tables, k2: Catalogue, p2: Player)
    requires Reordered(t1, k1, p1, t2, k2, p2)
    ensures Reordered(t2, k2, p2, t1, k1, p1)
  {
    forall name | name in t2.groups ensures SameElements(t2.groups[name], t1.groups[name]) {
      assert SameElements(t1.groups[name], t2.groups[name]);
    }
    forall c ensures SameElements(RewardsOf(k2, c), RewardsOf(k1, c)) {
      assert SameElements(RewardsOf(k1, c), RewardsOf(k2, c));
    }
  }

  // ----- What rebuilding takes away

  /** The broadest scope at which some grant gives skill sn to class c. */
  function WidestGrant(grants: seq<Grant>, sn: int, c: ClassId): Option<int> {
    if grants == [] then None
    else
      var g, widest := grants[|grants| - 1], WidestGrant(grants[..|grants| - 1], sn, c);
      if g.sn == sn && g.clazz == c && (widest.None? || g.scope > widest.value) then Some(g.scope) else widest
  }

  lemma {:induction false} WidestIsMost(grants: seq<Grant>, sn: int, c: ClassId)
    ensures var widest := WidestGrant(grants, sn, c);
      && (forall g :: g in grants && g.sn == sn && g.clazz == c ==> widest.Some? && g.scope <= widest.value)
      && (widest.Some? ==> Grant(c, sn, widest.value) in grants)
  {
    if grants == [] {
    } else {
      var init, last := grants[..|grants| - 1], grants[|grants| - 1];
      WidestIsMost(init, sn, c);
      assert forall g :: g in grants <==> g in init || g == last;
    }
  }

  /** The scope a class ends up with: the broader of its node and of what is granted. */
  function FinalScope(before: map<ClassId, int>, grants: seq<Grant>, sn: int, c: ClassId): Option<int> {
    var widest := WidestGrant(grants, sn, c);
    if c in before && (widest.None? || before[c] >= widest.value) then Some(before[c]) else widest
  }

  lemma JoinIsFinal(before: map<ClassId, int>, grants: seq<Grant>, sn: int, after: map<ClassId, int>, c: ClassId)
    requires IsJoin(before, grants, sn, after)
    ensures if c in after then FinalScope(before, grants, sn, c) == Some(after[c]) else FinalScope(before, grants, sn, c) == None
  {
    WidestIsMost(grants, sn, c);
    var widest := WidestGrant(grants, sn, c);
    if c in after && widest.Some? {
      assert Grant(c, sn, widest.value) in grants;
    }
  }

  ghost predicate Granted(grants: seq<Grant>, sn: int) {
    exists g :: g in grants && g.sn == sn
  }

  /** No class with a node or a grant for the skill covers the current class, at the broader of the two scopes. */
  ghost predicate NobodyCovers(classes: map<ClassId, ClassKind>, current: ClassId, before: map<ClassId, int>,
                               grants: seq<Grant>, sn: int)
  {
    forall c :: FinalScope(before, grants, sn, c).Some? ==>
      !Covers(classes, current, c, FinalScope(before, grants, sn, c).value)
  }

  /**
   Rebuilding takes a held skill away from the current class exactly when no token grants it, some joined class
   names it, nobody covers it in the end, and it was usable before: for having no source at all, or by a node.
   */
  lemma RebuildLoses(t: Tables, k: Catalogue, p: Player, sn: int, classes: map<ClassId, ClassKind>, current: ClassId,
                     token: bool)
    requires SkillsOk(p.skills) && NO_CLASS !in p.order && sn in p.skills && IsSkill(sn)
    ensures var before, grants, q := p.skills[sn].sources, GrantsOf(t, k, p, p.order), Rebuild(t, k, p);
      sn in q.skills && (
        Available(classes, current, before, token) && !Available(classes, current, q.skills[sn].sources, token)
        <==> && !token && Granted(grants, sn) && NobodyCovers(classes, current, Scopes(before), grants, sn)
             && (before == [] || AnyCovers(classes, current, before)))
  {
    var before, grants, q := p.skills[sn].sources, GrantsOf(t, k, p, p.order), Rebuild(t, k, p);
    RebuildJoins(t, k, p, sn);
    var after := q.skills[sn].sources;
    FinalCovers(classes, current, Scopes(before), grants, sn, after);
    ScopesKeys(before);
    ScopesKeys(after);
    if Granted(grants, sn) {
      var g :| g in grants && g.sn == sn;
      assert g.clazz in Scopes(after);
    } else {
      JoinUnique(Scopes(before), grants, grants, sn, Scopes(before), Scopes(after));
      CoversByScopes(classes, current, before);
      CoversByScopes(classes, current, after);
    }
    EmptyByScopes(before);
    EmptyByScopes(after);
  }

  lemma EmptyByScopes(sources: seq<Source>)
    ensures sources == [] <==> Scopes(sources) == map[]
  {
    if sources != [] {
      assert sources[0].clazz in Scopes(sources);
    }
  }

  lemma FinalCovers(classes: map<ClassId, ClassKind>, current: ClassId, before: map<ClassId, int>, grants: seq<Grant>,
                    sn: int, after: seq<Source>)
    requires OnePerClass(after) && IsJoin(before, grants, sn, Scopes(after))
    ensures AnyCovers(classes, current, after) <==> !NobodyCovers(classes, current, before, grants, sn)
  {
    CoversByScopes(classes, current, after);
    ScopesKeys(after);
    forall c
      ensures if c in Scopes(after) then FinalScope(before, grants, sn, c) == Some(Scopes(after)[c])
              else FinalScope(before, grants, sn, c) == None
    {
      JoinIsFinal(before, grants, sn, Scopes(after), c);
    }
    var m := Scopes(after);
    if c :| c in m && Covers(classes, current, c, m[c]) {
      assert FinalScope(before, grants, sn, c).Some?;
    }
    if !NobodyCovers(classes, current, before, grants, sn) {
      var c :| FinalScope(before, grants, sn, c).Some? && Covers(classes, current, c, FinalScope(before, grants, sn, c).value);
      var i :| 0 <= i < |after| && after[i].clazz == c;
      assert after[i].scope == m[c] && Covers(classes, current, after[i].clazz, after[i].scope);
    }
  }

  /** A skill with sources is lost only to combat scopes: each class that covered it is granted it at that scope. */
  lemma LostToCombat(classes: map<ClassId, ClassKind>, current: ClassId, before: map<ClassId, int>, grants: seq<Grant>,
                     sn: int, c: ClassId)
    requires NobodyCovers(classes, current, before, grants, sn) && c in before && Covers(classes, current, c, before[c])
    requires SCOPE_CLASS <= before[c] && forall g :: g in grants ==> SCOPE_CLASS <= g.scope <= SCOPE_ALWAYS
    ensures WidestGrant(grants, sn, c) == Some(SCOPE_COMBAT) && before[c] < SCOPE_COMBAT
    ensures c in classes && !(current in classes && classes[c].combative && classes[current].combative)
  {
    WidestIsMost(grants, sn, c);
    assert FinalScope(before, grants, sn, c).Some?;
  }

  lemma {:induction false} SameGrants(t: Tables, k: Catalogue, p: Player, q: Player, order: seq<ClassId>)
    requires forall c :: c in order ==> (c in p.levels <==> c in q.levels) && (c in p.levels ==> p.levels[c].level == q.levels[c].level)
    ensures GrantsOf(t, k, p, order) == GrantsOf(t, k, q, order)
  {
    if order == [] {
    } else {
      SameGrants(t, k, p, q, order[..|order| - 1]);
    }
  }

  /**
   What counts is the set of grants: two
   characters with the same skills whose classes grant the same facts rebuild to the same maps.
   */
  lemma RebuildBySet(t1: Tables, k1: Catalogue, p1: Player, t2: Tables, k2: Catalogue, p2: Player, sn: int)
    requires SkillsOk(p1.skills) && p1.skills == p2.skills && sn in p1.skills && IsSkill(sn)
    requires NO_CLASS !in p1.order && NO_CLASS !in p2.order
    requires forall g :: g in GrantsOf(t1, k1, p1, p1.order) <==> g in GrantsOf(t2, k2, p2, p2.order)
    ensures var q1, q2 := Rebuild(t1, k1, p1), Rebuild(t2, k2, p2);
      sn in q1.skills && sn in q2.skills && Scopes(q1.skills[sn].sources) == Scopes(q2.skills[sn].sources)
  {
    RebuildJoins(t1, k1, p1, sn);
    RebuildJoins(t2, k2, p2, sn);
    JoinUnique(Scopes(p1.skills[sn].sources), GrantsOf(t1, k1, p1, p1.order), GrantsOf(t2, k2, p2, p2.order), sn,
               Scopes(Rebuild(t1, k1, p1).skills[sn].sources), Scopes(Rebuild(t2, k2, p2).skills[sn].sources));
  }

  /** Rebuilding does not depend on the order of the classes, of their rewards or of the skills of a group. */
  lemma RebuildOrderFree(t1: Tables, k1: Catalogue, p1: Player, t2: Tables, k2: Catalogue, p2: Player, sn: int)
    requires Reordered(t1, k1, p1, t2, k2, p2)
    requires SkillsOk(p1.skills) && sn in p1.skills && IsSkill(sn) && NO_CLASS !in p1.order
    ensures var q1, q2 := Rebuild(t1, k1, p1), Rebuild(t2, k2, p2);
      sn in q1.skills && sn in q2.skills && Scopes(q1.skills[sn].sources) == Scopes(q2.skills[sn].sources)
  {
    ReorderedBack(t1, k1, p1, t2, k2, p2);
    forall g
      ensures g in GrantsOf(t1, k1, p1, p1.order) <==> g in GrantsOf(t2, k2, p2, p2.order)
    {
      GrantMember(t1, k1, p1, p1.order, g);
      GrantMember(t2, k2, p2, p2.order, g);
      if PlayerGrants(t1, k1, p1, p1.order, g) {
        ReorderedGrants(t1, k1, p1, t2, k2, p2, g);
      }
      if PlayerGrants(t2, k2, p2, p2.order, g) {
        ReorderedGrants(t2, k2, p2, t1, k1, p1, g);
      }
    }
    RebuildBySet(t1, k1, p1, t2, k2, p2, sn);
  }

  // ----- Rebuilding after everything was applied

  /** The skill is held and its node of the class is at least as broad as granted. */
  ghost predicate Given(skills: map<int, HeldSkill>, g: Grant) {
    IsSkill(g.sn) ==>
      g.sn in skills && g.clazz in Scopes(skills[g.sn].sources) && g.scope <= Scopes(skills[g.sn].sources)[g.clazz]
  }

  /** Skills are only gained and nodes only added or broadened. */
  ghost predicate Grows(a: map<int, HeldSkill>, b: map<int, HeldSkill>) {
    && SkillsOk(b)
    && forall sn :: sn in a ==> sn in b && WiderMap(Scopes(a[sn].sources), Scopes(b[sn].sources))
  }

  ghost predicate WiderMap(m: map<ClassId, int>, n: map<ClassId, int>) {
    forall c :: c in m ==> c in n && m[c] <= n[c]
  }

  lemma GrowsTrans(a: map<int, HeldSkill>, b: map<int, HeldSkill>, c: map<int, HeldSkill>)
    requires Grows(a, b) && Grows(b, c)
    ensures Grows(a, c)
  {
  }

  lemma GivenStays(a: map<int, HeldSkill>, b: map<int, HeldSkill>, g: Grant)
    requires Grows(a, b) && Given(a, g)
    ensures Given(b, g)
  {
  }

  lemma ApplySkillGives(t: Tables, skills: map<int, HeldSkill>, c: ClassId, name: string, rating: int, scope: int)
    requires SkillsOk(skills) && c != NO_CLASS
    ensures var after := ApplySkill(t, skills, c, name, rating, scope);
      Grows(skills, after) && Given(after, Grant(c, SkillNo(t, name), scope))
  {
    var sn := SkillNo(t, name);
    if IsSkill(sn) {
      var h := if sn in skills then skills[sn] else Held([], 0);
      AddMeaning(h.sources, c, scope);
    }
  }

  lemma {:induction false} ApplyNamesGives(t: Tables, skills: map<int, HeldSkill>, c: ClassId, names: seq<string>, scope: int)
    requires SkillsOk(skills) && c != NO_CLASS
    ensures var after := ApplyNames(t, skills, c, names, scope);
      Grows(skills, after) && forall g :: g in GrantsOfNames(t, c, names, scope) ==> Given(after, g)
  {
    if names == [] {
    } else {
      var init, name := names[..|names| - 1], names[|names| - 1];
      ApplyNamesGives(t, skills, c, init, scope);
      var mid, after := ApplyNames(t, skills, c, init, scope), ApplyNames(t, skills, c, names, scope);
      ApplySkillGives(t, mid, c, name, 1, scope);
      GrowsTrans(skills, mid, after);
      forall g | g in GrantsOfNames(t, c, names, scope)
        ensures Given(after, g)
      {
        if g in GrantsOfNames(t, c, init, scope) {
          GivenStays(mid, after, g);
        }
      }
    }
  }

  /** Applying a reward gives everything it grants. */
  lemma ApplyToSkillsGives(t: Tables, skills: map<int, HeldSkill>, c: ClassId, r: Reward)
    requires SkillsOk(skills) && c != NO_CLASS
    ensures var after := ApplyToSkills(t, skills, c, r);
      Grows(skills, after) && forall g :: g in GrantsOfNames(t, c, GrantedNames(t, r), r.scope) ==> Given(after, g)
  {
    match r.kind
    case Skill =>
      ApplySkillGives(t, skills, c, r.name, r.value, r.scope);
      assert [r.name][..|[r.name]| - 1] == [];
      assert GrantsOfNames(t, c, [r.name], r.scope) == [Grant(c, SkillNo(t, r.name), r.scope)];
    case SkillGroup =>
      ApplyNamesGives(t, skills, c, GroupSkills(t, r.name), r.scope);
    case Bonus =>
    case Other(_) =>
  }

  ghost predicate DistinctKeys(rewards: seq<Reward>) {
    forall i, j :: 0 <= i < j < |rewards| ==> KeyOf(rewards[i]) != KeyOf(rewards[j])
  }

  /** Nothing of the class has been recorded, its rewards have distinct keys and levels from 1. */
  ghost predicate FirstTime(applied: seq<Key>, rewards: seq<Reward>) {
    && DistinctKeys(rewards)
    && forall i :: 0 <= i < |rewards| ==> KeyOf(rewards[i]) !in applied && rewards[i].level >= 1
  }

  lemma ApplyRewardGrows(t: Tables, s: Sheet, c: ClassId, r: Reward, from: int, to: int)
    requires SkillsOk(s.skills) && c != NO_CLASS
    ensures Grows(s.skills, ApplyReward(t, s, c, r, from, to).skills)
  {
    ApplyToSkillsGives(t, s.skills, c, r);
  }

  lemma FirstTimeInit(applied: seq<Key>, rewards: seq<Reward>, to: int)
    requires rewards != [] && FirstTime(applied, rewards)
    ensures FirstTime(applied, rewards[..|rewards| - 1])
    ensures KeyOf(rewards[|rewards| - 1]) !in LedgerAfter(applied, rewards[..|rewards| - 1], 1, to)
  {
    var init, last := rewards[..|rewards| - 1], rewards[|rewards| - 1];
    assert forall i :: 0 <= i < |init| ==> init[i] == rewards[i];
    LedgerKeys(applied, init, 1, to, KeyOf(last));
  }

  lemma {:induction false} ApplyRewardsGives(t: Tables, s: Sheet, c: ClassId, rewards: seq<Reward>, level: int)
    requires SkillsOk(s.skills) && c != NO_CLASS && FirstTime(s.applied, rewards)
    ensures var after := ApplyRewards(t, s, c, rewards, 1, level).skills;
      Grows(s.skills, after) && forall g :: g in GrantsOfClass(t, c, level, rewards) ==> Given(after, g)
  {
    if rewards == [] {
    } else {
      var init, r := rewards[..|rewards| - 1], rewards[|rewards| - 1];
      FirstTimeInit(s.applied, rewards, level);
      ApplyRewardsGives(t, s, c, init, level);
      var mid, after := ApplyRewards(t, s, c, init, 1, level), ApplyRewards(t, s, c, rewards, 1, level);
      LedgerOfApply(t, s, c, init, 1, level);
      ApplyRewardGrows(t, mid, c, r, 1, level);
      ApplyToSkillsGives(t, mid.skills, c, r);
      GrowsTrans(s.skills, mid.skills, after.skills);
      forall g | g in GrantsOfClass(t, c, level, rewards)
        ensures Given(after.skills, g)
      {
        if g in GrantsOfClass(t, c, level, init) {
          GivenStays(mid.skills, after.skills, g);
        }
      }
    }
  }

  /** Applying every joined class from level 1, in list order. */
  function JoinAll(t: Tables, k: Catalogue, p: Player, order: seq<ClassId>): Player {
    if order == [] then p
    else
      var c, q := order[|order| - 1], JoinAll(t, k, p, order[..|order| - 1]);
      if c in q.levels then JoinRange(t, k, q, c, 1, q.levels[c].level) else q
  }

  lemma {:induction false} JoinAllKeeps(t: Tables, k: Catalogue, p: Player, order: seq<ClassId>)
    ensures var q := JoinAll(t, k, p, order);
      && q.levels.Keys == p.levels.Keys && q.order == p.order
      && (forall c :: c in p.levels ==> q.levels[c].level == p.levels[c].level)
      && (forall c :: c in p.levels && c !in order ==> q.levels[c] == p.levels[c])
  {
    if order == [] {
    } else {
      var init := order[..|order| - 1];
      assert order == init + [order[|order| - 1]];
      JoinAllKeeps(t, k, p, init);
    }
  }

  lemma {:induction false} JoinAllGives(t: Tables, k: Catalogue, p: Player, order: seq<ClassId>)
    requires SkillsOk(p.skills) && NO_CLASS !in order && NoDup(order)
    requires forall c :: c in order && c in p.levels ==> FirstTime(p.levels[c].applied, RewardsOf(k, c))
    ensures var q := JoinAll(t, k, p, order);
      Grows(p.skills, q.skills) && forall g :: g in GrantsOf(t, k, p, order) ==> Given(q.skills, g)
  {
    if order == [] {
    } else {
      var init, c := order[..|order| - 1], order[|order| - 1];
      assert order == init + [c] && c !in init;
      JoinAllGives(t, k, p, init);
      JoinAllKeeps(t, k, p, init);
      var mid, q := JoinAll(t, k, p, init), JoinAll(t, k, p, order);
      if c in p.levels {
        ApplyRewardsGives(t, Sheet(mid.skills, mid.pools, mid.levels[c].applied), c, RewardsOf(k, c), p.levels[c].level);
        GrowsTrans(p.skills, mid.skills, q.skills);
        forall g | g in GrantsOf(t, k, p, order)
          ensures Given(q.skills, g)
        {
          if g in GrantsOf(t, k, p, init) {
            GivenStays(mid.skills, q.skills, g);
          }
        }
      }
    }
  }

  /** After a first-time application of every joined class from level 1, rebuilding changes nothing at all. */
  lemma RebuildAfterApply(t: Tables, k: Catalogue, p: Player)
    requires SkillsOk(p.skills) && NO_CLASS !in p.order && NoDup(p.order)
    requires forall c :: c in p.order && c in p.levels ==> FirstTime(p.levels[c].applied, RewardsOf(k, c))
    ensures Rebuild(t, k, JoinAll(t, k, p, p.order)) == JoinAll(t, k, p, p.order)
  {
    var q := JoinAll(t, k, p, p.order);
    JoinAllGives(t, k, p, p.order);
    JoinAllKeeps(t, k, p, p.order);
    SameGrants(t, k, p, q, p.order);
    forall g | g in GrantsOf(t, k, q, q.order)
      ensures Covered(q.skills, g)
    {
      assert Given(q.skills, g);
    }
    RebuildFixed(t, k, q);
  }

  // ----- Revoking

  /** Some revocable reward of the class names the skill. */
  ghost predicate Revokes(t: Tables, r: Reward, sn: int) {
    r.revokeOnLeave && exists name :: GivesName(t, r, name) && SkillNo(t, name) == sn
  }

  lemma RevokesByNames(t: Tables, r: Reward, sn: int)
    ensures Revokes(t, r, sn) <==> r.revokeOnLeave && NamesSkill(t, GrantedNames(t, r), sn)
  {
    forall name ensures name in GrantedNames(t, r) <==> GivesName(t, r, name) {
      GivenNames(t, r, name);
    }
  }

  ghost predicate AnyRevokes(t: Tables, rewards: seq<Reward>, sn: int) {
    exists i :: 0 <= i < |rewards| && Revokes(t, rewards[i], sn)
  }

  /** What revoking leaves of skill sn: untouched, or without the class's node, or gone with its last node. */
  ghost predicate RevokedFrom(before: map<int, HeldSkill>, after: map<int, HeldSkill>, c: ClassId, sn: int, hit: bool) {
    if sn !in before then sn !in after
    else if !hit then sn in after && after[sn] == before[sn]
    else if RemoveSource(before[sn].sources, c) == [] then sn !in after
    else sn in after && after[sn] == before[sn].(sources := RemoveSource(before[sn].sources, c))
  }

  lemma {:induction false} RemoveTwice(sources: seq<Source>, c: ClassId)
    requires SourcesOk(sources)
    ensures RemoveSource(RemoveSource(sources, c), c) == RemoveSource(sources, c)
  {
    RemoveMembers(sources, c);
    var left := RemoveSource(sources, c);
    assert forall i :: 0 <= i < |left| ==> left[i] in left;
    RemoveAbsent(left, c);
  }

  lemma RevokeSkillOne(t: Tables, skills: map<int, HeldSkill>, c: ClassId, name: string, sn: int)
    ensures RevokedFrom(skills, RevokeSkill(t, skills, c, name), c, sn, IsSkill(sn) && SkillNo(t, name) == sn)
  {
    if sn in skills {
      assert skills[sn].(sources := skills[sn].sources) == skills[sn];
    }
  }

  lemma RevokedChain(a: map<int, HeldSkill>, b: map<int, HeldSkill>, d: map<int, HeldSkill>, c: ClassId, sn: int, h1: bool, h2: bool)
    requires SkillsOk(a) && RevokedFrom(a, b, c, sn, h1) && RevokedFrom(b, d, c, sn, h2)
    ensures RevokedFrom(a, d, c, sn, h1 || h2)
  {
    if sn in a {
      RemoveTwice(a[sn].sources, c);
    }
  }

  ghost predicate NamesSkill(t: Tables, names: seq<string>, sn: int) {
    exists i :: 0 <= i < |names| && SkillNo(t, names[i]) == sn
  }

  lemma NamesSkillMore(t: Tables, init: seq<string>, name: string, sn: int)
    ensures NamesSkill(t, init + [name], sn) <==> NamesSkill(t, init, sn) || SkillNo(t, name) == sn
  {
    var all := init + [name];
    assert all[|init|] == name;
    if NamesSkill(t, init, sn) {
      var i :| 0 <= i < |init| && SkillNo(t, init[i]) == sn;
      assert all[i] == init[i];
    }
  }

  lemma {:induction false} RevokeNamesOne(t: Tables, skills: map<int, HeldSkill>, c: ClassId, names: seq<string>, sn: int)
    requires SkillsOk(skills)
    ensures RevokedFrom(skills, RevokeNames(t, skills, c, names), c, sn, IsSkill(sn) && NamesSkill(t, names, sn))
  {
    if names == [] {
    } else {
      var init, name := names[..|names| - 1], names[|names| - 1];
      var mid := RevokeNames(t, skills, c, init);
      RevokeNamesOne(t, skills, c, init, sn);
      RevokeSkillOne(t, mid, c, name, sn);
      RevokedChain(skills, mid, RevokeNames(t, skills, c, names), c, sn,
                   IsSkill(sn) && NamesSkill(t, init, sn), IsSkill(sn) && SkillNo(t, name) == sn);
      assert names == init + [name];
      NamesSkillMore(t, init, name, sn);
    }
  }

  lemma RevokeSkillOk(t: Tables, skills: map<int, HeldSkill>, c: ClassId, name: string)
    requires SkillsOk(skills)
    ensures SkillsOk(RevokeSkill(t, skills, c, name))
  {
    var sn := SkillNo(t, name);
    if sn in skills {
      RemoveMeaning(skills[sn].sources, c);
    }
  }

  lemma {:induction false} RevokeNamesOk(t: Tables, skills: map<int, HeldSkill>, c: ClassId, names: seq<string>)
    requires SkillsOk(skills)
    ensures SkillsOk(RevokeNames(t, skills, c, names))
  {
    if names == [] {
    } else {
      RevokeNamesOk(t, skills, c, names[..|names| - 1]);
      RevokeSkillOk(t, RevokeNames(t, skills, c, names[..|names| - 1]), c, names[|names| - 1]);
    }
  }

  lemma {:induction false} RevokeRewardsOk(t: Tables, s: Sheet, c: ClassId, rewards: seq<Reward>)
    requires SkillsOk(s.skills)
    ensures SkillsOk(RevokeRewards(t, s, c, rewards).skills)
  {
    if rewards == [] {
    } else {
      var r, mid := rewards[|rewards| - 1], RevokeRewards(t, s, c, rewards[..|rewards| - 1]);
      RevokeRewardsOk(t, s, c, rewards[..|rewards| - 1]);
      RevokeSkillOk(t, mid.skills, c, r.name);
      RevokeNamesOk(t, mid.skills, c, GroupSkills(t, r.name));
    }
  }

  lemma RevokeRewardOne(t: Tables, skills: map<int, HeldSkill>, c: ClassId, r: Reward, sn: int)
    requires SkillsOk(skills)
    ensures RevokedFrom(skills, RevokeFromSkills(t, skills, c, r), c, sn, IsSkill(sn) && Revokes(t, r, sn))
  {
    RevokesByNames(t, r, sn);
    if r.revokeOnLeave {
      match r.kind
      case Skill =>
        RevokeSkillOne(t, skills, c, r.name, sn);
        assert SkillNo(t, GrantedNames(t, r)[0]) == SkillNo(t, r.name);
      case SkillGroup =>
        RevokeNamesOne(t, skills, c, GroupSkills(t, r.name), sn);
        assert GrantedNames(t, r) == GroupSkills(t, r.name);
      case Bonus =>
      case Other(_) =>
    }
  }

  /**
   Leaving a class: exactly the skills named by its revocable rewards lose this class's node; a skill goes
   exactly when that was its last node, and everything else about the skills stays.
   */
  lemma {:induction false} RevokeMeaning(t: Tables, s: Sheet, c: ClassId, rewards: seq<Reward>, sn: int)
    requires SkillsOk(s.skills)
    ensures RevokedFrom(s.skills, RevokeRewards(t, s, c, rewards).skills, c, sn, IsSkill(sn) && AnyRevokes(t, rewards, sn))
  {
    if rewards == [] {
    } else {
      var init, r := rewards[..|rewards| - 1], rewards[|rewards| - 1];
      RevokeMeaning(t, s, c, init, sn);
      RevokeRewardsOk(t, s, c, init);
      var mid := RevokeRewards(t, s, c, init);
      RevokeRewardOne(t, mid.skills, c, r, sn);
      var h1, h2 := IsSkill(sn) && AnyRevokes(t, init, sn), IsSkill(sn) && Revokes(t, r, sn);
      RevokedChain(s.skills, mid.skills, RevokeRewards(t, s, c, rewards).skills, c, sn, h1, h2);
      AnyRevokesLast(t, rewards, sn);
    }
  }

  lemma AnyRevokesLast(t: Tables, rewards: seq<Reward>, sn: int)
    requires rewards != []
    ensures AnyRevokes(t, rewards, sn) <==>
      AnyRevokes(t, rewards[..|rewards| - 1], sn) || Revokes(t, rewards[|rewards| - 1], sn)
  {
    var init := rewards[..|rewards| - 1];
    if AnyRevokes(t, init, sn) {
      var i :| 0 <= i < |init| && Revokes(t, init[i], sn);
      assert Revokes(t, rewards[i], sn);
    }
    if AnyRevokes(t, rewards, sn) {
      var i :| 0 <= i < |rewards| && Revokes(t, rewards[i], sn);
      assert i < |init| ==> init[i] == rewards[i];
    }
  }

  /** A skill is never taken away from the current class while another class's node covers it. */
  lemma RevokeKeepsOthers(t: Tables, s: Sheet, c: ClassId, rewards: seq<Reward>, sn: int,
                          classes: map<ClassId, ClassKind>, current: ClassId, i: nat)
    requires SkillsOk(s.skills) && sn in s.skills && i < |s.skills[sn].sources|
    requires s.skills[sn].sources[i].clazz != c
    requires Covers(classes, current, s.skills[sn].sources[i].clazz, s.skills[sn].sources[i].scope)
    ensures var after := RevokeRewards(t, s, c, rewards).skills;
      sn in after && AnyCovers(classes, current, after[sn].sources)
  {
    RevokeMeaning(t, s, c, rewards, sn);
    RemovalKeepsCover(classes, current, s.skills[sn].sources, c);
  }

  /** A skill held at fifty without a class source is gone after a class that also grants it is left. */
  lemma SourcelessSkillGone()
    ensures var t := Tables(map["hide" := 5], map[]);
      var granted := ApplySkill(t, map[5 := Held([], 50)], 1, "hide", 1, SCOPE_CLASS);
      5 in granted && 5 !in RevokeSkill(t, granted, 1, "hide")
  {
    assert AddSource([], 1, SCOPE_CLASS) == [Source(1, SCOPE_CLASS)];
    assert RemoveSource([Source(1, SCOPE_CLASS)], 1) == [];
  }
}
