/** The class reward code in place: skill entries are objects whose lists are spliced, pools and ledgers are fields. */
module RewardCharacter {
  import opened Strings
  import opened SkillSources
  import opened RewardModel
  import opened RewardLedger

  /** apply_skill_reward as the three updates it makes: insert if missing, add the source, make usable. */
  lemma ApplySkillSteps(t: Tables, skills: map<int, HeldSkill>, c: ClassId, name: string, rating: int, scope: int)
    requires IsSkill(SkillNo(t, name))
    ensures var sn := SkillNo(t, name);
      var inserted := if sn in skills then skills else skills[sn := Held([], 0)];
      var sourced := inserted[sn := inserted[sn].(sources := AddSource(inserted[sn].sources, c, scope))];
      sourced[sn := Usable(sourced[sn], rating)] == ApplySkill(t, skills, c, name, rating, scope)
  {
  }

  /** Revoking one skill as the two updates it makes: take the source off, drop the entry with its last source. */
  lemma RevokeSkillSteps(t: Tables, skills: map<int, HeldSkill>, c: ClassId, name: string)
    requires IsSkill(SkillNo(t, name)) && SkillNo(t, name) in skills
    ensures var sn := SkillNo(t, name);
      var left := RemoveSource(skills[sn].sources, c);
      var unsourced := skills[sn := skills[sn].(sources := left)];
      RevokeSkill(t, skills, c, name) == if left == [] then unsourced - {sn} else unsourced
  {
  }

  class Character {
    const tables: Tables
    const catalogue: Catalogue
    var skills: map<int, SkillEntry>
    ghost var entries: set<SkillEntry>  // at least the entry objects of the skill list
    var pools: Pools
    var order: seq<ClassId>
    var levels: map<ClassId, ClassLevel>
    var current: ClassId

    constructor (tables: Tables, catalogue: Catalogue, pools: Pools)
      ensures Valid() && Skills() == map[] && this.tables == tables && this.catalogue == catalogue
      ensures View() == Player(map[], pools, [], map[], NO_CLASS)
    {
      this.tables, this.catalogue, this.pools := tables, catalogue, pools;
      skills, entries, order, levels, current := map[], {}, [], map[], NO_CLASS;
    }

    /** Every entry keeps its cache in step with its list, and no two skills share an entry. */
    ghost predicate Valid()
      reads this, entries
    {
      && (forall sn :: sn in skills ==> skills[sn] in entries && skills[sn].Valid())
      && (forall a, b :: a in skills && b in skills && a != b ==> skills[a] != skills[b])
    }

    ghost function Skills(): map<int, HeldSkill>
      requires Valid()
      reads this, entries
    {
      map sn | sn in skills :: Held(skills[sn].sources, skills[sn].rating)
    }

    ghost function View(): Player
      requires Valid()
      reads this, entries
    {
      Player(Skills(), pools, order, levels, current)
    }

    // ----- Skills

    /** Put a class source on the entry of a held skill. */
    method AddSourceTo(sn: int, c: ClassId, scope: int)
      requires Valid() && sn in skills && c != NO_CLASS
      modifies skills[sn]
      ensures Valid()
      ensures Skills() == old(Skills())[sn := old(Skills())[sn].(sources := AddSource(old(Skills())[sn].sources, c, scope))]
    {
      skills[sn].Add(c, scope);
      assert forall x :: x in skills && x != sn ==> skills[x] != skills[sn];
      assert Skills()[sn] == old(Skills())[sn].(sources := skills[sn].sources);
    }

    /** Insert an entry for a skill that is not held yet. */
    method InsertSkill(sn: int)
      requires Valid() && sn !in skills
      modifies this`skills, this`entries
      ensures Valid() && Skills() == old(Skills())[sn := Held([], 0)]
      ensures sn in skills && fresh(skills[sn]) && entries == old(entries) + {skills[sn]}
    {
      var entry := new SkillEntry();
      skills, entries := skills[sn := entry], entries + {entry};
    }

    method MakeUsable(sn: int, rating: int)
      requires Valid() && sn in skills
      modifies skills[sn]
      ensures Valid() && Skills() == old(Skills())[sn := Usable(old(Skills())[sn], rating)]
    {
      if rating > 0 && skills[sn].rating <= 0 {
        skills[sn].rating := 1;
      }
      assert forall x :: x in skills && x != sn ==> skills[x] != skills[sn];
      assert Skills()[sn] == Usable(old(Skills())[sn], rating);
    }

    /** apply_skill_reward */
    method ApplySkillReward(c: ClassId, name: string, rating: int, scope: int)
      requires Valid() && c != NO_CLASS
      modifies this`skills, this`entries, entries
      ensures Valid() && Skills() == ApplySkill(tables, old(Skills()), c, name, rating, scope)
      ensures old(entries) <= entries && fresh(entries - old(entries))
    {
      var sn := SkillNo(tables, name);
      if !IsSkill(sn) { return; }
      ApplySkillSteps(tables, Skills(), c, name, rating, scope);
      if sn !in skills {
        InsertSkill(sn);
      }
      AddSourceTo(sn, c, scope);
      MakeUsable(sn, rating);
    }

    /** The skills of a group, one after the other; the loop of apply_group_reward. */
    method ApplySkillNames(c: ClassId, names: seq<string>, scope: int)
      requires Valid() && c != NO_CLASS
      modifies this`skills, this`entries, entries
      ensures Valid() && Skills() == ApplyNames(tables, old(Skills()), c, names, scope)
      ensures old(entries) <= entries && fresh(entries - old(entries))
    {
      for i := 0 to |names|
        invariant Valid() && Skills() == ApplyNames(tables, old(Skills()), c, names[..i], scope)
        invariant old(entries) <= entries && fresh(entries - old(entries))
      {
        assert names[..i + 1][..i] == names[..i];
        ApplySkillReward(c, names[i], 1, scope);
      }
      assert names[..|names|] == names;
    }

    /** The skill half of apply_single_reward. */
    method ApplySkillsOf(c: ClassId, r: Reward)
      requires Valid() && c != NO_CLASS
      modifies this`skills, this`entries, entries
      ensures Valid() && Skills() == ApplyToSkills(tables, old(Skills()), c, r)
      ensures old(entries) <= entries && fresh(entries - old(entries))
    {
      match r.kind {
        case Skill => ApplySkillReward(c, r.name, r.value, r.scope);
        case SkillGroup => ApplySkillNames(c, GroupSkills(tables, r.name), r.scope);
        case Bonus =>
        case Other(_) =>
      }
    }

    /** has_reward_been_applied */
    method HasRewardBeenApplied(c: ClassId, r: Reward) returns (yes: bool)
      requires c in levels
      ensures yes == IsApplied(levels[c].applied, r)
    {
      var applied := levels[c].applied;
      for i := 0 to |applied|
        invariant KeyOf(r) !in applied[..i]
      {
        if applied[i].level == r.level && applied[i].kind == r.kind && applied[i].name == Fold(r.name) { return true; }
      }
      yes := false;
    }

    /** mark_reward_applied */
    method MarkRewardApplied(c: ClassId, r: Reward)
      requires c in levels
      modifies this`levels
      ensures levels == old(levels)[c := old(levels)[c].(applied := old(levels)[c].applied + [KeyOf(r)])]
      ensures IsApplied(levels[c].applied, r)
      ensures forall q :: KeyOf(q) != KeyOf(r) ==>
        (IsApplied(levels[c].applied, q) <==> IsApplied(old(levels)[c].applied, q))
    {
      forall q ensures IsApplied(levels[c].applied + [KeyOf(r)], q) <==> IsApplied(levels[c].applied, q) || KeyOf(q) == KeyOf(r) {
        Marking(levels[c].applied, r, q);
      }
      levels := levels[c := levels[c].(applied := levels[c].applied + [KeyOf(r)])];
    }

    // ----- Applying and revoking

    method GainBonus(r: Reward)
      requires Valid()
      modifies this`pools
      ensures Valid() && Skills() == old(Skills()) && pools == ApplyBonus(old(pools), r)
    {
      pools := ApplyBonus(pools, r);
    }

    /** Apply a reward and record it unless it already is on record. */
    method ApplyAndMark(c: ClassId, r: Reward, already: bool)
      requires Valid() && c in levels && c != NO_CLASS
      modifies this`skills, this`pools, this`levels, this`entries, entries
      ensures Valid() && old(entries) <= entries && fresh(entries - old(entries))
      ensures Skills() == ApplyToSkills(tables, old(Skills()), c, r) && pools == ApplyBonus(old(pools), r)
      ensures levels == if already then old(levels)
                        else old(levels)[c := old(levels)[c].(applied := old(levels)[c].applied + [KeyOf(r)])]
    {
      ApplySkillsOf(c, r);
      GainBonus(r);
      if !already {
        MarkRewardApplied(c, r);
      }
    }

    /** One turn of the loop of apply_class_rewards. */
    method ApplyOne(c: ClassId, r: Reward, from: int, to: int)
      requires Valid() && c in levels && c != NO_CLASS
      modifies this`skills, this`pools, this`levels, this`entries, entries
      ensures Valid() && c in levels && levels == old(levels)[c := old(levels)[c].(applied := levels[c].applied)]
      ensures var s := Sheet(old(Skills()), old(pools), old(levels)[c].applied);
        Sheet(Skills(), pools, levels[c].applied) == ApplyReward(tables, s, c, r, from, to)
      ensures old(entries) <= entries && fresh(entries - old(entries))
    {
      if r.level < from || r.level > to { return; }
      var already := HasRewardBeenApplied(c, r);
      if r.oneTime && already { return; }
      ApplyAndMark(c, r, already);
    }

    /** apply_class_rewards */
    method ApplyClassRewards(c: ClassId, from: int, to: int)
      requires Valid() && c != NO_CLASS
      modifies this`skills, this`pools, this`levels, this`entries, entries
      ensures Valid() && View() == JoinRange(tables, catalogue, old(View()), c, from, to)
      ensures old(entries) <= entries && fresh(entries - old(entries))
    {
      if c !in levels { return; }
      var rewards := RewardsOf(catalogue, c);
      ghost var s := Sheet(Skills(), pools, levels[c].applied);
      for i := 0 to |rewards|
        invariant Valid() && c in levels && levels == old(levels)[c := old(levels)[c].(applied := levels[c].applied)]
        invariant Sheet(Skills(), pools, levels[c].applied) == ApplyRewards(tables, s, c, rewards[..i], from, to)
        invariant old(entries) <= entries && fresh(entries - old(entries))
      {
        assert rewards[..i + 1][..i] == rewards[..i];
        ApplyOne(c, rewards[i], from, to);
      }
      assert rewards[..|rewards|] == rewards;
    }

    /** Take a class's source off the entry of a held skill. */
    method RemoveSourceFrom(sn: int, c: ClassId) returns (hasOther: bool)
      requires Valid() && sn in skills && c != NO_CLASS
      modifies skills[sn]
      ensures Valid()
      ensures Skills() == old(Skills())[sn := old(Skills())[sn].(sources := RemoveSource(old(Skills())[sn].sources, c))]
      ensures hasOther <==> RemoveSource(old(Skills())[sn].sources, c) != []
    {
      hasOther := skills[sn].Remove(c);
      assert forall x :: x in skills && x != sn ==> skills[x] != skills[sn];
      assert Skills()[sn] == old(Skills())[sn].(sources := skills[sn].sources);
    }

    /** skill_entry_remove */
    method DropSkill(sn: int)
      requires Valid()
      modifies this`skills
      ensures Valid() && Skills() == old(Skills()) - {sn}
    {
      skills := skills - {sn};
    }

    /** Take a class's source off one skill, and the skill off the list with its last source. */
    method RevokeOneSkill(c: ClassId, name: string)
      requires Valid() && c != NO_CLASS
      modifies this`skills, this`entries, entries
      ensures Valid() && Skills() == RevokeSkill(tables, old(Skills()), c, name)
      ensures entries == old(entries)
    {
      var sn := SkillNo(tables, name);
      if !IsSkill(sn) || sn !in skills { return; }
      RevokeSkillSteps(tables, Skills(), c, name);
      var hasOther := RemoveSourceFrom(sn, c);
      if !hasOther {
        DropSkill(sn);
      }
    }

    method RevokeSkillNames(c: ClassId, names: seq<string>)
      requires Valid() && c != NO_CLASS
      modifies this`skills, this`entries, entries
      ensures Valid() && Skills() == RevokeNames(tables, old(Skills()), c, names)
      ensures entries == old(entries)
    {
      for i := 0 to |names|
        invariant Valid() && Skills() == RevokeNames(tables, old(Skills()), c, names[..i])
        invariant entries == old(entries)
      {
        assert names[..i + 1][..i] == names[..i];
        RevokeOneSkill(c, names[i]);
      }
      assert names[..|names|] == names;
    }

    method RevokeSkillsOf(c: ClassId, r: Reward)
      requires Valid() && c != NO_CLASS
      modifies this`skills, this`entries, entries
      ensures Valid() && Skills() == RevokeFromSkills(tables, old(Skills()), c, r)
      ensures entries == old(entries)
    {
      if !r.revokeOnLeave { return; }
      match r.kind {
        case Skill => RevokeOneSkill(c, r.name);
        case SkillGroup => RevokeSkillNames(c, GroupSkills(tables, r.name));
        case Bonus =>
        case Other(_) =>
      }
    }

    /** One turn of the loop of revoke_class_rewards. */
    method RevokeOne(c: ClassId, r: Reward)
      requires Valid() && c != NO_CLASS
      modifies this`skills, this`pools, this`entries, entries
      ensures Valid() && entries == old(entries)
      ensures Skills() == RevokeFromSkills(tables, old(Skills()), c, r) && pools == RevokeBonus(old(pools), r)
    {
      RevokeSkillsOf(c, r);
      pools := RevokeBonus(pools, r);
    }

    /** revoke_class_rewards */
    method RevokeClassRewards(c: ClassId)
      requires Valid() && c != NO_CLASS
      modifies this`skills, this`pools, this`entries, entries
      ensures Valid() && View() == LeaveClass(tables, catalogue, old(View()), c)
      ensures entries == old(entries)
    {
      var rewards := RewardsOf(catalogue, c);
      ghost var s := Sheet(Skills(), pools, []);
      for i := 0 to |rewards|
        invariant Valid() && Sheet(Skills(), pools, []) == RevokeRewards(tables, s, c, rewards[..i])
        invariant entries == old(entries)
      {
        assert rewards[..i + 1][..i] == rewards[..i];
        RevokeOne(c, rewards[i]);
      }
      assert rewards[..|rewards|] == rewards;
    }

    // ----- Rebuilding

    method RebuildOneSkill(c: ClassId, name: string, scope: int)
      requires Valid() && c != NO_CLASS
      modifies entries
      ensures Valid() && Skills() == RebuildSkill(tables, old(Skills()), c, name, scope)
    {
      var sn := SkillNo(tables, name);
      if IsSkill(sn) && sn in skills {
        AddSourceTo(sn, c, scope);
      }
    }

    method RebuildSkillNames(c: ClassId, names: seq<string>, scope: int)
      requires Valid() && c != NO_CLASS
      modifies entries
      ensures Valid() && Skills() == RebuildNames(tables, old(Skills()), c, names, scope)
    {
      for i := 0 to |names|
        invariant Valid() && Skills() == RebuildNames(tables, old(Skills()), c, names[..i], scope)
      {
        assert names[..i + 1][..i] == names[..i];
        RebuildOneSkill(c, names[i], scope);
      }
      assert names[..|names|] == names;
    }

    method RebuildFromClass(c: ClassId, level: int, rewards: seq<Reward>)
      requires Valid() && c != NO_CLASS
      modifies entries
      ensures Valid() && Skills() == RebuildClass(tables, old(Skills()), c, level, rewards)
    {
      for i := 0 to |rewards|
        invariant Valid() && Skills() == RebuildClass(tables, old(Skills()), c, level, rewards[..i])
      {
        assert rewards[..i + 1][..i] == rewards[..i];
        if rewards[i].level <= level {
          RebuildSkillNames(c, GrantedNames(tables, rewards[i]), rewards[i].scope);
        }
      }
      assert rewards[..|rewards|] == rewards;
    }

    /** rebuild_skill_sources */
    method RebuildSkillSources()
      requires Valid() && NO_CLASS !in order
      modifies entries
      ensures Valid() && View() == Rebuild(tables, catalogue, old(View()))
    {
      ghost var p := View();
      for i := 0 to |order|
        invariant Valid() && Skills() == RebuildClasses(tables, catalogue, p, order[..i])
      {
        assert order[..i + 1][..i] == order[..i];
        if order[i] in levels {
          RebuildFromClass(order[i], levels[order[i]].level, RewardsOf(catalogue, order[i]));
        }
      }
      assert order[..|order|] == order;
    }

    // ----- Switching classes

    /** do_setclass, once the class is found: leave the old class, switch, apply the new one from level 1. */
    method SetActiveClass(c: ClassId)
      requires Valid() && NO_CLASS !in levels
      modifies this`skills, this`pools, this`levels, this`current, this`entries, entries
      ensures Valid() && View() == SetClass(tables, catalogue, old(View()), c)
    {
      if c !in levels || current == c { return; }
      if current != NO_CLASS {
        RevokeClassRewards(current);
      }
      ghost var left := View();
      current := c;
      assert View() == left.(current := c);
      ApplyClassRewards(c, 1, levels[c].level);
    }

    /** A level gained in a class, as gain_exp and do_freelevel do it once their guards are passed. */
    method GainLevelIn(c: ClassId, g: Growth)
      requires Valid() && c != NO_CLASS
      modifies this`skills, this`pools, this`levels, this`entries, entries
      ensures Valid() && View() == GainLevel(tables, catalogue, old(View()), c, g)
    {
      if c !in levels { return; }
      ghost var p := View();
      levels := levels[c := levels[c].(level := levels[c].level + 1)];
      pools := Grow(pools, g);
      assert View() == p.(levels := levels, pools := pools);
      ApplyClassRewards(c, levels[c].level, levels[c].level);
    }
  }
}
