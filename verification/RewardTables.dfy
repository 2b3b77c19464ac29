/** Rewards end to end: what a class's rewards do to a skill, read off the skill and group tables alone. */
module RewardTables {
  import opened Strings
  import opened SkillSources
  import opened RewardModel
  import opened RewardLedger
  import opened RewardSkills

  /** The table knows the name, under a number an entry can have. */
  ghost predicate Known(t: Tables, name: string) {
    name != "" && name in t.skills && 1 <= t.skills[name] < 300
  }

  /** The skill is held, and the class has a node on it at this scope or a broader one. */
  ghost predicate HasNode(skills: map<int, HeldSkill>, sn: int, c: ClassId, scope: int) {
    sn in skills
    && exists i :: 0 <= i < |skills[sn].sources| && skills[sn].sources[i].clazz == c && skills[sn].sources[i].scope >= scope
  }

  lemma GivenIsNode(skills: map<int, HeldSkill>, sn: int, c: ClassId, scope: int)
    requires SkillsOk(skills) && sn in skills && c in Scopes(skills[sn].sources) && scope <= Scopes(skills[sn].sources)[c]
    ensures HasNode(skills, sn, c, scope)
  {
    ScopesKeys(skills[sn].sources);
    var i :| 0 <= i < |skills[sn].sources| && skills[sn].sources[i].clazz == c;
  }

  lemma NodeIsKnown(skills: map<int, HeldSkill>, sn: int, c: ClassId, scope: int)
    requires SkillsOk(skills) && HasNode(skills, sn, c, scope)
    ensures c in Scopes(skills[sn].sources) && scope <= Scopes(skills[sn].sources)[c]
  {
    ScopesKeys(skills[sn].sources);
  }

  // ----- Ratings

  /** No skill is lost, and no rating falls. */
  ghost predicate RatingsRise(a: map<int, HeldSkill>, b: map<int, HeldSkill>) {
    forall sn :: sn in a ==> sn in b && b[sn].rating >= a[sn].rating
  }

  lemma {:induction false} NamesRate(t: Tables, skills: map<int, HeldSkill>, c: ClassId, names: seq<string>, scope: int)
    ensures RatingsRise(skills, ApplyNames(t, skills, c, names, scope))
    ensures forall name :: name in names && Known(t, name) ==>
      t.skills[name] in ApplyNames(t, skills, c, names, scope) && ApplyNames(t, skills, c, names, scope)[t.skills[name]].rating >= 1
  {
    if names == [] {
    } else {
      NamesRate(t, skills, c, names[..|names| - 1], scope);
      assert names == names[..|names| - 1] + [names[|names| - 1]];
    }
  }

  /** A skill that is given can be used from then on: it has a rating of one at least. */
  lemma RewardRates(t: Tables, skills: map<int, HeldSkill>, c: ClassId, r: Reward, name: string)
    ensures RatingsRise(skills, ApplyToSkills(t, skills, c, r))
    ensures GivesName(t, r, name) && Known(t, name) && (r.kind.SkillGroup? || r.value > 0) ==>
      t.skills[name] in ApplyToSkills(t, skills, c, r) && ApplyToSkills(t, skills, c, r)[t.skills[name]].rating >= 1
  {
    if r.kind.SkillGroup? {
      NamesRate(t, skills, c, GroupSkills(t, r.name), r.scope);
      GivenNames(t, r, name);
    }
  }

  // ----- Applying

  /** A skill that a pass has given stays given by the rewards after it. */
  lemma PassKeeps(t: Tables, s: Sheet, c: ClassId, r: Reward, from: int, to: int, sn: int, scope: int)
    requires SkillsOk(s.skills) && c != NO_CLASS && HasNode(s.skills, sn, c, scope)
    ensures SkillsOk(ApplyReward(t, s, c, r, from, to).skills) && HasNode(ApplyReward(t, s, c, r, from, to).skills, sn, c, scope)
  {
    var after := ApplyReward(t, s, c, r, from, to).skills;
    NodeIsKnown(s.skills, sn, c, scope);
    ApplyRewardGrows(t, s, c, r, from, to);
    GivenIsNode(after, sn, c, scope);
  }

  /** The reward itself gives what it names. */
  lemma RewardGives(t: Tables, skills: map<int, HeldSkill>, c: ClassId, r: Reward, name: string)
    requires SkillsOk(skills) && c != NO_CLASS && GivesName(t, r, name) && Known(t, name)
    ensures SkillsOk(ApplyToSkills(t, skills, c, r)) && HasNode(ApplyToSkills(t, skills, c, r), t.skills[name], c, r.scope)
  {
    var after, g := ApplyToSkills(t, skills, c, r), Grant(c, t.skills[name], r.scope);
    GivenNames(t, r, name);
    NamesMember(t, c, GrantedNames(t, r), r.scope, g);
    ApplyToSkillsGives(t, skills, c, r);
    assert Given(after, g);
    GivenIsNode(after, t.skills[name], c, r.scope);
  }

  lemma {:induction false} PassKeepsOk(t: Tables, s: Sheet, c: ClassId, rewards: seq<Reward>, from: int, to: int)
    requires SkillsOk(s.skills) && c != NO_CLASS
    ensures SkillsOk(ApplyRewards(t, s, c, rewards, from, to).skills)
  {
    if rewards == [] {
    } else {
      PassKeepsOk(t, s, c, rewards[..|rewards| - 1], from, to);
      ApplyRewardGrows(t, ApplyRewards(t, s, c, rewards[..|rewards| - 1], from, to), c, rewards[|rewards| - 1], from, to);
    }
  }

  /**
   A pass over a range of levels gives every skill that a reward of the range names, by itself or through a group: it
   is held afterwards, with a node of the class at least as broad as the reward says, and can be used. A one-time
   reward must be new.
   */
  lemma {:induction false} PassGives(t: Tables, s: Sheet, c: ClassId, rewards: seq<Reward>, from: int, to: int,
                                     i: nat, name: string)
    requires SkillsOk(s.skills) && c != NO_CLASS && i < |rewards| && from <= rewards[i].level <= to
    requires rewards[i].oneTime ==> KeyOf(rewards[i]) !in s.applied && FirstWithKey(rewards, i)
    requires GivesName(t, rewards[i], name) && Known(t, name)
    ensures var after := ApplyRewards(t, s, c, rewards, from, to).skills;
      && HasNode(after, t.skills[name], c, rewards[i].scope)
      && (rewards[i].kind.SkillGroup? || rewards[i].value > 0 ==> after[t.skills[name]].rating >= 1)
  {
    var init, r := rewards[..|rewards| - 1], rewards[|rewards| - 1];
    var mid := ApplyRewards(t, s, c, init, from, to);
    PassKeepsOk(t, s, c, init, from, to);
    if i == |rewards| - 1 {
      LedgerOfApply(t, s, c, init, from, to);
      LedgerKeys(s.applied, init, from, to, KeyOf(r));
      assert forall j :: 0 <= j < |init| ==> init[j] == rewards[j];
      RewardGives(t, mid.skills, c, r, name);
      RewardRates(t, mid.skills, c, r, name);
    } else {
      assert forall j :: 0 <= j <= i ==> init[j] == rewards[j];
      PassGives(t, s, c, init, from, to, i, name);
      PassKeeps(t, mid, c, r, from, to, t.skills[name], rewards[i].scope);
      RewardRates(t, mid.skills, c, r, name);
    }
  }

  // ----- Revoking

  /**
   Leaving a class, in terms of the tables: a skill that a revocable reward names, by itself or through a group, has
   no node of the class afterwards, and goes with its last node; any other skill is as it was.
   */
  lemma LeaveTakes(t: Tables, s: Sheet, c: ClassId, rewards: seq<Reward>, name: string)
    requires SkillsOk(s.skills) && Known(t, name) && t.skills[name] in s.skills
    ensures var sn, after := t.skills[name], RevokeRewards(t, s, c, rewards).skills;
      if exists i, other :: 0 <= i < |rewards| && rewards[i].revokeOnLeave && GivesName(t, rewards[i], other)
                            && Known(t, other) && t.skills[other] == sn
      then if forall j :: 0 <= j < |s.skills[sn].sources| ==> s.skills[sn].sources[j].clazz == c then sn !in after
           else && sn in after && after[sn].rating == s.skills[sn].rating
                && forall x :: x in after[sn].sources <==> x in s.skills[sn].sources && x.clazz != c
      else sn in after && after[sn] == s.skills[sn]
  {
    var sn := t.skills[name];
    RevokeMeaning(t, s, c, rewards, sn);
    RemoveMembers(s.skills[sn].sources, c);
    if AnyRevokes(t, rewards, sn) {
      var i :| 0 <= i < |rewards| && Revokes(t, rewards[i], sn);
      var other :| GivesName(t, rewards[i], other) && SkillNo(t, other) == sn;
      assert Known(t, other);
    }
    if i, other :| 0 <= i < |rewards| && rewards[i].revokeOnLeave && GivesName(t, rewards[i], other)
                   && Known(t, other) && t.skills[other] == sn {
      assert SkillNo(t, other) == sn && Revokes(t, rewards[i], sn);
    }
    NothingLeft(s.skills[sn].sources, c);
  }

  lemma NothingLeft(sources: seq<Source>, c: ClassId)
    requires SourcesOk(sources)
    ensures RemoveSource(sources, c) == [] <==> forall j :: 0 <= j < |sources| ==> sources[j].clazz == c
  {
    RemoveMembers(sources, c);
    var left := RemoveSource(sources, c);
    if left != [] {
      assert left[0] in left;
    }
    forall j | 0 <= j < |sources|
      ensures left == [] ==> sources[j].clazz == c
    {
      assert sources[j] in sources;
    }
  }

  // ----- Rebuilding

  /**
   Rebuilding, in terms of the tables: a held skill that a reward within the level of a joined class names has a node
   of that class at least as broad.
   */
  lemma RebuildGives(t: Tables, k: Catalogue, p: Player, c: ClassId, r: Reward, name: string)
    requires SkillsOk(p.skills) && NO_CLASS !in p.order && c in p.order && c in p.levels && c in k && r in k[c]
    requires r.level <= p.levels[c].level && GivesName(t, r, name) && Known(t, name) && t.skills[name] in p.skills
    ensures HasNode(Rebuild(t, k, p).skills, t.skills[name], c, r.scope)
  {
    var sn := t.skills[name];
    var g := Grant(c, sn, r.scope);
    RebuildJoins(t, k, p, sn);
    GrantMember(t, k, p, p.order, g);
    assert SkillNo(t, name) == sn && RewardGrants(t, c, p.levels[c].level, r, g);
    assert PlayerGrants(t, k, p, p.order, g);
    GivenIsNode(Rebuild(t, k, p).skills, sn, c, r.scope);
  }

  /** What rebuilding adds to a held skill comes from such a reward. */
  lemma RebuildFrom(t: Tables, k: Catalogue, p: Player, sn: int, c: ClassId, scope: int)
    requires SkillsOk(p.skills) && NO_CLASS !in p.order && sn in p.skills && IsSkill(sn)
    requires var after := Rebuild(t, k, p).skills; sn in after && Source(c, scope) in after[sn].sources
    requires Source(c, scope) !in p.skills[sn].sources
    ensures c in p.order && c in p.levels && c in k && exists r, name ::
      && r in k[c] && r.level <= p.levels[c].level && r.scope == scope
      && GivesName(t, r, name) && Known(t, name) && t.skills[name] == sn
  {
    var before, after, g := p.skills[sn].sources, Rebuild(t, k, p).skills[sn].sources, Grant(c, sn, scope);
    RebuildJoins(t, k, p, sn);
    NodeInScopes(after, c, scope);
    if c in Scopes(before) {
      ScopesKeys(before);
      assert Source(c, Scopes(before)[c]) in before;
    }
    assert g in GrantsOf(t, k, p, p.order);
    GrantMember(t, k, p, p.order, g);
    var r :| r in RewardsOf(k, c) && RewardGrants(t, c, p.levels[c].level, r, g);
    var name :| GivesName(t, r, name) && g == Grant(c, SkillNo(t, name), r.scope);
    assert Known(t, name);
  }

  lemma NodeInScopes(sources: seq<Source>, c: ClassId, scope: int)
    requires SourcesOk(sources) && Source(c, scope) in sources
    ensures c in Scopes(sources) && Scopes(sources)[c] == scope
  {
    ScopesKeys(sources);
  }

  // ----- Bonuses

  /** Each bonus name raises one maximum and its permanent value, and nothing else; another name raises nothing. */
  lemma BonusRaises(p: Pools, level: int, value: int, oneTime: bool)
    ensures ApplyBonus(p, Reward(level, Bonus, "hp_max", value, 0, false, oneTime))
         == p.(maxHit := p.maxHit + value, permHit := p.permHit + value)
    ensures ApplyBonus(p, Reward(level, Bonus, "mana_max", value, 0, false, oneTime))
         == p.(maxMana := p.maxMana + value, permMana := p.permMana + value)
    ensures ApplyBonus(p, Reward(level, Bonus, "Move_Max", value, 0, false, oneTime))
         == p.(maxMove := p.maxMove + value, permMove := p.permMove + value)
    ensures ApplyBonus(p, Reward(level, Bonus, "practice", value, 0, false, oneTime)) == p
  {
    assert Fold("Move_Max") == Fold("move_max") == "move_max" && Fold("practice") == "practice";
    assert Fold("hp_max") == "hp_max" && Fold("mana_max") == "mana_max";
  }

  // ----- Switching classes and gaining levels

  /** Between a and b no skill has come to a class other than c. */
  ghost predicate OnlyFor(c: ClassId, a: map<int, HeldSkill>, b: map<int, HeldSkill>) {
    forall sn, d {:trigger HasClass(b[sn].sources, d)} :: sn in b && d != c && HasClass(b[sn].sources, d) ==>
      sn in a && HasClass(a[sn].sources, d)
  }

  lemma OnlyForTrans(c: ClassId, a: map<int, HeldSkill>, b: map<int, HeldSkill>, e: map<int, HeldSkill>)
    requires OnlyFor(c, a, b) && OnlyFor(c, b, e)
    ensures OnlyFor(c, a, e)
  {
  }

  lemma AddOnly(sources: seq<Source>, c: ClassId, scope: int, d: ClassId)
    requires d != c && HasClass(AddSource(sources, c, scope), d)
    ensures HasClass(sources, d)
  {
    var added := AddSource(sources, c, scope);
    var i :| 0 <= i < |added| && added[i].clazz == d;
    if HasClass(sources, c) {
      BroadenShape(sources, c, scope);
      assert sources[i].clazz == d;
    } else {
      assert sources[i - 1].clazz == d;
    }
  }

  lemma SkillOnly(t: Tables, skills: map<int, HeldSkill>, c: ClassId, name: string, rating: int, scope: int)
    ensures OnlyFor(c, skills, ApplySkill(t, skills, c, name, rating, scope))
  {
    var after := ApplySkill(t, skills, c, name, rating, scope);
    forall sn, d | sn in after && d != c && HasClass(after[sn].sources, d)
      ensures sn in skills && HasClass(skills[sn].sources, d)
    {
      if sn == SkillNo(t, name) && IsSkill(sn) {
        AddOnly(if sn in skills then skills[sn].sources else [], c, scope, d);
      }
    }
  }

  lemma {:induction false} NamesOnly(t: Tables, skills: map<int, HeldSkill>, c: ClassId, names: seq<string>, scope: int)
    ensures OnlyFor(c, skills, ApplyNames(t, skills, c, names, scope))
  {
    if names == [] {
    } else {
      var mid := ApplyNames(t, skills, c, names[..|names| - 1], scope);
      NamesOnly(t, skills, c, names[..|names| - 1], scope);
      SkillOnly(t, mid, c, names[|names| - 1], 1, scope);
      OnlyForTrans(c, skills, mid, ApplyNames(t, skills, c, names, scope));
    }
  }

  lemma {:induction false} PassOnly(t: Tables, s: Sheet, c: ClassId, rewards: seq<Reward>, from: int, to: int)
    ensures OnlyFor(c, s.skills, ApplyRewards(t, s, c, rewards, from, to).skills)
  {
    if rewards == [] {
    } else {
      var r, mid := rewards[|rewards| - 1], ApplyRewards(t, s, c, rewards[..|rewards| - 1], from, to);
      PassOnly(t, s, c, rewards[..|rewards| - 1], from, to);
      SkillOnly(t, mid.skills, c, r.name, r.value, r.scope);
      NamesOnly(t, mid.skills, c, GroupSkills(t, r.name), r.scope);
      assert OnlyFor(c, mid.skills, ApplyToSkills(t, mid.skills, c, r));
      OnlyForTrans(c, s.skills, mid.skills, ApplyRewards(t, s, c, rewards, from, to).skills);
    }
  }

  /** Switching takes the old class's node off every skill that one of its revocable rewards names. */
  lemma SwitchTakes(t: Tables, k: Catalogue, p: Player, c: ClassId, i: nat, name: string)
    requires SkillsOk(p.skills) && c in p.levels && p.current != c && p.current != NO_CLASS && p.current in k
    requires i < |k[p.current]| && k[p.current][i].revokeOnLeave && GivesName(t, k[p.current][i], name) && Known(t, name)
    ensures var sn, q := t.skills[name], SetClass(t, k, p, c);
      q.current == c && (sn in q.skills ==> !HasClass(q.skills[sn].sources, p.current))
  {
    var sn, was := t.skills[name], p.current;
    var left := LeaveClass(t, k, p, was);
    RevokeMeaning(t, Sheet(p.skills, p.pools, []), was, k[was], sn);
    if sn in p.skills {
      LeaveTakes(t, Sheet(p.skills, p.pools, []), was, k[was], name);
    }
    if sn in left.skills {
      forall j | 0 <= j < |left.skills[sn].sources|
        ensures left.skills[sn].sources[j].clazz != was
      {
        assert left.skills[sn].sources[j] in left.skills[sn].sources;
      }
    }
    PassOnly(t, Sheet(left.skills, left.pools, p.levels[c].applied), c, RewardsOf(k, c), 1, p.levels[c].level);
  }

  /** And it gives every skill that a reward of the new class up to its level names. */
  lemma SwitchGives(t: Tables, k: Catalogue, p: Player, c: ClassId, i: nat, name: string)
    requires SkillsOk(p.skills) && c in p.levels && c != NO_CLASS && p.current != c && c in k
    requires i < |k[c]| && 1 <= k[c][i].level <= p.levels[c].level && !k[c][i].oneTime
    requires GivesName(t, k[c][i], name) && Known(t, name)
    ensures HasNode(SetClass(t, k, p, c).skills, t.skills[name], c, k[c][i].scope)
  {
    var left := if p.current != NO_CLASS then LeaveClass(t, k, p, p.current) else p;
    RevokeRewardsOk(t, Sheet(p.skills, p.pools, []), p.current, RewardsOf(k, p.current));
    PassGives(t, Sheet(left.skills, left.pools, p.levels[c].applied), c, k[c], 1, p.levels[c].level, i, name);
  }

  /** A level gained gives every skill that a reward of exactly that level names. */
  lemma GainGives(t: Tables, k: Catalogue, p: Player, c: ClassId, g: Growth, i: nat, name: string)
    requires SkillsOk(p.skills) && c in p.levels && c != NO_CLASS && c in k
    requires i < |k[c]| && k[c][i].level == p.levels[c].level + 1 && !k[c][i].oneTime
    requires GivesName(t, k[c][i], name) && Known(t, name)
    ensures HasNode(GainLevel(t, k, p, c, g).skills, t.skills[name], c, k[c][i].scope)
  {
    var level := p.levels[c].level + 1;
    PassGives(t, Sheet(p.skills, Grow(p.pools, g), p.levels[c].applied), c, k[c], level, level, i, name);
  }

  // ----- Keys and ratings

  /** The ledger takes two rewards for one exactly if level and kind agree and their names differ in case at most. */
  lemma SameKey(r: Reward, q: Reward)
    ensures KeyOf(r) == KeyOf(q) <==> r.level == q.level && r.kind == q.kind && SameText(r.name, q.name)
  {
  }

  /** A skill reward rates the skill one if it says so and the skill had no rating, and leaves the rating alone else. */
  lemma SkillRating(t: Tables, skills: map<int, HeldSkill>, c: ClassId, r: Reward)
    requires r.kind.Skill? && Known(t, r.name)
    ensures var sn, after := t.skills[r.name], ApplyToSkills(t, skills, c, r);
      var before := if sn in skills then skills[sn].rating else 0;
      sn in after && after[sn].rating == if r.value > 0 && before <= 0 then 1 else before
  {
  }
}
