/** Class rewards: what applying, revoking and rebuilding them does to a character, as functions. */
module RewardModel {
  import opened Strings
  import opened SkillSources

  const MAX_SKILL := 300

  datatype RewardKind = Skill | SkillGroup | Bonus | Other(code: int)

  /** CLASS_REWARD; a missing name is the empty one. */
  datatype Reward = Reward(
    level: int, kind: RewardKind, name: string, value: int, scope: int, revokeOnLeave: bool, oneTime: bool)

  /** What a ledger entry is compared by: level, type and the case-folded name. */
  datatype Key = Key(level: int, kind: RewardKind, name: string)

  /** The skill and skill-group tables the rewards refer to by name. */
  datatype Tables = Tables(skills: map<string, int>, groups: map<string, seq<string>>)

  datatype Pool = HitPool | ManaPool | MovePool | NoPool

  /** The three maxima and their permanent counterparts. */
  datatype Pools = Pools(maxHit: int, permHit: int, maxMana: int, permMana: int, maxMove: int, permMove: int)

  /** A held skill: its class sources and its rating. */
  datatype HeldSkill = Held(sources: seq<Source>, rating: int)

  /** A joined class: its level, and the ledger of rewards already applied. */
  datatype ClassLevel = ClassLevel(level: int, applied: seq<Key>)

  // ----- Lookups

  function SkillNo(t: Tables, name: string): int {
    if name != "" && name in t.skills then t.skills[name] else -1
  }

  /** Skill numbers an entry can have; the list is never searched for others. */
  predicate IsSkill(sn: int) {
    1 <= sn < MAX_SKILL
  }

  function GroupSkills(t: Tables, name: string): seq<string> {
    if name != "" && Fold(name) in t.groups then t.groups[Fold(name)] else []
  }

  function KeyOf(r: Reward): Key {
    Key(r.level, r.kind, Fold(r.name))
  }

  function PoolOf(name: string): Pool {
    if SameText(name, "hp_max") then HitPool
    else if SameText(name, "mana_max") then ManaPool
    else if SameText(name, "move_max") then MovePool
    else NoPool
  }

  // ----- Bonuses

  function Raise(p: Pools, pool: Pool, amount: int): Pools {
    match pool
    case HitPool => p.(maxHit := p.maxHit + amount, permHit := p.permHit + amount)
    case ManaPool => p.(maxMana := p.maxMana + amount, permMana := p.permMana + amount)
    case MovePool => p.(maxMove := p.maxMove + amount, permMove := p.permMove + amount)
    case NoPool => p
  }

  function ApplyBonus(p: Pools, r: Reward): Pools {
    if r.kind.Bonus? then Raise(p, PoolOf(r.name), r.value) else p
  }

  function RevokeBonus(p: Pools, r: Reward): Pools {
    if r.kind.Bonus? && r.revokeOnLeave then Raise(p, PoolOf(r.name), -r.value) else p
  }

  // ----- Skills

  function Usable(h: HeldSkill, rating: int): HeldSkill {
    if rating > 0 && h.rating <= 0 then h.(rating := 1) else h
  }

  /** apply_skill_reward: a new entry for a skill not held, a new source for one that is. */
  function ApplySkill(t: Tables, skills: map<int, HeldSkill>, c: ClassId, name: string, rating: int, scope: int)
    : map<int, HeldSkill>
  {
    var sn := SkillNo(t, name);
    if !IsSkill(sn) then skills
    else
      var h := if sn in skills then skills[sn] else Held([], 0);
      skills[sn := Usable(h.(sources := AddSource(h.sources, c, scope)), rating)]
  }

  function ApplyNames(t: Tables, skills: map<int, HeldSkill>, c: ClassId, names: seq<string>, scope: int): map<int, HeldSkill> {
    if names == [] then skills
    else ApplySkill(t, ApplyNames(t, skills, c, names[..|names| - 1], scope), c, names[|names| - 1], 1, scope)
  }

  /** apply_single_reward, for the kinds that touch skills. */
  function ApplyToSkills(t: Tables, skills: map<int, HeldSkill>, c: ClassId, r: Reward): map<int, HeldSkill> {
    match r.kind
    case Skill => ApplySkill(t, skills, c, r.name, r.value, r.scope)
    case SkillGroup => ApplyNames(t, skills, c, GroupSkills(t, r.name), r.scope)
    case _ => skills
  }

  /** Revoking one skill: the class's source goes, and the entry with its last source. */
  function RevokeSkill(t: Tables, skills: map<int, HeldSkill>, c: ClassId, name: string): map<int, HeldSkill> {
    var sn := SkillNo(t, name);
    if !IsSkill(sn) || sn !in skills then skills
    else
      var left := RemoveSource(skills[sn].sources, c);
      if left == [] then skills - {sn} else skills[sn := skills[sn].(sources := left)]
  }

  function RevokeNames(t: Tables, skills: map<int, HeldSkill>, c: ClassId, names: seq<string>): map<int, HeldSkill> {
    if names == [] then skills
    else RevokeSkill(t, RevokeNames(t, skills, c, names[..|names| - 1]), c, names[|names| - 1])
  }

  function RevokeFromSkills(t: Tables, skills: map<int, HeldSkill>, c: ClassId, r: Reward): map<int, HeldSkill> {
    if !r.revokeOnLeave then skills
    else
      match r.kind
      case Skill => RevokeSkill(t, skills, c, r.name)
      case SkillGroup => RevokeNames(t, skills, c, GroupSkills(t, r.name))
      case _ => skills
  }

  /** Rebuilding one skill: a source for a skill that is held, nothing otherwise. */
  function RebuildSkill(t: Tables, skills: map<int, HeldSkill>, c: ClassId, name: string, scope: int): map<int, HeldSkill> {
    var sn := SkillNo(t, name);
    if IsSkill(sn) && sn in skills then
      skills[sn := skills[sn].(sources := AddSource(skills[sn].sources, c, scope))]
    else skills
  }

  function RebuildNames(t: Tables, skills: map<int, HeldSkill>, c: ClassId, names: seq<string>, scope: int): map<int, HeldSkill> {
    if names == [] then skills
    else RebuildSkill(t, RebuildNames(t, skills, c, names[..|names| - 1], scope), c, names[|names| - 1], scope)
  }

  /** The names a reward grants as skills. */
  function GrantedNames(t: Tables, r: Reward): seq<string> {
    match r.kind
    case Skill => [r.name]
    case SkillGroup => GroupSkills(t, r.name)
    case _ => []
  }

  function RebuildReward(t: Tables, skills: map<int, HeldSkill>, c: ClassId, level: int, r: Reward): map<int, HeldSkill> {
    if r.level > level then skills else RebuildNames(t, skills, c, GrantedNames(t, r), r.scope)
  }

  function RebuildClass(t: Tables, skills: map<int, HeldSkill>, c: ClassId, level: int, rewards: seq<Reward>): map<int, HeldSkill> {
    if rewards == [] then skills
    else RebuildReward(t, RebuildClass(t, skills, c, level, rewards[..|rewards| - 1]), c, level, rewards[|rewards| - 1])
  }

  // ----- The ledger and whole classes

  /** has_reward_been_applied */
  predicate IsApplied(applied: seq<Key>, r: Reward) {
    KeyOf(r) in applied
  }

  /** The parts of a character a class's rewards act on. */
  datatype Sheet = Sheet(skills: map<int, HeldSkill>, pools: Pools, applied: seq<Key>)

  /** One turn of the loop of apply_class_rewards. */
  function ApplyReward(t: Tables, s: Sheet, c: ClassId, r: Reward, from: int, to: int): Sheet {
    if r.level < from || r.level > to then s
    else if r.oneTime && IsApplied(s.applied, r) then s
    else Sheet(ApplyToSkills(t, s.skills, c, r), ApplyBonus(s.pools, r),
               if IsApplied(s.applied, r) then s.applied else s.applied + [KeyOf(r)])
  }

  function ApplyRewards(t: Tables, s: Sheet, c: ClassId, rewards: seq<Reward>, from: int, to: int): Sheet {
    if rewards == [] then s
    else ApplyReward(t, ApplyRewards(t, s, c, rewards[..|rewards| - 1], from, to), c, rewards[|rewards| - 1], from, to)
  }

  /** One turn of the loop of revoke_class_rewards. */
  function RevokeReward(t: Tables, s: Sheet, c: ClassId, r: Reward): Sheet {
    s.(skills := RevokeFromSkills(t, s.skills, c, r), pools := RevokeBonus(s.pools, r))
  }

  function RevokeRewards(t: Tables, s: Sheet, c: ClassId, rewards: seq<Reward>): Sheet {
    if rewards == [] then s
    else RevokeReward(t, RevokeRewards(t, s, c, rewards[..|rewards| - 1]), c, rewards[|rewards| - 1])
  }

  // ----- A character with several classes

  /** The rewards of every class in the game. */
  type Catalogue = map<ClassId, seq<Reward>>

  function RewardsOf(k: Catalogue, c: ClassId): seq<Reward> {
    if c in k then k[c] else []
  }

  /** The player: skills, pools, the joined classes in list order with their records, and the active class. */
  datatype Player = Player(
    skills: map<int, HeldSkill>, pools: Pools, order: seq<ClassId>, levels: map<ClassId, ClassLevel>, current: ClassId)

  function JoinRange(t: Tables, k: Catalogue, p: Player, c: ClassId, from: int, to: int): Player {
    if c !in p.levels then p
    else
      var s := ApplyRewards(t, Sheet(p.skills, p.pools, p.levels[c].applied), c, RewardsOf(k, c), from, to);
      p.(skills := s.skills, pools := s.pools, levels := p.levels[c := p.levels[c].(applied := s.applied)])
  }

  function LeaveClass(t: Tables, k: Catalogue, p: Player, c: ClassId): Player {
    var s := RevokeRewards(t, Sheet(p.skills, p.pools, []), c, RewardsOf(k, c));
    p.(skills := s.skills, pools := s.pools)
  }

  /** do_setclass, once the class is found */
  function SetClass(t: Tables, k: Catalogue, p: Player, c: ClassId): Player {
    if c !in p.levels || p.current == c then p
    else
      var p1 := if p.current != NO_CLASS then LeaveClass(t, k, p, p.current) else p;
      JoinRange(t, k, p1.(current := c), c, 1, p1.levels[c].level)
  }

  /** What advance_level adds to hit points, mana and movement. */
  datatype Growth = Growth(hit: int, mana: int, move: int)

  function Grow(p: Pools, g: Growth): Pools {
    Raise(Raise(Raise(p, HitPool, g.hit), ManaPool, g.mana), MovePool, g.move)
  }

  /** A level gained in a joined class, active or not: the level, the growth, and the rewards of that level alone. */
  function GainLevel(t: Tables, k: Catalogue, p: Player, c: ClassId, g: Growth): Player {
    if c !in p.levels then p
    else
      var level := p.levels[c].level + 1;
      JoinRange(t, k, p.(levels := p.levels[c := p.levels[c].(level := level)], pools := Grow(p.pools, g)), c, level, level)
  }

  function RebuildClasses(t: Tables, k: Catalogue, p: Player, order: seq<ClassId>): map<int, HeldSkill> {
    if order == [] then p.skills
    else
      var c, skills := order[|order| - 1], RebuildClasses(t, k, p, order[..|order| - 1]);
      if c in p.levels then RebuildClass(t, skills, c, p.levels[c].level, RewardsOf(k, c)) else skills
  }

  function Rebuild(t: Tables, k: Catalogue, p: Player): Player {
    p.(skills := RebuildClasses(t, k, p, p.order))
  }
}
