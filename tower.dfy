/** A tower: its type's stats, its level and experience, the upgrades
    bought for it, and the scan for the closest enemy it can hit.

    The progression part of a tower (level, experience, range, fire
    interval, damage and the period of its firing timer) is the datatype
    `Progress`; every method that changes it is specified by a pure
    transition (`AfterUpgrade`, `AfterGain`, `AfterLevelUp`), and the
    invariant `Sound` is proved to survive each one. */
module Towers {
  import opened Kinds
  import opened Rules
  import opened State
  import opened Enemies

  datatype Progress = Progress(
    level: int,
    experience: int,
    experienceToNext: int,
    range: int,
    attackSpeed: int,      // fire interval in ms
    baseDamage: int,
    fireDelay: int)        // the period of the tower's firing timer, in ms

  /** A new tower of `kind` at level 1, its timer ticking at its fire interval. */
  function Fresh(kind: TowerKind): Progress
  {
    var s := TowerStatsOf(kind);
    Progress(1, 0, 100, s.range, s.attackSpeed, s.damage, s.attackSpeed)
  }

  /** What holds of every tower: the experience threshold is the one of its
      level, the experience is below it, the fire interval respects the
      50 ms floor and the firing timer runs at the fire interval. */
  predicate Sound(p: Progress)
  {
    && p.level >= 1
    && p.experienceToNext == LevelThreshold(p.level)
    && 0 <= p.experience < p.experienceToNext
    && p.attackSpeed >= SpeedFloor
    && p.fireDelay == p.attackSpeed
  }

  /** The stat change of one upgrade button: range up 30 (capped at 400),
      fire interval down 50 (floored at 50, the timer following it), or
      damage up 3. */
  function StatUpgrade(p: Progress, u: UpgradeKind): Progress
  {
    match u
    case RangeUp => p.(range := if p.range + 30 < RangeCap then p.range + 30 else RangeCap)
    case SpeedUp =>
      var s := if p.attackSpeed - 50 > SpeedFloor then p.attackSpeed - 50 else SpeedFloor;
      p.(attackSpeed := s, fireDelay := s)
    case DamageUp => p.(baseDamage := p.baseDamage + 3)
  }

  /** `levelUp` as written: the fire interval drops by 10 but the firing
      timer keeps its old period. */
  function AfterLevelUpAsWritten(p: Progress): Progress
  {
    p.(level := p.level + 1,
       experience := 0,
       experienceToNext := 3 * p.experienceToNext / 2,
       range := p.range + 10,
       baseDamage := p.baseDamage + 1,
       attackSpeed := if p.attackSpeed - 10 > SpeedFloor then p.attackSpeed - 10 else SpeedFloor)
  }

  /** `levelUp` with the firing timer following the new fire interval, as
      the upgrade buttons do. */
  function AfterLevelUp(p: Progress): Progress
  {
    var s := if p.attackSpeed - 10 > SpeedFloor then p.attackSpeed - 10 else SpeedFloor;
    p.(level := p.level + 1,
       experience := 0,
       experienceToNext := 3 * p.experienceToNext / 2,
       range := p.range + 10,
       baseDamage := p.baseDamage + 1,
       attackSpeed := s,
       fireDelay := s)
  }

  /** `gainExperience`: the experience grows, and reaching the threshold
      levels the tower up. */
  function AfterGain(p: Progress, amount: int): Progress
  {
    var q := p.(experience := p.experience + amount);
    if q.experience >= q.experienceToNext then AfterLevelUp(q) else q
  }

  /** A bought upgrade: the stat change, then 25 experience. */
  function AfterUpgrade(p: Progress, u: UpgradeKind): Progress
  {
    AfterGain(StatUpgrade(p, u), 25)
  }

  /** The charge for an upgrade: the button's base price times the level. */
  function UpgradeCost(u: UpgradeKind, level: int): int
  {
    UpgradeBasePrice(u) * level
  }

  // ----------------------------------------------------------------- lemmas

  lemma FreshIsSound(kind: TowerKind)
    ensures Sound(Fresh(kind))
    ensures Fresh(kind).range == TowerStatsOf(kind).range && Fresh(kind).baseDamage == TowerStatsOf(kind).damage
  {
  }

  /** Each upgrade changes its own stat and no other: range rises to at most
      400 and never falls while within the cap, the fire interval falls to
      no less than 50 and never rises, damage rises by exactly 3. */
  lemma UpgradeChangesOneStat(p: Progress, u: UpgradeKind)
    requires Sound(p)
    ensures var r := StatUpgrade(p, u);
      && r.level == p.level && r.experience == p.experience && r.experienceToNext == p.experienceToNext
      && (u == RangeUp ==>
            r.attackSpeed == p.attackSpeed && r.baseDamage == p.baseDamage
            && r.range <= RangeCap && (p.range <= RangeCap ==> p.range <= r.range)
            && (p.range + 30 <= RangeCap ==> r.range == p.range + 30))
      && (u == SpeedUp ==>
            r.range == p.range && r.baseDamage == p.baseDamage
            && SpeedFloor <= r.attackSpeed <= p.attackSpeed
            && (p.attackSpeed - 50 >= SpeedFloor ==> r.attackSpeed == p.attackSpeed - 50))
      && (u == DamageUp ==>
            r.range == p.range && r.attackSpeed == p.attackSpeed && r.baseDamage == p.baseDamage + 3)
      && Sound(r)
  {
  }

  /** A level-up raises the level by one, clears the experience, sets the
      next threshold to that of the new level (larger than the old one),
      adds 10 range and 1 damage and keeps the fire interval above the
      floor and the timer on it.  It holds whatever the experience, which
      is at or above the threshold when a level-up happens. */
  lemma LevelUpBonuses(p: Progress)
    requires p.level >= 1 && p.experienceToNext == LevelThreshold(p.level) && p.attackSpeed >= SpeedFloor
    ensures var r := AfterLevelUp(p);
      && r.level == p.level + 1 && r.experience == 0
      && r.experienceToNext == LevelThreshold(r.level) > p.experienceToNext
      && r.range == p.range + 10 && r.baseDamage == p.baseDamage + 1
      && SpeedFloor <= r.attackSpeed <= p.attackSpeed
      && Sound(r)
  {
    ThresholdGrows(p.level);
  }

  /** Gaining at most 100 experience keeps a tower sound: the threshold is
      never below 100, so a single gain levels up at most once and leaves
      the experience below the new threshold. */
  lemma GainKeepsSound(p: Progress, amount: int)
    requires Sound(p) && 0 <= amount <= 100
    ensures Sound(AfterGain(p, amount))
    ensures AfterGain(p, amount).level == p.level || AfterGain(p, amount).level == p.level + 1
  {
    ThresholdGrows(p.level);
    var q := p.(experience := p.experience + amount);
    if q.experience >= q.experienceToNext {
      LevelUpBonuses(q);
    }
  }

  /** A bought upgrade keeps a tower sound. */
  lemma UpgradeKeepsSound(p: Progress, u: UpgradeKind)
    requires Sound(p)
    ensures Sound(AfterUpgrade(p, u))
  {
    UpgradeChangesOneStat(p, u);
    GainKeepsSound(StatUpgrade(p, u), 25);
  }

  /** The 400 px range cap binds the upgrade buttons but not levelling: a
      tower at the cap that levels up goes past it. */
  lemma LevelUpPassesRangeCap(p: Progress)
    requires Sound(p) && p.range == RangeCap
    ensures AfterLevelUp(p).range == RangeCap + 10
  {
  }

  /** As written, a level-up of any tower whose timer is in step and whose
      fire interval is still above the 50 ms floor leaves the timer slower
      than the fire interval, so the tower is no longer sound; the
      corrected level-up differs from it in the timer alone. */
  lemma LevelUpAsWrittenLeavesTimerBehind(p: Progress)
    requires p.fireDelay == p.attackSpeed && p.attackSpeed > SpeedFloor
    ensures var r := AfterLevelUpAsWritten(p);
      r.fireDelay > r.attackSpeed && !Sound(r)
    ensures AfterLevelUp(p) == AfterLevelUpAsWritten(p).(fireDelay := AfterLevelUp(p).attackSpeed)
  {
  }

  /** The concrete case: a new bow tower with 75 experience buys a speed
      upgrade (300 ms to 250 ms, timer to 250 ms); the 25 experience of the
      upgrade level it up, which lowers the fire interval to 240 ms while
      the timer stays at 250 ms as written. */
  lemma StaleTimerWitness()
    ensures var p := StatUpgrade(Fresh(Bow).(experience := 75), SpeedUp).(experience := 100);
      && p.attackSpeed == 250 && p.fireDelay == 250
      && AfterLevelUpAsWritten(p).attackSpeed == 240 && AfterLevelUpAsWritten(p).fireDelay == 250
      && AfterLevelUp(p).fireDelay == 240
      && AfterUpgrade(Fresh(Bow).(experience := 75), SpeedUp) == AfterLevelUp(p)
  {
  }

  // ---------------------------------------------------------------- targeting

  class Tower {
    const kind: TowerKind
    const pos: Point
    var level: int
    var experience: int
    var experienceToNext: int
    var range: int
    var attackSpeed: int
    var baseDamage: int
    var fireDelay: int
    var kills: int
    var totalDamageDealt: int

    function View(): Progress
      reads this
    {
      Progress(level, experience, experienceToNext, range, attackSpeed, baseDamage, fireDelay)
    }

    /** A tower of `kind` (the game looks its row up by name and falls back
        to the bow row) placed at `at`. */
    constructor (kind: TowerKind, at: Point)
      ensures this.kind == kind && pos == at && View() == Fresh(kind) && Sound(View())
      ensures kills == 0 && totalDamageDealt == 0
    {
      var s := TowerStatsOf(kind);
      this.kind := kind;
      pos := at;
      level, experience, experienceToNext := 1, 0, 100;
      range, attackSpeed, baseDamage := s.range, s.attackSpeed, s.damage;
      fireDelay := s.attackSpeed;
      kills, totalDamageDealt := 0, 0;
    }

    /** `upgrade`: with too little money nothing changes; otherwise the
        charge leaves the money, the chosen stat changes and the tower gains
        25 experience. */
    method Upgrade(u: UpgradeKind, gs: GameState)
      requires Sound(View()) && gs.Valid()
      modifies this`level, this`experience, this`experienceToNext, this`range, this`attackSpeed,
               this`baseDamage, this`fireDelay, gs`money
      ensures old(gs.money) < UpgradeCost(u, old(level)) ==> View() == old(View()) && gs.money == old(gs.money)
      ensures old(gs.money) >= UpgradeCost(u, old(level)) ==>
                View() == AfterUpgrade(old(View()), u) && gs.money == old(gs.money) - UpgradeCost(u, old(level))
      ensures Sound(View()) && gs.Valid()
    {
      var cost := UpgradeBasePrice(u) * level;
      if gs.money >= cost {
        gs.money := gs.money - cost;
        ApplyUpgrade(u);
        GainExperience(25);
        UpgradeKeepsSound(old(View()), u);
      }
    }

    /** The `switch` of `upgrade`: the chosen stat alone changes. */
    method ApplyUpgrade(u: UpgradeKind)
      modifies this`range, this`attackSpeed, this`fireDelay, this`baseDamage
      ensures View() == StatUpgrade(old(View()), u)
    {
      match u {
        case RangeUp =>
          range := if range + 30 < RangeCap then range + 30 else RangeCap;
        case SpeedUp =>
          attackSpeed := if attackSpeed - 50 > SpeedFloor then attackSpeed - 50 else SpeedFloor;
          fireDelay := attackSpeed;
        case DamageUp =>
          baseDamage := baseDamage + 3;
      }
    }

    /** `gainExperience`. */
    method GainExperience(amount: int)
      modifies this`level, this`experience, this`experienceToNext, this`range, this`attackSpeed,
               this`baseDamage, this`fireDelay
      ensures View() == AfterGain(old(View()), amount)
    {
      experience := experience + amount;
      if experience >= experienceToNext {
        LevelUp();
      }
    }

    /** `levelUp`, with the firing timer retuned to the new fire interval. */
    method LevelUp()
      modifies this`level, this`experience, this`experienceToNext, this`range, this`attackSpeed,
               this`baseDamage, this`fireDelay
      ensures View() == AfterLevelUp(old(View()))
    {
      level := level + 1;
      experience := 0;
      experienceToNext := 3 * experienceToNext / 2;
      range := range + 10;
      baseDamage := baseDamage + 1;
      attackSpeed := if attackSpeed - 10 > SpeedFloor then attackSpeed - 10 else SpeedFloor;
      fireDelay := attackSpeed;
    }

    /** An enemy this tower may shoot: alive, and its distance minus 12 below
        the tower's range. */
    predicate CanTarget(e: Enemy)
      reads this, e
    {
      e.health > 0.0 && InAimRange(SqDist(e.pos, pos), range)
    }

    /** `k` is the position the scan settles on: a target, no target strictly
        closer anywhere in the list, and none as close earlier in the list. */
    predicate ClosestAt(enemies: seq<Enemy>, k: int)
      reads this, enemies
    {
      && 0 <= k < |enemies|
      && CanTarget(enemies[k])
      && (forall j :: 0 <= j < |enemies| && CanTarget(enemies[j]) ==>
            SqDist(enemies[k].pos, pos) <= SqDist(enemies[j].pos, pos))
      && (forall j :: 0 <= j < k && CanTarget(enemies[j]) ==>
            SqDist(enemies[k].pos, pos) < SqDist(enemies[j].pos, pos))
    }

    /** `aimAtClosestEnemy`: a linear scan that keeps the first strictly
        closer target; null exactly when no enemy can be targeted.  The
        rotation toward the target is drawing only. */
    method AimAtClosestEnemy(enemies: seq<Enemy>) returns (t: Enemy?)
      ensures t == null <==> forall j :: 0 <= j < |enemies| ==> !CanTarget(enemies[j])
      ensures t != null ==> exists k :: ClosestAt(enemies, k) && enemies[k] == t
    {
      t := null;
      var best := -1;
      var i := 0;
      while i < |enemies|
        invariant 0 <= i <= |enemies|
        invariant -1 <= best < i
        invariant best == -1 <==> t == null
        invariant best == -1 ==> forall j :: 0 <= j < i ==> !CanTarget(enemies[j])
        invariant best != -1 ==> t == enemies[best] && ClosestAt(enemies[..i], best)
      {
        var e := enemies[i];
        if e.health > 0.0 && InAimRange(SqDist(e.pos, pos), range)
           && (t == null || SqDist(e.pos, pos) < SqDist(t.pos, pos)) {
          t := e;
          best := i;
        }
        i := i + 1;
      }
      assert enemies[..i] == enemies;
    }
  }
}
