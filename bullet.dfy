/** A bullet: fired by a tower at one enemy, it homes in 15 px per tick,
    hits within 15 px, and gives up once it has travelled more than the
    tower's range.  Its damage, range and effect are copied from the tower
    when it is fired.  On a hit it applies the critical-hit draw, the
    damage and the tower type's special effect (ice freezes, poison
    poisons, a cannon splashes half its damage around the target), and
    credits the tower. */
module Bullets {
  import opened Kinds
  import opened Rules
  import opened State
  import opened Enemies
  import opened Towers

  /** A step of 15 px from a bullet toward a point (the game divides the
      offset by the distance, in floating point). */
  type Homing = (Point, Point) -> Point

  datatype Outcome = TargetLost | Hit | Expired | Advanced

  /** An enemy the splash around `center` reaches: not the target itself
      and at most 50 px away.  Only the enemy's position is read. */
  predicate Splashed(e: Enemy, target: Enemy, center: Point)
    reads e
  {
    e != target && SqDist(center, e.pos) <= Sq(SplashRadius)
  }

  /** The kill one enemy adds to a splash: itself when the splash reaches it
      and leaves it at or below 0 health. */
  function SplashKill(e: Enemy, target: Enemy, center: Point, damage: real): seq<EnemyKind>
    reads if e == target then {} else {e}
  {
    if e != target && SqDist(center, e.pos) <= Sq(SplashRadius)
       && e.health - ArmorDamage(damage, e.armor) <= 0.0
    then [e.kind] else []
  }

  /** The enemies a splash of `damage` around `center` kills, in list order:
      every enemy it reaches whose health it takes to 0 or below, including
      one whose health already was. */
  function SplashVictims(es: seq<Enemy>, target: Enemy, center: Point, damage: real): seq<EnemyKind>
    reads set e | e in es && e != target
    decreases |es|
  {
    if es == [] then []
    else SplashVictims(es[..|es| - 1], target, center, damage) + SplashKill(es[|es| - 1], target, center, damage)
  }

  /** The ledger after a splash: the kills of `SplashVictims`, in order. */
  function SplashLedger(l: Ledger, es: seq<Enemy>, target: Enemy, center: Point, damage: real, now: int): Ledger
    reads set e | e in es && e != target
  {
    AfterKills(l, SplashVictims(es, target, center, damage), now)
  }

  /** An enemy's health after the splash. */
  function SplashHealth(e: Enemy, target: Enemy, center: Point, damage: real): real
    reads e
  {
    e.health - (if Splashed(e, target, center) then ArmorDamage(damage, e.armor) else 0.0)
  }

  /** Whether an enemy is still active after the splash: a hit that leaves
      it at or below 0 health destroys it. */
  predicate SplashActive(e: Enemy, target: Enemy, center: Point, damage: real)
    reads e
  {
    if Splashed(e, target, center) && SplashHealth(e, target, center, damage) <= 0.0 then false else e.active
  }

  /** Every listed enemy other than the target is as a splash of `damage`
      around `center` leaves it. */
  twostate predicate SplashLanded(enemies: seq<Enemy>, target: Enemy, center: Point, damage: real)
    reads enemies
  {
    forall j :: 0 <= j < |enemies| && enemies[j] != target ==>
      && enemies[j].health == old(SplashHealth(enemies[j], target, center, damage))
      && enemies[j].active == old(SplashActive(enemies[j], target, center, damage))
  }

  /** Every listed enemy other than the target keeps its health and stays
      as active as it was. */
  twostate predicate OthersUntouched(enemies: seq<Enemy>, target: Enemy)
    reads enemies
  {
    forall j :: 0 <= j < |enemies| && enemies[j] != target ==>
      enemies[j].health == old(enemies[j].health) && enemies[j].active == old(enemies[j].active)
  }

  /** The splash on one enemy of the list. */
  method SplashOne(e: Enemy, target: Enemy, center: Point, damage: real, gs: GameState, now: int)
    requires gs.Valid()
    modifies e`health, e`active, gs
    ensures e.health == old(SplashHealth(e, target, center, damage))
    ensures e.active == old(SplashActive(e, target, center, damage))
    ensures gs.View() == AfterKills(old(gs.View()), old(SplashKill(e, target, center, damage)), now)
    ensures gs.Valid()
  {
    if e != target && SqDist(center, e.pos) <= Sq(SplashRadius) {
      e.TakeDamage(damage, gs, now);
    }
  }

  /** The splash on the enemy at position `i` of a list without repeats:
      every other enemy of the list is left as it was. */
  method SplashAt(enemies: seq<Enemy>, i: int, e: Enemy, target: Enemy, center: Point, damage: real, gs: GameState, now: int)
    requires 0 <= i < |enemies| && e == enemies[i] && NoDuplicates(enemies) && gs.Valid()
    modifies e`health, e`active, gs
    ensures e.health == old(SplashHealth(e, target, center, damage))
    ensures e.active == old(SplashActive(e, target, center, damage))
    ensures forall j :: 0 <= j < |enemies| && j != i ==> unchanged(enemies[j])
    ensures gs.View() == AfterKills(old(gs.View()), old(SplashKill(e, target, center, damage)), now)
    ensures gs.Valid()
  {
    SplashOne(e, target, center, damage, gs, now);
  }

  /** `applySplashDamage`: every enemy of the list that the splash reaches
      takes the damage, with no check of whether it is still alive, and each
      hit that leaves it at or below 0 health counts as a kill. */
  method ApplySplashDamage(enemies: seq<Enemy>, target: Enemy, damage: real, gs: GameState, now: int)
    requires gs.Valid() && NoDuplicates(enemies)
    modifies enemies`health, enemies`active, gs
    ensures forall j :: 0 <= j < |enemies| ==>
              && enemies[j].health == old(SplashHealth(enemies[j], target, target.pos, damage))
              && enemies[j].active == old(SplashActive(enemies[j], target, target.pos, damage))
    ensures gs.View() == old(SplashLedger(gs.View(), enemies, target, target.pos, damage, now))
    ensures gs.Valid() && target.health == old(target.health) && target.active == old(target.active)
  {
    SplashEach(enemies, target, target.pos, damage, gs, now);
    if target in enemies {
      var k :| 0 <= k < |enemies| && enemies[k] == target;
      assert target.health == old(SplashHealth(enemies[k], target, target.pos, damage));
    }
  }

  /** The loop of `applySplashDamage`, position by position.  `kills`
      holds each enemy's splash kill as the splash starts, `trace` the
      ledger before the splash and after each enemy's turn. */
  method SplashEach(enemies: seq<Enemy>, target: Enemy, center: Point, damage: real, gs: GameState, now: int)
    requires gs.Valid() && NoDuplicates(enemies)
    modifies enemies`health, enemies`active, gs
    ensures forall j :: 0 <= j < |enemies| ==>
              enemies[j].health == old(SplashHealth(enemies[j], target, center, damage))
              && enemies[j].active == old(SplashActive(enemies[j], target, center, damage))
    ensures gs.View() == AfterKills(old(gs.View()), old(SplashVictims(enemies, target, center, damage)), now)
    ensures gs.Valid()
  {
    ghost var kills := SplashKills(enemies, target, center, damage);
    VictimsAreKills(enemies, target, center, damage);
    ghost var trace := [gs.View()];
    var i := 0;
    while i < |enemies|
      invariant 0 <= i <= |enemies|
      invariant gs.Valid()
      invariant forall j :: 0 <= j < i ==>
                  enemies[j].health == old(SplashHealth(enemies[j], target, center, damage))
                  && enemies[j].active == old(SplashActive(enemies[j], target, center, damage))
      invariant forall j :: i <= j < |enemies| ==> unchanged(enemies[j])
      invariant |trace| == i + 1 && trace[0] == old(gs.View()) && trace[i] == gs.View()
      invariant forall j :: 0 <= j < i ==> trace[j + 1] == AfterKills(trace[j], kills[j], now)
    {
      var e := enemies[i];
      assert SplashKill(e, target, center, damage) == kills[i];
      assert SplashHealth(e, target, center, damage) == old(SplashHealth(e, target, center, damage));
      assert SplashActive(e, target, center, damage) == old(SplashActive(e, target, center, damage));
      SplashAt(enemies, i, e, target, center, damage, gs, now);
      trace := trace + [gs.View()];
      i := i + 1;
    }
    TraceTakesAll(trace, kills, now);
  }

  /** The kill each enemy of a list adds to a splash, position by position. */
  function SplashKills(es: seq<Enemy>, target: Enemy, center: Point, damage: real): (r: seq<seq<EnemyKind>>)
    reads set e | e in es && e != target
    ensures |r| == |es|
    ensures forall j :: 0 <= j < |es| ==> r[j] == SplashKill(es[j], target, center, damage)
    decreases |es|
  {
    if es == [] then []
    else SplashKills(es[..|es| - 1], target, center, damage) + [SplashKill(es[|es| - 1], target, center, damage)]
  }

  /** The runs of a sequence of runs, one after the other. */
  function Concat(ks: seq<seq<EnemyKind>>): seq<EnemyKind>
    decreases |ks|
  {
    if ks == [] then [] else Concat(ks[..|ks| - 1]) + ks[|ks| - 1]
  }

  /** A splash's victims are its enemies' kills, in list order. */
  lemma {:induction false} VictimsAreKills(es: seq<Enemy>, target: Enemy, center: Point, damage: real)
    ensures SplashVictims(es, target, center, damage) == Concat(SplashKills(es, target, center, damage))
    decreases |es|
  {
    if es != [] {
      var ks := SplashKills(es, target, center, damage);
      assert ks[..|ks| - 1] == SplashKills(es[..|es| - 1], target, center, damage);
      VictimsAreKills(es[..|es| - 1], target, center, damage);
    }
  }

  /** A ledger trace that takes each run of kills in turn ends where all the
      runs, one after the other, take it. */
  lemma {:induction false} TraceTakesAll(trace: seq<Ledger>, kills: seq<seq<EnemyKind>>, now: int)
    requires |trace| == |kills| + 1
    requires forall j :: 0 <= j < |kills| ==> trace[j + 1] == AfterKills(trace[j], kills[j], now)
    ensures trace[|kills|] == AfterKills(trace[0], Concat(kills), now)
    decreases |kills|
  {
    if kills != [] {
      var n := |kills| - 1;
      TraceTakesAll(trace[..n + 1], kills[..n], now);
      AfterKillsAppend(trace[0], Concat(kills[..n]), kills[n], now);
    }
  }

  /** The ledger after a strike: the target's kill, then, for a cannon,
      the splash kills, as one run that keeps the state consistent. */
  lemma StrikeLedger(start: Ledger, first: seq<EnemyKind>, splash: seq<EnemyKind>, cannon: bool, now: int)
    requires Consistent(start)
    ensures var r := AfterKills(start, first + (if cannon then splash else []), now);
      && r == (if cannon then AfterKills(AfterKills(start, first, now), splash, now) else AfterKills(start, first, now))
      && Consistent(r) && r.lives == start.lives && r.wave == start.wave && r.bossWave == start.bossWave
  {
    if cannon {
      AfterKillsAppend(start, first, splash, now);
      KillsKeepConsistent(start, first + splash, now);
    } else {
      assert first + [] == first;
      KillsKeepConsistent(start, first, now);
    }
  }

  class Bullet {
    const tower: Tower
    const target: Enemy?
    const damage: int
    const range: int
    const effect: TowerKind
    var pos: Point
    var traveled: int
    var active: bool

    /** The target as a frame: empty when there is none. */
    function Aimed(): set<Enemy>
    {
      if target == null then {} else {target}
    }

    /** A bullet fired from `tower` at `target`: damage, range and effect are
        the tower's at this moment. */
    constructor (tower: Tower, target: Enemy?)
      ensures this.tower == tower && this.target == target
      ensures damage == tower.baseDamage && range == tower.range && effect == tower.kind
      ensures pos == tower.pos && traveled == 0 && active
    {
      this.tower := tower;
      this.target := target;
      damage := tower.baseDamage;
      range := tower.range;
      effect := tower.kind;
      pos := tower.pos;
      traveled := 0;
      active := true;
    }

    /** What a hit on a live target does, between the state before it and
        the state after it: the critical-hit draw doubles the damage, the
        strike of `Struck` lands, and the tower is credited with the damage
        before armor and, if the target ends at or below 0 health, with a
        kill and 10 experience. */
    twostate predicate HitEffects(gs: GameState, enemies: seq<Enemy>, crit: bool, now: int)
      reads this, tower, target, enemies, gs
      requires target != null
    {
      var dealt := CritDamage(damage, crit);
      var killed := target.health <= 0.0;
      && !active
      && Struck(dealt, gs, enemies, now)
      && tower.totalDamageDealt == old(tower.totalDamageDealt) + dealt
      && tower.kills == old(tower.kills) + (if killed then 1 else 0)
      && tower.View() == (if killed then AfterGain(old(tower.View()), 10) else old(tower.View()))
    }

    /** What the damage and the special effect of a hit do: armor reduces
        the damage, the target is destroyed exactly when it ends at or below
        0 health, ice freezes it and poison poisons it (and neither status
        changes otherwise), a cannon's splash
        lands on the other listed enemies, which no other effect touches,
        and the ledger takes the target's kill (if any) and then the kills
        of the splash. */
    twostate predicate Struck(dealt: int, gs: GameState, enemies: seq<Enemy>, now: int)
      reads target, enemies, gs
      requires target != null
    {
      var killed := target.health <= 0.0;
      && target.health == old(target.health) - ArmorDamage(dealt as real, target.armor)
      && (if killed then !target.active else target.active == old(target.active))
      && (effect == Cannon ==> SplashLanded(enemies, target, old(target.pos), damage as real * 0.5))
      && (effect != Cannon ==> OthersUntouched(enemies, target))
      && (effect == Ice ==> target.frozen && target.frozenTimer == FreezeMs)
      && (effect != Ice ==> target.FreezeKept())
      && (effect == Poison ==>
            target.poisoned && target.poisonDamage == PoisonDamage as real && target.poisonTimer == PoisonPeriodMs)
      && (effect != Poison ==> target.PoisonKept())
      && gs.View() == AfterKills(old(gs.View()),
                        (if killed then [target.kind] else [])
                        + (if effect == Cannon
                           then old(SplashVictims(enemies, target, target.pos, damage as real * 0.5))
                           else []),
                        now)
    }

    /** `update`: a bullet whose target is gone or dead disappears without
        effect; one within 15 px of its target hits it (before the range
        test); one that has travelled more than its range disappears;
        any other advances 15 px. */
    method Update(gs: GameState, enemies: seq<Enemy>, crit: bool, now: int, step: Homing)
      returns (o: Outcome)
      requires gs.Valid() && NoDuplicates(enemies) && Sound(tower.View())
      modifies this`pos, this`traveled, this`active, tower, enemies`health, enemies`active, gs
      modifies Aimed()`health, Aimed()`active, Aimed()`frozen, Aimed()`frozenTimer, Aimed()`poisoned,
               Aimed()`poisonDamage, Aimed()`poisonTimer
      ensures gs.Valid() && Sound(tower.View()) && gs.lives == old(gs.lives)
      ensures gs.wave == old(gs.wave) && gs.bossWave == old(gs.bossWave)
      ensures o == TargetLost <==> target == null || old(target.health) <= 0.0
      ensures o == Hit <==>
                target != null && old(target.health) > 0.0 && SqDist(old(pos), old(target.pos)) <= Sq(HitRadius)
      ensures o == Expired <==>
                target != null && old(target.health) > 0.0 && SqDist(old(pos), old(target.pos)) > Sq(HitRadius)
                && old(traveled) > range
      ensures o == Hit ==> HitEffects(gs, enemies, crit, now)
      ensures o != Hit ==> Unhit(gs, enemies)
      ensures o == TargetLost || o == Expired ==> !active
      ensures o == Advanced ==>
                && active == old(active) && traveled == old(traveled) + BulletSpeed
                && pos == step(old(pos), target.pos)
    {
      if target == null || target.health <= 0.0 {
        active := false;
        return TargetLost;
      }
      if SqDist(pos, target.pos) <= Sq(HitRadius) {
        HitTarget(gs, enemies, crit, now);
        return Hit;
      }
      if traveled > range {
        active := false;
        return Expired;
      }
      pos := step(pos, target.pos);
      traveled := traveled + BulletSpeed;
      return Advanced;
    }

    /** Nothing but the bullet itself changed: not the ledger, the tower,
        the target (its health, state and status effects) or any listed
        enemy. */
    twostate predicate Unhit(gs: GameState, enemies: seq<Enemy>)
      reads tower, gs, target, enemies
    {
      && gs.View() == old(gs.View())
      && tower.View() == old(tower.View()) && tower.kills == old(tower.kills)
      && tower.totalDamageDealt == old(tower.totalDamageDealt)
      && (target != null ==>
            && target.health == old(target.health) && target.active == old(target.active)
            && target.FreezeKept() && target.PoisonKept())
      && (forall e :: e in enemies ==> e.health == old(e.health) && e.active == old(e.active))
    }

    /** `hitTarget`: damage after the critical-hit draw, the special effect,
        the tower's damage total, and a kill credited to the tower (with 10
        experience) when the target ends at or below 0 health.  A target
        that is gone or dead is not hit. */
    method HitTarget(gs: GameState, enemies: seq<Enemy>, crit: bool, now: int)
      requires gs.Valid() && NoDuplicates(enemies) && Sound(tower.View())
      modifies this`active, tower, enemies`health, enemies`active, gs
      modifies Aimed()`health, Aimed()`active, Aimed()`frozen, Aimed()`frozenTimer, Aimed()`poisoned,
               Aimed()`poisonDamage, Aimed()`poisonTimer
      ensures gs.Valid() && Sound(tower.View()) && !active && gs.lives == old(gs.lives)
      ensures gs.wave == old(gs.wave) && gs.bossWave == old(gs.bossWave)
      ensures target == null || old(target.health) <= 0.0 ==> Unhit(gs, enemies)
      ensures target != null && old(target.health) > 0.0 ==> HitEffects(gs, enemies, crit, now)
    {
      if target == null || target.health <= 0.0 {
        active := false;
        return;
      }
      var finalDamage := CritDamage(damage, crit);
      Strike(finalDamage, gs, enemies, now);
      Credit(finalDamage, target.health <= 0.0);
      active := false;
    }

    /** The damage and the special effect of a hit on the target. */
    method Strike(dealt: int, gs: GameState, enemies: seq<Enemy>, now: int)
      requires target != null && gs.Valid() && NoDuplicates(enemies)
      modifies target`health, target`active, target`frozen, target`frozenTimer, target`poisoned,
               target`poisonDamage, target`poisonTimer, enemies`health, enemies`active, gs
      ensures gs.Valid() && gs.lives == old(gs.lives)
      ensures gs.wave == old(gs.wave) && gs.bossWave == old(gs.bossWave)
      ensures Struck(dealt, gs, enemies, now)
    {
      ghost var start := gs.View();
      ghost var splash := SplashVictims(enemies, target, target.pos, damage as real * 0.5);
      target.TakeDamage(dealt as real, gs, now);
      ghost var first: seq<EnemyKind> := if target.health <= 0.0 then [target.kind] else [];
      assert [target.kind][..0] == [];
      assert gs.View() == AfterKills(start, first, now);
      assert splash == SplashVictims(enemies, target, target.pos, damage as real * 0.5);
      ApplySpecialEffect(gs, enemies, now);
      StrikeLedger(start, first, splash, effect == Cannon, now);
    }

    /** The tower's credit for a hit: the damage before armor, and a kill
        with 10 experience when the target died. */
    method Credit(dealt: int, killed: bool)
      requires Sound(tower.View())
      modifies tower`level, tower`experience, tower`experienceToNext, tower`range, tower`attackSpeed,
               tower`baseDamage, tower`fireDelay, tower`kills, tower`totalDamageDealt
      ensures Sound(tower.View())
      ensures tower.totalDamageDealt == old(tower.totalDamageDealt) + dealt
      ensures tower.kills == old(tower.kills) + (if killed then 1 else 0)
      ensures tower.View() == (if killed then AfterGain(old(tower.View()), 10) else old(tower.View()))
    {
      tower.totalDamageDealt := tower.totalDamageDealt + dealt;
      if killed {
        tower.kills := tower.kills + 1;
        tower.GainExperience(10);
        GainKeepsSound(old(tower.View()), 10);
      }
    }

    /** `applySpecialEffect`: ice freezes the target for 2 s, poison poisons
        it (3 damage, 1 s timer), a cannon splashes half of the bullet's
        damage (before the critical-hit draw) within 50 px of the target. */
    method ApplySpecialEffect(gs: GameState, enemies: seq<Enemy>, now: int)
      requires target != null && gs.Valid() && NoDuplicates(enemies)
      modifies target`frozen, target`frozenTimer, target`poisoned, target`poisonDamage, target`poisonTimer,
               enemies`health, enemies`active, gs
      ensures effect == Ice ==> target.frozen && target.frozenTimer == FreezeMs
      ensures effect == Poison ==>
                target.poisoned && target.poisonDamage == PoisonDamage as real && target.poisonTimer == PoisonPeriodMs
      ensures effect != Ice ==> target.FreezeKept()
      ensures effect != Poison ==> target.PoisonKept()
      ensures effect == Cannon ==>
                gs.View() == AfterKills(old(gs.View()), old(SplashVictims(enemies, target, target.pos, damage as real * 0.5)), now)
      ensures effect != Cannon ==> gs.View() == old(gs.View())
      ensures effect == Cannon ==> SplashLanded(enemies, target, old(target.pos), damage as real * 0.5)
      ensures effect != Cannon ==> OthersUntouched(enemies, target)
      ensures target.health == old(target.health) && target.active == old(target.active)
    {
      if effect == Ice {
        target.ApplyFreeze(FreezeMs);
      } else if effect == Poison {
        target.ApplyPoison(PoisonDamage as real, PoisonPeriodMs);
      } else if effect == Cannon {
        Splash(gs, enemies, now);
      }
    }

    /** The cannon's splash: half of the bullet's damage around the target. */
    method Splash(gs: GameState, enemies: seq<Enemy>, now: int)
      requires target != null && gs.Valid() && NoDuplicates(enemies)
      modifies enemies`health, enemies`active, gs
      ensures gs.View() == old(SplashLedger(gs.View(), enemies, target, target.pos, damage as real * 0.5, now))
      ensures SplashLanded(enemies, target, old(target.pos), damage as real * 0.5)
      ensures target.health == old(target.health) && target.active == old(target.active)
    {
      ApplySplashDamage(enemies, target, damage as real * 0.5, gs, now);
    }
  }
}
