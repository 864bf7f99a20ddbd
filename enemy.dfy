/** One enemy on the path: its stats fixed at spawn, its health, position,
    waypoint index and the two status effects, freeze and poison.  A kill
    or a leak reaches the shared `GameState`.  Phaser's `destroy()` is
    modelled as clearing `active`; drawing, tints and sound are left out. */
module Enemies {
  import opened Kinds
  import opened Rules
  import opened State

  /** Where `spawnEnemy` puts a new enemy: 50 px left of the first point of
      the drawn path. */
  const SpawnPoint := Point(-50.0, 100.0)

  /** The waypoints every enemy walks (`generatePath`); they are not the
      points of the path drawn on screen. */
  const Waypoints: seq<Point> := [
    Point(-50.0, 325.0), Point(200.0, 325.0), Point(200.0, 200.0), Point(400.0, 200.0),
    Point(400.0, 450.0), Point(600.0, 450.0), Point(600.0, 100.0), Point(800.0, 100.0),
    Point(800.0, 325.0), Point(1200.0, 325.0)]

  /** A step of `speed` pixels from a position toward a waypoint.  The
      game takes it with `atan2`, `cos` and `sin`; the model takes it as
      given. */
  type Stepper = (Point, Point, real) -> Point

  /** Freeze and poison durations of the towers' special effects, and the
      poison's damage and re-arm period. */
  const FreezeMs := 2000
  const PoisonDamage := 3
  const PoisonPeriodMs := 1000

  class Enemy {
    const kind: EnemyKind
    const maxHealth: real
    const speed: real := EnemyStatsOf(kind).speed
    const reward: int := EnemyStatsOf(kind).reward
    const armor: int := EnemyStatsOf(kind).armor
    var health: real
    var pos: Point
    var pathIndex: nat
    var frozen: bool
    var frozenTimer: int
    var poisoned: bool
    var poisonTimer: int
    var poisonDamage: real
    var active: bool

    /** A new enemy of `kind` in wave `wave`: its health is the table's base
        health times the wave number. */
    constructor (kind: EnemyKind, wave: int, at: Point)
      ensures this.kind == kind && maxHealth == (EnemyStatsOf(kind).health * wave) as real
      ensures health == maxHealth && pos == at && pathIndex == 0 && active
      ensures !frozen && frozenTimer == 0 && !poisoned && poisonTimer == 0 && poisonDamage == 0.0
    {
      this.kind := kind;
      maxHealth := (EnemyStatsOf(kind).health * wave) as real;
      health := (EnemyStatsOf(kind).health * wave) as real;
      pos := at;
      pathIndex := 0;
      frozen, frozenTimer := false, 0;
      poisoned, poisonTimer, poisonDamage := false, 0, 0.0;
      active := true;
    }

    /** `takeDamage`: the hit loses at least 1 to armor rules, and any hit
        that leaves health at or below 0 is a kill, whatever the health was
        before. */
    method TakeDamage(damage: real, gs: GameState, now: int)
      requires gs.Valid()
      modifies this`health, this`active, gs
      ensures health == old(health) - ArmorDamage(damage, armor)
      ensures health < old(health)
      ensures health <= 0.0 ==> !active && gs.View() == AfterKill(old(gs.View()), reward, kind == Boss, now)
      ensures health > 0.0 ==> active == old(active) && gs.View() == old(gs.View())
      ensures gs.Valid()
    {
      var finalDamage := if damage - armor as real > 1.0 then damage - armor as real else 1.0;
      health := health - finalDamage;
      if health <= 0.0 {
        Die(gs, now);
      }
    }

    /** The freeze status is as it was. */
    twostate predicate FreezeKept()
      reads this
    {
      frozen == old(frozen) && frozenTimer == old(frozenTimer)
    }

    /** The poison status is as it was. */
    twostate predicate PoisonKept()
      reads this
    {
      poisoned == old(poisoned) && poisonDamage == old(poisonDamage) && poisonTimer == old(poisonTimer)
    }

    /** `applyFreeze`: the freeze timer is set to the duration, not added to. */
    method ApplyFreeze(duration: int)
      modifies this`frozen, this`frozenTimer
      ensures frozen && frozenTimer == duration
    {
      frozen := true;
      frozenTimer := duration;
    }

    /** `applyPoison`: the poison's damage and timer are overwritten. */
    method ApplyPoison(damage: real, duration: int)
      modifies this`poisoned, this`poisonDamage, this`poisonTimer
      ensures poisoned && poisonDamage == damage && poisonTimer == duration
    {
      poisoned := true;
      poisonDamage := damage;
      poisonTimer := duration;
    }

    /** `reachEnd`: the enemy leaks, costing exactly one life. */
    method ReachEnd(gs: GameState)
      modifies this`active, gs`lives
      ensures !active
      ensures gs.View() == old(gs.View()).(lives := old(gs.lives) - 1)
      ensures gs.Valid() == old(gs.Valid())
    {
      gs.LoseLife();
      active := false;
    }

    /** `die`: the streak, the reward and the achievements, then the enemy is
        gone. */
    method Die(gs: GameState, now: int)
      requires gs.Valid()
      modifies this`active, gs
      ensures !active
      ensures gs.View() == AfterKill(old(gs.View()), reward, kind == Boss, now) && gs.Valid()
    {
      gs.ScoreKill(reward, now);
      ghost var k := gs.View();
      CheckAchievements(gs);
      assert gs.View() == AfterAchievements(k, kind == Boss);
      active := false;
      assert gs.Valid() by {
        KillKeepsConsistent(old(gs.View()), reward, kind == Boss, now);
      }
    }

    /** `checkAchievements`, run by `die` after the kill's counters moved:
        each achievement whose condition holds is appended unless listed,
        tower lord also raises the multiplier by 0.1, and a boss kill counts
        toward boss slayer. */
    method CheckAchievements(gs: GameState)
      modifies gs`achievements, gs`bossesKilled, gs`moneyMultiplierPct
      ensures gs.bossesKilled == old(gs.bossesKilled) + (if kind == Boss then 1 else 0)
      ensures gs.achievements == NewAchievements(old(gs.achievements),
                Milestones(gs.totalKills, gs.totalMoneyEarned, gs.wave, gs.towersBuilt, gs.streakCount),
                kind == Boss, gs.bossesKilled)
      ensures gs.moneyMultiplierPct == old(gs.moneyMultiplierPct) +
                (if gs.towersBuilt >= 50 && TowerLord !in old(gs.achievements) then 10 else 0)
    {
      var a1 := Unlock(gs.achievements, FirstBlood, gs.totalKills == 100);
      var a2 := Unlock(a1, MoneyMaker, gs.totalMoneyEarned >= 10000);
      var a3 := Unlock(a2, WaveMaster, gs.wave >= 20);
      var pct := gs.moneyMultiplierPct;
      if gs.towersBuilt >= 50 && TowerLord !in a3 {
        pct := pct + 10;
      }
      var a4 := Unlock(a3, TowerLord, gs.towersBuilt >= 50);
      var list := Unlock(a4, ComboMaster, gs.streakCount >= 25);
      var bosses := gs.bossesKilled;
      if kind == Boss {
        bosses := bosses + 1;
        list := Unlock(list, BossSlayer, bosses >= 10);
      }
      gs.achievements, gs.moneyMultiplierPct, gs.bossesKilled := list, pct, bosses;
    }

    /** `updateMovement`: a frozen enemy stays put; an enemy at or past the
        next-to-last waypoint leaks; one within 5 px of its waypoint moves on
        to the next one; any other takes a step toward its waypoint.  The
        waypoint index never goes down and goes up by at most one. */
    method UpdateMovement(gs: GameState, step: Stepper)
      modifies this`pos, this`pathIndex, this`active, gs`lives
      ensures old(pathIndex) <= pathIndex <= old(pathIndex) + 1
      ensures frozen ==> pos == old(pos) && pathIndex == old(pathIndex) && active == old(active)
                         && gs.lives == old(gs.lives)
      ensures !frozen && old(pathIndex) >= |Waypoints| - 1 ==>
                !active && gs.lives == old(gs.lives) - 1 && pos == old(pos) && pathIndex == old(pathIndex)
      ensures !frozen && old(pathIndex) < |Waypoints| - 1 ==>
                && active == old(active) && gs.lives == old(gs.lives)
                && (SqDist(old(pos), Waypoints[old(pathIndex)]) < Sq(WaypointReach) ==>
                      pathIndex == old(pathIndex) + 1 && pos == old(pos))
                && (SqDist(old(pos), Waypoints[old(pathIndex)]) >= Sq(WaypointReach) ==>
                      pathIndex == old(pathIndex) && pos == step(old(pos), Waypoints[old(pathIndex)], speed))
      ensures gs.Valid() == old(gs.Valid())
    {
      if frozen {
        return;
      }
      if pathIndex >= |Waypoints| - 1 {
        ReachEnd(gs);
        return;
      }
      var target := Waypoints[pathIndex];
      if SqDist(pos, target) < Sq(WaypointReach) {
        pathIndex := pathIndex + 1;
        return;
      }
      pos := step(pos, target, speed);
    }

    /** `updateStatusEffects`: each active timer goes down by 16 ms.  Freeze
        ends once its timer is at or below 0.  Poison, once its timer is at
        or below 0, deals its damage (which may kill), re-arms at 1000 ms and
        ends when `poisonEnds`, the game's 30% draw, comes up. */
    method UpdateStatusEffects(gs: GameState, now: int, poisonEnds: bool)
      requires gs.Valid()
      modifies this`frozen, this`frozenTimer, this`poisoned, this`poisonTimer, this`health, this`active, gs
      ensures frozenTimer == if old(frozen) then old(frozenTimer) - FrameMs else old(frozenTimer)
      ensures frozen == (old(frozen) && frozenTimer > 0)
      ensures var tick := old(poisoned) && old(poisonTimer) - FrameMs <= 0;
        && poisonTimer == (if tick then PoisonPeriodMs else if old(poisoned) then old(poisonTimer) - FrameMs else old(poisonTimer))
        && poisoned == (old(poisoned) && !(tick && poisonEnds))
        && health == (if tick then old(health) - ArmorDamage(poisonDamage, armor) else old(health))
        && (tick && health <= 0.0 ==> !active && gs.View() == AfterKill(old(gs.View()), reward, kind == Boss, now))
        && (!(tick && health <= 0.0) ==> active == old(active) && gs.View() == old(gs.View()))
      ensures health <= old(health)
      ensures gs.Valid()
    {
      UpdateFreeze();
      UpdatePoison(gs, now, poisonEnds);
    }

    method UpdateFreeze()
      modifies this`frozen, this`frozenTimer
      ensures frozenTimer == if old(frozen) then old(frozenTimer) - FrameMs else old(frozenTimer)
      ensures frozen == (old(frozen) && frozenTimer > 0)
    {
      if frozen {
        frozenTimer := frozenTimer - FrameMs;
        if frozenTimer <= 0 {
          frozen := false;
        }
      }
    }

    method UpdatePoison(gs: GameState, now: int, poisonEnds: bool)
      requires gs.Valid()
      modifies this`poisoned, this`poisonTimer, this`health, this`active, gs
      ensures var tick := old(poisoned) && old(poisonTimer) - FrameMs <= 0;
        && poisonTimer == (if tick then PoisonPeriodMs else if old(poisoned) then old(poisonTimer) - FrameMs else old(poisonTimer))
        && poisoned == (old(poisoned) && !(tick && poisonEnds))
        && health == (if tick then old(health) - ArmorDamage(poisonDamage, armor) else old(health))
        && (tick && health <= 0.0 ==> !active && gs.View() == AfterKill(old(gs.View()), reward, kind == Boss, now))
        && (!(tick && health <= 0.0) ==> active == old(active) && gs.View() == old(gs.View()))
      ensures gs.Valid()
    {
      if poisoned {
        poisonTimer := poisonTimer - FrameMs;
        if poisonTimer <= 0 {
          TakeDamage(poisonDamage, gs, now);
          poisonTimer := PoisonPeriodMs;
          if poisonEnds {
            poisoned := false;
          }
        }
      }
    }

    /** `update`: movement, then status effects (the health bar and status
        icons are drawing only).  The status effects run even on an enemy
        that has just leaked, as in the game. */
    method Update(gs: GameState, now: int, step: Stepper, poisonEnds: bool)
      requires gs.Valid()
      modifies this, gs
      ensures old(pathIndex) <= pathIndex <= old(pathIndex) + 1
      ensures old(frozen) ==> pos == old(pos) && pathIndex == old(pathIndex)
      ensures health <= old(health)
      ensures !old(active) ==> !active
      ensures gs.lives == old(gs.lives) || gs.lives == old(gs.lives) - 1
      ensures gs.wave == old(gs.wave) && gs.bossWave == old(gs.bossWave)
      ensures gs.Valid()
    {
      UpdateMovement(gs, step);
      ghost var mid := gs.View();
      UpdateStatusEffects(gs, now, poisonEnds);
      assert gs.lives == mid.lives && gs.wave == mid.wave && gs.bossWave == mid.bossWave by {
        if old(poisoned) && old(poisonTimer) - FrameMs <= 0 && health <= 0.0 {
          KillBookkeeping(mid, reward, kind == Boss, now);
        }
      }
    }
  }
}
