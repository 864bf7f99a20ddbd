/** The pure rules of combat and economy: distance thresholds, damage after
    armor, the combo step function, kill reward, wave size and boss waves,
    the choice of enemy type per spawn, price growth and the experience
    thresholds of tower levels.

    Units: positions and enemy health are reals; the money multiplier is
    kept in integer hundredths (the game draws it as `Between(66, 133) / 100`
    and adds 0.1 to it) and the combo multiplier in halves (1, 1.5, 2, 3 are
    2, 3, 4, 6), so that each floor of the reward is an integer division of
    the exact product.  The game multiplies in floating point, where a
    product such as 100 * 1.13 comes out just below 113 and floors one
    lower; that rounding is not modelled.  Euclidean distances are compared through their squares,
    which keeps the order because the square root is monotone. */
module Rules {
  import opened Kinds

  datatype Point = Point(x: real, y: real)

  function SqDist(a: Point, b: Point): real
  {
    (a.x - b.x) * (a.x - b.x) + (a.y - b.y) * (a.y - b.y)
  }

  function Sq(n: int): real
  {
    (n as real) * (n as real)
  }

  /** Distance thresholds of the game, in pixels. */
  const HitRadius := 15        // a bullet within this of its target hits it
  const BulletSpeed := 15      // a bullet advances this much per tick
  const SplashRadius := 50     // cannon splash reaches enemies this close to the target
  const WaypointReach := 5     // an enemy closer than this to a waypoint moves on to the next one
  const AimOffset := 12        // targeting measures distance minus this
  const TowerSpacing := 30     // a new tower must be at least this far from every tower
  const MenuClearance := 50    // and at least this far from the menu button
  const MenuButton := Point(1050.0, 30.0)
  const RangeCap := 400        // per-tower and global range upgrades stop here
  const SpeedFloor := 50       // upgrades never take the fire interval below this
  const ComboTimeout := 3000   // ms without a kill that end a streak
  const FrameMs := 16          // status timers count down this much per tick
  const StartingLives := 20

  /** `sqrt(d2) - 12 < range`, the targeting test, without the square root. */
  predicate InAimRange(d2: real, range: int)
  {
    range + AimOffset > 0 && d2 < Sq(range + AimOffset)
  }

  /** Damage that gets through armor: never less than 1. */
  function ArmorDamage(damage: real, armor: int): real
  {
    if damage - armor as real > 1.0 then damage - armor as real else 1.0
  }

  /** A bullet's damage after the critical-hit draw: doubled on a crit, then
      floored, which changes nothing because bullet damage is a whole number. */
  function CritDamage(damage: int, crit: bool): int
  {
    if crit then damage * 2 else damage
  }

  /** The combo multiplier, in halves, that belongs to a streak length. */
  function ComboFor(streak: int): int
  {
    if streak >= 10 then 6
    else if streak >= 5 then 4
    else if streak >= 2 then 3
    else 2
  }

  /** The combo step taken on a kill: a streak of at least 2 sets the
      multiplier from the step function, a shorter one leaves it alone. */
  function ComboAfter(streak: int, current: int): (r: int)
    ensures streak >= 2 ==> r == ComboFor(streak)
    ensures streak < 2 ==> r == current
  {
    if streak >= 10 then 6
    else if streak >= 5 then 4
    else if streak >= 2 then 3
    else current
  }

  /** The money a kill pays: the reward times the money multiplier, floored,
      then times the combo multiplier, floored again. */
  function KillReward(reward: int, multiplierPct: int, comboHalves: int): (r: int)
    ensures reward >= 0 && multiplierPct >= 0 && comboHalves >= 0 ==>
              0 <= r && 200 * r <= reward * multiplierPct * comboHalves
  {
    var base := reward * multiplierPct / 100;
    base * comboHalves / 2
  }

  /** Score added by a kill: `reward * 10 * comboMultiplier`, which is whole. */
  function KillScore(reward: int, comboHalves: int): int
  {
    reward * 5 * comboHalves
  }

  /** Number of enemies in a wave: `floor(5 + 1.5 * wave)`. */
  function WaveSize(wave: int): (n: int)
    ensures 2 * n <= 10 + 3 * wave < 2 * n + 2
  {
    5 + 3 * wave / 2
  }

  predicate IsBossWave(wave: int)
  {
    wave % 5 == 0
  }

  /** Cash bonus for clearing a wave, keyed by the wave number after the increment. */
  function WaveBonus(newWave: int): int
  {
    50 * newWave
  }

  /** The random draws of one spawn, already compared with their thresholds:
      `tank` is `Math.random() < 0.2`, `fast` is `< 0.3`, `flying` is `< 0.15`.
      A draw the game never makes (its wave gate is closed) is ignored. */
  datatype SpawnDraws = SpawnDraws(tank: bool, fast: bool, flying: bool)

  /** The type of the spawn at 0-based position `index` of a wave of `size`.
      A boss appears exactly at the last position of a boss wave; the other
      types only past their wave gates. */
  function SpawnKind(bossWave: bool, index: int, size: int, wave: int, draws: SpawnDraws): (k: EnemyKind)
    ensures k == Boss <==> bossWave && index == size - 1
    ensures k == Tank ==> wave > 10 && draws.tank
    ensures k == Fast ==> wave > 5 && draws.fast && !(wave > 10 && draws.tank)
    ensures k == Flying ==> wave > 15 && draws.flying && !(wave > 10 && draws.tank) && !(wave > 5 && draws.fast)
    ensures k == Basic ==>
              && !(bossWave && index == size - 1) && !(wave > 10 && draws.tank)
              && !(wave > 5 && draws.fast) && !(wave > 15 && draws.flying)
  {
    if bossWave && index == size - 1 then Boss
    else if wave > 10 && draws.tank then Tank
    else if wave > 5 && draws.fast then Fast
    else if wave > 15 && draws.flying then Flying
    else Basic
  }

  /** Next price of a global upgrade: `floor(price * 1.3)`. */
  function NextPrice(price: int): (r: int)
    ensures 10 * r <= 13 * price < 10 * r + 10
    ensures price >= 4 ==> r > price
  {
    13 * price / 10
  }

  /** Experience a tower needs at `level`: 100 at level 1, and each level-up
      multiplies it by 1.5, floored. */
  function LevelThreshold(level: int): int
    decreases level
  {
    if level <= 1 then 100 else 3 * LevelThreshold(level - 1) / 2
  }

  // ---------------------------------------------------------------- lemmas

  /** Armor never absorbs a hit completely: the damage that gets through is
      at least 1, exactly 1 when the hit is no stronger than the armor plus 1,
      and otherwise exactly the excess over the armor. */
  lemma ArmorLetsOneThrough(damage: real, armor: int)
    ensures ArmorDamage(damage, armor) >= 1.0
    ensures damage <= armor as real + 1.0 ==> ArmorDamage(damage, armor) == 1.0
    ensures damage > armor as real + 1.0 ==> ArmorDamage(damage, armor) == damage - armor as real
  {
  }

  /** The combo breakpoints: a streak of 1 pays x1, 2 pays x1.5, 5 pays x2,
      10 pays x3, and a longer streak never pays less. */
  lemma ComboBreakpoints(s: int, t: int)
    ensures ComboFor(1) == 2 && ComboFor(2) == 3 && ComboFor(5) == 4 && ComboFor(10) == 6
    ensures s <= t ==> ComboFor(s) <= ComboFor(t)
  {
  }

  /** A kill keeps the multiplier a function of the streak: if it matched the
      old streak, it matches the streak after the kill. */
  lemma ComboStepKeepsStepFunction(streak: int)
    requires streak >= 0
    ensures ComboAfter(streak + 1, ComboFor(streak)) == ComboFor(streak + 1)
  {
  }

  /** Flooring twice can pay less than flooring once: a fast enemy (reward 15)
      under a multiplier of 0.66 and a x1.5 combo pays 13, where a single
      floor of the product 14.85 would give 14. */
  lemma DoubleFloorCanPayLess()
    ensures KillReward(15, 66, 3) == 13
    ensures 15 * 66 * 3 / 200 == 14
  {
  }

  /** With multiplier 1 and no combo a kill pays exactly the enemy's reward. */
  lemma PlainKillPaysReward(reward: int)
    requires reward >= 0
    ensures KillReward(reward, 100, 2) == reward
  {
  }

  /** Waves grow: at least 5 enemies from wave 0 on, and never fewer than the
      wave before. */
  lemma WaveSizeGrows(w: int)
    requires w >= 0
    ensures WaveSize(w) >= 5
    ensures WaveSize(w + 1) >= WaveSize(w) + 1
  {
  }

  /** In a boss wave the spawn sequence holds exactly one boss, the last one;
      outside a boss wave it holds none. */
  lemma OneBossPerBossWave(size: int, wave: int, draws: seq<SpawnDraws>)
    requires size >= 1 && |draws| == size
    ensures IsBossWave(wave) ==> SpawnKind(IsBossWave(wave), size - 1, size, wave, draws[size - 1]) == Boss
    ensures forall i :: 0 <= i < size - 1 ==> SpawnKind(IsBossWave(wave), i, size, wave, draws[i]) != Boss
    ensures !IsBossWave(wave) ==> forall i :: 0 <= i < size ==> SpawnKind(false, i, size, wave, draws[i]) != Boss
  {
  }

  /** Up to wave 5 every spawn that is not the boss is basic. */
  lemma EarlyWavesAreBasic(bossWave: bool, index: int, size: int, wave: int, draws: SpawnDraws)
    requires wave <= 5
    ensures SpawnKind(bossWave, index, size, wave, draws) in {Basic, Boss}
  {
  }

  /** The level thresholds only grow, by at least half of 100 at each level. */
  lemma {:induction false} ThresholdGrows(level: int)
    requires level >= 1
    ensures LevelThreshold(level) >= 100
    ensures LevelThreshold(level + 1) >= LevelThreshold(level) + 50
    decreases level
  {
    if level > 1 {
      ThresholdGrows(level - 1);
    }
  }
}
