/** Closed variants for the string-keyed tables of the game: tower types, enemy
    types, upgrade buttons and achievements, with the stat tables looked up by
    an exhaustive match.  A name the table does not know falls back to the
    bow tower or the basic enemy, as the object lookups `stats[type] || stats.bow`
    and `stats[type] || stats.basic` do. */
module Kinds {

  datatype TowerKind = Bow | Cannon | Laser | Ice | Poison | Lightning | Plasma | Tesla

  datatype EnemyKind = Basic | Fast | Tank | Flying | Boss

  /** The three per-tower upgrade buttons. */
  datatype UpgradeKind = RangeUp | SpeedUp | DamageUp

  datatype Achievement = FirstBlood | MoneyMaker | WaveMaster | TowerLord | ComboMaster | BossSlayer

  /** One row of the tower table: range in pixels, fire interval in ms,
      damage per bullet, and price. */
  datatype TowerStats = TowerStats(range: int, attackSpeed: int, damage: int, cost: int)

  /** One row of the enemy table; `health` is the base health at wave 1. */
  datatype EnemyStats = EnemyStats(health: int, speed: real, reward: int, armor: int)

  function TowerStatsOf(kind: TowerKind): TowerStats
  {
    match kind
    case Bow       => TowerStats(200, 300, 5, 100)
    case Cannon    => TowerStats(150, 800, 25, 250)
    case Laser     => TowerStats(300, 100, 2, 400)
    case Ice       => TowerStats(180, 400, 3, 200)
    case Poison    => TowerStats(160, 500, 4, 300)
    case Lightning => TowerStats(250, 200, 8, 500)
    case Plasma    => TowerStats(220, 350, 12, 600)
    case Tesla     => TowerStats(180, 250, 6, 450)
  }

  function EnemyStatsOf(kind: EnemyKind): EnemyStats
  {
    match kind
    case Basic  => EnemyStats(20, 2.0, 10, 0)
    case Fast   => EnemyStats(15, 4.0, 15, 0)
    case Tank   => EnemyStats(80, 1.0, 25, 2)
    case Flying => EnemyStats(25, 3.0, 20, 0)
    case Boss   => EnemyStats(200, 1.5, 100, 5)
  }

  /** The type name as the game spells it; every known name maps back to its kind. */
  function TowerName(kind: TowerKind): string
  {
    match kind
    case Bow => "bow"
    case Cannon => "cannon"
    case Laser => "laser"
    case Ice => "ice"
    case Poison => "poison"
    case Lightning => "lightning"
    case Plasma => "plasma"
    case Tesla => "tesla"
  }

  function EnemyName(kind: EnemyKind): string
  {
    match kind
    case Basic => "basic"
    case Fast => "fast"
    case Tank => "tank"
    case Flying => "flying"
    case Boss => "boss"
  }

  /** The table lookup by name: a known name selects its own row, any other
      name the bow row. */
  function TowerKindNamed(name: string): (k: TowerKind)
    ensures (exists j :: TowerName(j) == name) ==> TowerName(k) == name
    ensures (forall j :: TowerName(j) != name) ==> k == Bow
  {
    if name == "cannon" then Cannon
    else if name == "laser" then Laser
    else if name == "ice" then Ice
    else if name == "poison" then Poison
    else if name == "lightning" then Lightning
    else if name == "plasma" then Plasma
    else if name == "tesla" then Tesla
    else Bow
  }

  /** The enemy lookup by name: a known name selects its own row, any other
      name the basic row. */
  function EnemyKindNamed(name: string): (k: EnemyKind)
    ensures (exists j :: EnemyName(j) == name) ==> EnemyName(k) == name
    ensures (forall j :: EnemyName(j) != name) ==> k == Basic
  {
    if name == "fast" then Fast
    else if name == "tank" then Tank
    else if name == "flying" then Flying
    else if name == "boss" then Boss
    else Basic
  }

  /** The shop's own price list (`towerCosts` in the buy handler). */
  function ShopPrice(kind: TowerKind): int
  {
    match kind
    case Bow => 100
    case Cannon => 250
    case Laser => 400
    case Ice => 200
    case Poison => 300
    case Lightning => 500
    case Plasma => 600
    case Tesla => 450
  }

  /** Which buy boxes the shop draws, given the wave when the menu is built. */
  predicate OfferedInShop(kind: TowerKind, wave: int)
  {
    match kind
    case Bow => true
    case Cannon => wave >= 5
    case Laser => wave >= 10
    case Ice => wave >= 15
    case Poison => wave >= 20
    case _ => false
  }

  /** Price of one per-tower upgrade at level 1; the charge is this times the level. */
  function UpgradeBasePrice(u: UpgradeKind): int
  {
    match u
    case RangeUp => 50
    case SpeedUp => 75
    case DamageUp => 100
  }

  /** The shop's price list and the tower table agree, every row is usable
      (positive range and damage, a fire interval above the 50 ms floor the
      upgrades keep, a range within the 400 px cap), and every enemy row has
      positive health and reward and non-negative armor. */
  lemma TablesAgree(t: TowerKind, e: EnemyKind)
    ensures ShopPrice(t) == TowerStatsOf(t).cost
    ensures var s := TowerStatsOf(t); 0 < s.range <= 400 && s.attackSpeed >= 50 && s.damage > 0
    ensures var s := EnemyStatsOf(e); s.health > 0 && s.reward > 0 && s.armor >= 0 && s.speed > 0.0
  {
  }
}
