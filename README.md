# Tower defence: the combat and economy core

This project models the rules at the heart of the Phaser tower-defence game in `src/main.js`, and proves properties of them in Dafny:

- the shared game-state record (money, lives, wave, score, kill streak and combo multiplier, achievements, inventories);
- enemies walking their waypoints, taking armored damage, freezing, poisoning, leaking and dying;
- towers levelling up, buying upgrades and picking the closest enemy in range;
- bullets homing in, hitting, applying their tower type's special effect (ice, poison, cannon splash) and crediting their tower (placement only ever builds bows, so in the game the three special effects are never reached);
- the main scene's per-frame update: enemy list, bullet list, wave completion and combo timeout;
- tower placement, and the spawn and shooting timers;
- the menu's shop and its two global upgrade buttons.

Modules, one per file:

- `Kinds` (`kinds.dfy`): the tower and enemy tables, the shop's price list, and the lookup by type name.
- `Rules` (`rules.dfy`): the pure rules.
  - Distance thresholds, and damage after armor.
  - The combo step function, and the double-floored kill reward.
  - Wave size, boss waves and the enemy type of each spawn.
  - Price growth, and the level thresholds.
- `State` (`ledger.dfy`): the game state as a value.
  - `Ledger` is the value; its invariant is `Consistent`.
  - Every transition is a function (`AfterKill`, `AfterWaveComplete`, `AfterBuy`, and so on).
  - The mutable record is the class `GameState`. Each of its methods is proved equal to one of those transitions.
- `Enemies` (`enemy.dfy`): the class `Enemy`.
- `Towers` (`tower.dfy`): a tower's progression as the value `Progress`, with the invariant `Sound`, plus the class `Tower`.
- `Bullets` (`bullet.dfy`): the class `Bullet` and the cannon splash.
- `Arena` (`scene.dfy`): the class `MainScene`.
- `Menu` (`menu.dfy`): the class `MenuScene` and the global upgrade loops.

Units and representation:

- The money multiplier is kept in integer hundredths: the game draws it as `Between(66, 133) / 100`, and tower lord adds 0.1.
- The combo multiplier is kept in halves: 1, 1.5, 2 and 3 are 2, 3, 4 and 6.
  - With these two units, every `Math.floor` of the model is an exact integer division. The game computes the same products in floating point, which can floor one lower; see `Rules.KillReward` under "Left out".
- Enemy health and splash damage are reals, because half a cannon bullet's damage can be fractional.
- Positions are real points.
- Every distance threshold is compared on squared distances. The square root is monotone, so this keeps the order.

Things the game takes from its environment are parameters:

- `now` stands for `Date.now()`.
- The geometric step of an enemy (`Stepper`) and of a bullet (`Homing`) are given functions.
- Each `Math.random()` comparison is a boolean:
  - the critical hit;
  - the 30% chance that poison ends;
  - the spawn-type draws.

Phaser's `destroy()` is modelled as clearing `active`. The engine's timers are explicit:

- `MainScene.SpawnTick` is one firing of the spawn timer; `spawnsPending` counts the firings left.
- `MainScene.FireTower` is one firing of a tower's shooting timer.
- Each tower's `fireDelay` is the period of that tower's shooting timer.

Points where the code's behaviour is easy to misread:

- The kill reward is floored twice: once after the money multiplier, once after the combo. A single floor of the product would pay differently (`Rules.DoubleFloorCanPayLess`).
- An enemy leaks once its waypoint index reaches the next-to-last waypoint, so it never walks the last segment.
- Enemies walk the ten waypoints of `generatePath`, not the points of the path drawn on screen.
- A new enemy appears 50 px to the left of the drawn path's first point.

## Model

| member | source | states |
|---|---|---|
| Kinds.TowerKindNamed | src/main.js:465 | A known tower type name selects its own row of the stats table, and any other name selects the bow row. |
| Kinds.EnemyKindNamed | src/main.js:880 | A known enemy type name selects its own row, and any other name selects the basic row. |
| Kinds.TablesAgree | src/main.js:428-463 | The shop's price list equals the tower table's costs. Every tower row lies within the range cap, above the fire-interval floor and has positive damage. Every enemy row has positive health, reward and speed, and non-negative armor. |
| Rules.ComboAfter | src/main.js:1088-1095 | A streak of at least 2 sets the multiplier from the step function (x1.5, x2, x3). A shorter streak leaves the multiplier unchanged. |
| Rules.KillReward | src/main.js:1097-1100 | The paid reward is non-negative and never more than reward × money multiplier × combo. |
| Rules.WaveSize | src/main.js:1405 | The wave size is `floor(5 + 1.5 × wave)`, bounded from both sides. |
| Rules.SpawnKind | src/main.js:1430-1441 | A spawn is a boss exactly at the last position of a boss wave. Tank, fast and flying each need both their wave gate and their draw, tried in that order: fast needs the tank gate to fail, flying needs the tank and fast gates to fail. A basic spawn means the boss test and all three gates failed. |
| Rules.NextPrice | src/main.js:1798 | The next price is 1.3 × the price, rounded down, and it strictly grows from a price of 4 upward. |
| Rules.ArmorLetsOneThrough | src/main.js:1028 | At least 1 damage always gets through armor: exactly 1 for a hit no stronger than armor + 1, otherwise exactly the excess over the armor. |
| Rules.ComboBreakpoints | src/main.js:1089-1095 | The breakpoints are streak 1 → x1, 2 → x1.5, 5 → x2 and 10 → x3. The multiplier is monotone in the streak. |
| Rules.ComboStepKeepsStepFunction | src/main.js:1082-1095 | If the multiplier matched the streak before a kill, it matches the streak after the kill. |
| Rules.DoubleFloorCanPayLess | src/main.js:1098-1099 | A fast enemy under multiplier 0.66 and combo x1.5 is paid 13, while a single floor of the product would give 14. |
| Rules.PlainKillPaysReward | src/main.js:1098-1099 | With multiplier 1 and no combo, a kill pays exactly the enemy's reward. |
| Rules.WaveSizeGrows | src/main.js:1405 | Every wave has at least 5 enemies, and each wave has at least one more enemy than the one before. |
| Rules.OneBossPerBossWave | src/main.js:1433-1434 | A boss wave's spawn sequence holds exactly one boss, the last spawn. Any other wave holds none. |
| Rules.EarlyWavesAreBasic | src/main.js:1435-1441 | Up to wave 5, every spawn is basic or the boss. |
| Rules.ThresholdGrows | src/main.js:641 | The experience threshold is at least 100, and each level-up raises it by at least 50. |
| State.InitialIsConsistent | src/main.js:4-58 | The starting record (1000 money, 20 lives, wave 1, empty lists, no streak) satisfies the game-state invariant. |
| State.NewAchievementsOnce | src/main.js:1124-1164 | The achievement checks keep the old list as a prefix and never list an achievement twice. |
| State.NewAchievementsEarned | src/main.js:1124-1164 | Each of the six achievements is listed afterwards exactly when it was listed before or its condition holds: 100 kills, 10000 earned, wave 20, 50 towers built, streak 25, or a boss kill with 10 bosses. |
| State.AchievementsOnce | src/main.js:1143-1148 | Tower lord raises the money multiplier by 0.1 on the one check that adds it, and never otherwise. The list stays free of duplicates. |
| State.KillBookkeeping | src/main.js:1079-1103 | A kill advances the streak, the kill counts and the best streak, and sets the combo from the step function. Money and total earnings grow by the double-floored reward. The score grows by reward × 10 × combo. Lives, wave, boss flag and inventory are unchanged. |
| State.KillKeepsConsistent | src/main.js:1079-1122 | A kill, including its achievement checks, keeps the game state consistent. |
| State.KillsKeepConsistent | src/main.js:1079-1122 | A run of kills keeps the game state consistent and counts one kill per victim. It never lowers money or the best streak, and leaves lives, the wave and the boss flag unchanged. |
| State.AfterKillsAppend | src/main.js:821-836 | Two runs of kills in sequence are the same as one run over both lists of victims. |
| State.ComboTimeoutRule | src/main.js:1567-1575 | The streak and combo reset exactly when more than 3000 ms have passed since the last kill and a streak is running. Nothing else changes, and the state stays consistent. |
| State.WaveCompleteRule | src/main.js:1583-1597 | The wave number goes up by one. The bonus is 50 × the new wave in money and twice that in score. A wave with kills and all 20 lives counts as perfect. Per-wave kills restart and the boss flag drops. |
| State.BuyRule | src/main.js:1768-1779 | Too little money changes nothing. Otherwise money drops by exactly the price, the bought type gains one item and every other type keeps its count. The state stays consistent. |
| State.PlacementRule | src/main.js:1371-1382 | Exactly one bow leaves the inventory and other types keep their counts. The bow inventory shrinks by one and one more tower counts as built. Money is unchanged and the state stays consistent. |
| State.GlobalUpgradeRule | src/main.js:1796-1797 | A global upgrade paid from enough money lowers money by the price and keeps the state consistent. |
| State.ResetRule | src/main.js:1887-1906 | A restart gives a consistent state with 1000 money, 20 lives, wave 1 and no streak. Achievements and the best streak carry over. |
| State.ComboScenario | src/main.js:1081-1095 | Two quick kills reach streak 2 and combo x1.5. A pause of more than 3 s ends the streak, so the third kill pays at x1. |
| State.FirstKillScenario | src/main.js:1098-1102 | A first basic kill at multiplier 1 pays 10 and counts one kill. |
| State.GameState.constructor | src/main.js:4-58 | The record starts at the initial values, with the drawn money multiplier, and is consistent. |
| State.GameState.LoseLife | src/main.js:1070 | One life is lost and nothing else changes. |
| State.GameState.ScoreKill | src/main.js:1081-1103 | The record moves by exactly the counters of one kill: streak, combo, reward, score and kill counts. |
| State.GameState.CountKill | src/main.js:1081-1095 | The kill time is set. The streak and per-wave kills go up, the best streak follows, and the combo takes its step. |
| State.GameState.PayKill | src/main.js:1097-1103 | Money and total earnings grow by the double-floored reward, the score by reward × 10 × combo, and total kills by one. |
| State.GameState.UpdateComboSystem | src/main.js:1567-1575 | The record equals the combo-timeout transition of the old one and stays consistent. |
| State.GameState.UpdateCriticalMode | src/main.js:1506-1527 | Critical mode is on exactly while lives are at most 5. Nothing else changes. |
| State.GameState.AddPlaytime | src/main.js:1474 | The play time grows by the frame time. Nothing else changes. |
| State.GameState.MarkBossWave | src/main.js:1408-1412 | The boss flag is raised on every fifth wave and never lowered here. |
| State.GameState.TakeBow | src/main.js:1372-1382 | The record equals the placement transition: one bow leaves both inventories and one more tower is built. It stays consistent. |
| State.GameState.CompleteWave | src/main.js:1585-1597 | The record equals the wave-completion transition and stays consistent. |
| State.GameState.PayWaveBonus | src/main.js:1585-1591 | The boss flag drops and the wave goes up. The bonus for the new wave is paid in money and, doubled, in score. |
| State.GameState.CountPerfectWave | src/main.js:1594-1597 | A wave with kills and full lives is counted as perfect, and per-wave kills restart. |
| State.GameState.Buy | src/main.js:1768-1779 | The record equals the buy transition and stays consistent. |
| State.GameState.PayUpgrade | src/main.js:1796-1797 | Money drops by the price, spending on upgrades grows by it, and the record stays consistent. |
| State.GameState.Reset | src/main.js:1887-1906 | The record equals the reset transition and stays consistent. |
| State.GameState.ResetRun | src/main.js:1888-1895 | Money, wave, score, lives, inventories and kill totals take their starting values. |
| State.GameState.ResetStreaks | src/main.js:1896-1905 | The critical and boss flags, the combo, the streak and the per-game counters take their starting values. |
| Enemies.Enemy.constructor | src/main.js:847-885 | A new enemy has its type's row. Its health is base health × wave. It starts at waypoint 0, with no status effect, and active. |
| Enemies.Enemy.TakeDamage | src/main.js:1026-1043 | Health drops by the armored damage, always strictly. A hit that leaves health at or below 0 runs the kill on the game state and removes the enemy. Otherwise the game state is unchanged. |
| Enemies.Enemy.ApplyFreeze | src/main.js:1045-1049 | The enemy is frozen, with the given duration. |
| Enemies.Enemy.ApplyPoison | src/main.js:1051-1056 | The enemy is poisoned, with the given damage and timer. |
| Enemies.Enemy.ReachEnd | src/main.js:1069-1077 | One life is lost, nothing else in the game state changes, and the enemy is removed. |
| Enemies.Enemy.Die | src/main.js:1079-1122 | The game state equals the kill transition (counters, then achievements) and stays consistent. The enemy is removed. |
| Enemies.Enemy.CheckAchievements | src/main.js:1124-1164 | The list becomes the checked list for the current counters. A boss kill counts toward boss slayer. Tower lord adds 0.1 to the multiplier the first time. |
| Enemies.Enemy.UpdateMovement | src/main.js:938-960 | A frozen enemy stays put. At the next-to-last waypoint the enemy leaks. Within 5 px of its waypoint it moves on to the next one. Otherwise it steps toward its waypoint. The waypoint index rises by at most one. |
| Enemies.Enemy.UpdateStatusEffects | src/main.js:962-986 | Each active timer drops by 16 ms, and freeze ends at 0. A poison tick deals its armored damage (possibly a kill), re-arms at 1000 ms and ends on the draw. Health never rises. |
| Enemies.Enemy.UpdateFreeze | src/main.js:963-971 | The freeze timer drops by 16 ms while frozen, and freeze ends once the timer reaches 0. |
| Enemies.Enemy.UpdatePoison | src/main.js:973-985 | The poison timer drops by 16 ms. At 0 the poison deals its damage (with the kill if health ends at or below 0), re-arms at 1000 ms and ends on the draw. |
| Enemies.Enemy.Update | src/main.js:931-936 | The waypoint index rises by at most one, and a frozen enemy stays put. Health never rises and a removed enemy stays removed. At most one life is lost, the wave and the boss flag stay, and the state stays consistent. |
| Towers.FreshIsSound | src/main.js:403-409 | A new tower of any type is at level 1, has its type's range and damage, and is sound (timer at its fire interval, threshold 100). |
| Towers.UpgradeChangesOneStat | src/main.js:611-624 | Range, speed and damage upgrades each change only their own stat. Range is capped at 400, the fire interval is floored at 50 with the timer following it, and damage rises by 3. |
| Towers.LevelUpBonuses | src/main.js:638-646 | A level-up adds one level, clears experience, sets the next (larger) threshold, adds 10 range and 1 damage, and keeps the fire interval at or above the floor. The tower stays sound. |
| Towers.GainKeepsSound | src/main.js:631-646 | Gaining at most 100 experience keeps a tower sound and levels it up at most once. |
| Towers.UpgradeKeepsSound | src/main.js:603-629 | A bought upgrade keeps a tower sound. |
| Towers.LevelUpPassesRangeCap | src/main.js:644 | A tower at the 400 px cap that levels up reaches 410: levelling is not capped. |
| Towers.LevelUpAsWrittenLeavesTimerBehind | src/main.js:646 | As written, a level-up above the floor leaves the shooting timer slower than the fire interval. The corrected level-up differs from it only in the timer. |
| Towers.StaleTimerWitness | src/main.js:616-646 | A new bow tower with 75 experience that buys a speed upgrade ends with a fire interval of 240 and a timer still at 250. |
| Towers.Tower.constructor | src/main.js:399-414 | A new tower of the given type at the given point has the fresh progression, is sound, and has no kills or damage. |
| Towers.Tower.Upgrade | src/main.js:603-629 | Too little money changes nothing. Otherwise the level-scaled charge is paid and the tower moves by the upgrade transition. The tower stays sound. |
| Towers.Tower.ApplyUpgrade | src/main.js:611-624 | The tower moves by the stat change of the chosen upgrade. |
| Towers.Tower.GainExperience | src/main.js:631-636 | The tower moves by the experience transition: it levels up when the threshold is reached. |
| Towers.Tower.LevelUp | src/main.js:638-646 | The tower moves by the corrected level-up (the timer follows the fire interval). |
| Towers.Tower.AimAtClosestEnemy | src/main.js:665-688 | The result is null exactly when no listed enemy is alive and in range. Otherwise it is the closest such enemy, the first of any equally close ones. |
| Bullets.SplashOne | src/main.js:824-834 | An enemy reached by the splash takes the armored damage and dies if it ends at or below 0. Its kill, if any, runs on the game state. |
| Bullets.SplashAt | src/main.js:824-834 | One step of the splash loop: the enemy at that position takes its splash effect and every other listed enemy is untouched. Its kill, if any, runs on the game state. |
| Bullets.SplashEach | src/main.js:824-835 | Every listed enemy ends with the health and active state the splash gives it from its state before the splash. The game state takes the kills of the whole list in list order. |
| Bullets.ApplySplashDamage | src/main.js:821-836 | Every enemy within 50 px of the target, other than the target, takes the damage, with no check of whether it is alive. Each listed enemy's health and active state follow. The game state takes the kills in list order. The target is untouched. |
| Bullets.Bullet.constructor | src/main.js:701-711 | A bullet copies its tower's damage, range and type, starts at the tower with nothing travelled, and is active. |
| Bullets.Bullet.Update | src/main.js:733-762 | A lost or dead target removes the bullet without effect. Within 15 px the bullet hits, before the range test. Past its range it expires. Otherwise it advances 15 px. The hit effects hold exactly on a hit. On every other outcome the game state, the tower, the target (health, active state, freeze and poison status) and every listed enemy keep their values. The target's position and waypoint are never changed by a bullet. No life is lost, and the wave and the boss flag stay. |
| Bullets.Bullet.HitTarget | src/main.js:764-790 | A live target takes the critical-hit damage and the special effect. The tower is credited with the damage and, on a kill, a kill and 10 experience. A target that is gone or dead is not hit: nothing but the bullet changes. The bullet is removed. |
| Bullets.Bullet.Strike | src/main.js:771-775 | The target loses the armored damage and is removed at or below 0. Ice freezes the target and poison poisons it; its freeze status changes only for ice and its poison status only for poison, and its position and waypoint are not touched. A cannon's splash lands on every other listed enemy; any other type leaves their health and active state alone. The game state takes the target's kill, then the splash kills. |
| Bullets.Bullet.Credit | src/main.js:783-787 | The tower's damage total grows by the damage. On a kill it gains a kill and 10 experience, and it stays sound. |
| Bullets.Bullet.ApplySpecialEffect | src/main.js:804-819 | Ice freezes the target for 2 s. Poison sets 3 damage on a 1 s timer. A cannon splashes half the bullet's damage on the other listed enemies and the game state takes those kills. Any other type leaves the game state and the other enemies unchanged. The target's health and active state are unchanged, its freeze status changes only for ice and its poison status only for poison. |
| Bullets.Bullet.Splash | src/main.js:814-817 | Every other listed enemy takes its share of a splash of half the bullet's damage around the target, and the game state takes those kills. The target's health and active state are unchanged. |
| Arena.SurvivorsAreLive | src/main.js:1543-1546 | The enemies kept are exactly the listed enemies that are active and have health above 0. |
| Arena.InFlightAreActive | src/main.js:1561-1563 | The bullets kept are exactly the listed bullets that are still active. |
| Arena.AdvanceBullet | src/main.js:1559 | After one bullet's update the game state stays consistent, no life is lost, the wave and the boss flag stay, and its tower stays sound. |
| Arena.UpdateEnemyAt | src/main.js:1531-1546 | One step of the reverse loop: the enemy is updated and spliced out unless it survives. The list stays the pruned suffix after the untouched prefix, and at most one life is lost. The enemy loses health only and moves at most one waypoint on; no other listed enemy changes. |
| Arena.UpdateBulletAt | src/main.js:1558-1563 | One step of the reverse loop: the bullet is updated and spliced out unless it is active. The list stays the pruned suffix after the untouched prefix, and every tower stays sound. |
| Arena.PruneEnemies | src/main.js:1531-1546 | The list left is exactly the survivors, in order. At most one life is lost per listed enemy. Every enemy loses health only and moves at most one waypoint on, and the wave and the boss flag stay. |
| Arena.PruneBullets | src/main.js:1556-1565 | The list left is exactly the bullets still active, in order. No life is lost and every tower stays sound. |
| Arena.MainScene.constructor | src/main.js:1306-1318 | Empty lists, then the first wave starts with its whole size still to spawn. The scene invariant holds, so the boss flag is up exactly when the wave is a fifth one. |
| Arena.MainScene.StartWave | src/main.js:1402-1427 | The wave is in progress with `floor(5 + 1.5 × wave)` enemies, all still to spawn. The boss flag is raised on every fifth wave, and the scene invariant (flag up exactly during a fifth wave) holds afterwards. |
| Arena.MainScene.SpawnTick | src/main.js:1419-1464 | While spawns remain, one new enemy of the chosen type appears at the spawn point with wave-scaled health, and the spawn count goes up. It is a boss exactly when the wave is a fifth one and this is its last spawn. The new enemy starts neither frozen nor poisoned, with every status timer and the poison damage at zero. Once none remain, nothing happens. |
| Arena.MainScene.ClearOfTowers | src/main.js:1355-1363 | The result is true exactly when every tower is at least 30 px from the point. |
| Arena.MainScene.PlaceTower | src/main.js:1339-1400 | When a bow is held and the point is off the path, 30 px from every tower and 50 px from the menu button, one bow is used and a fresh bow tower is added at the point, at level 1 with no kills and no damage dealt. Otherwise nothing changes. |
| Arena.MainScene.FireTower | src/main.js:1385-1396 | With no target in range, no bullet is fired. Otherwise one new bullet from the tower is aimed at the closest target. It starts at the tower's position with nothing travelled, and carries the tower's damage, range and type as its effect. |
| Arena.MainScene.UpdateEnemies | src/main.js:1529-1548 | The enemy list becomes exactly the survivors, in order. At most one life is lost per listed enemy. Every listed enemy loses health only and moves at most one waypoint on, and the scene stays valid. |
| Arena.MainScene.UpdateBullets | src/main.js:1556-1565 | The bullet list becomes exactly the bullets still active, in order. The enemy list and lives are unchanged, and the scene stays valid. |
| Arena.MainScene.CheckWaveCompletion | src/main.js:1577-1581 | A wave in progress, fully spawned and with no enemy left, completes (the wave-completion transition). Otherwise nothing changes. |
| Arena.MainScene.Tick | src/main.js:1466-1496 | With lives at or below 0, the frame does nothing and reports game over. Otherwise the frame loses at most one life per enemy, keeps only listed enemies, and keeps the scene valid. |
| Arena.MainScene.BeginFrame | src/main.js:1473-1483 | Play time, critical mode and the enemy update: at most one life lost per enemy, and only listed enemies kept. |
| Arena.MainScene.EndFrame | src/main.js:1488-1495 | Bullets, wave completion and the combo timeout: the enemy list and lives are unchanged, and the scene stays valid. |
| Menu.RangeBoostRule | src/main.js:1793-1795 | The range button changes only the range. The range rises by exactly 20 while there is room, never exceeds 400 and never falls within the cap. A sound tower stays sound. |
| Menu.SpeedBoostRule | src/main.js:1812-1817 | The speed button changes only the fire interval and the timer. The interval falls by exactly 25 above 75 and never below 50, and the timer follows it. A sound tower stays sound. |
| Menu.PriceRule | src/main.js:1798 | A price of at least 100 strictly grows to 1.3 × the price, rounded down, and stays at least 100. |
| Menu.BoostRanges | src/main.js:1793-1795 | Every tower takes the range boost, and sound towers stay sound. |
| Menu.BoostSpeeds | src/main.js:1812-1817 | Every tower takes the speed boost, with its timer set to the new interval, and sound towers stay sound. |
| Menu.MenuScene.constructor | src/main.js:1687-1731 | Both global upgrade prices start at 100, and the shop is built for the wave at that moment. |
| Menu.MenuScene.Buy | src/main.js:1768-1779 | For a tower type the shop offered when it was built, the game state equals the buy transition. |
| Menu.MenuScene.UpgradeRange | src/main.js:1790-1801 | With enough money, every tower gets the range boost, the price is paid and it grows by 1.3. Otherwise nothing changes. |
| Menu.MenuScene.UpgradeSpeed | src/main.js:1809-1823 | With enough money, every tower gets the speed boost, the price is paid and it grows by 1.3. Otherwise nothing changes. |

## Left out

- Arena.AdvanceBullet states only what the bullet list needs: consistency, lives and tower soundness. The full effect of one bullet's update is stated by `Bullets.Bullet.Update`.
- Arena.UpdateBulletAt and Arena.PruneBullets state the new bullet list, consistency, lives and tower soundness, but not the new game state after all the hits.
- Arena.MainScene.UpdateBullets states the new bullet list and consistency, but not the new game state or the enemies' health after the hits.
- Arena.MainScene.Tick, Arena.MainScene.BeginFrame and Arena.MainScene.EndFrame state consistency, bounds on lives and list membership, not the whole new state of the frame.
- Enemies.Enemy.Update states bounds rather than the exact new state; `UpdateMovement` and `UpdateStatusEffects` state theirs exactly.
- Arena.UpdateEnemyAt, Arena.PruneEnemies and Arena.MainScene.UpdateEnemies state each enemy's health and waypoint bounds, the lives bound and consistency, but not the new game state after poison kills.
- `updateTowers` (src/main.js:1550-1554) is not modelled: it only turns each tower toward its target. Its choice of target is `Towers.Tower.AimAtClosestEnemy`.
- The delayed start of the next wave, 3 s after completion, is left to the caller of `StartWave`.
- The model keeps one spawn timer, counted by `spawnsPending`. The game makes a new engine timer each wave.
- Loading and saving the game through `SaveManager` and `localStorage` is I/O and is not part of this model. The same goes for the high score and the death scene's display.
- Rules.KillReward multiplies exactly in hundredths, where the game multiplies doubles.
  - For a boss (reward 100) under multiplier 1.13 the model pays 113. In the game `100 * 1.13` is 112.99999999999999, which floors to 112.
  - Tower lord's `+= 0.1` (src/main.js:1147) adds exactly 10 hundredths in the model, while the game's double accumulates rounding error.
- State.GameState.AddPlaytime adds an integer frame time, where the game adds the engine's floating-point `delta` (src/main.js:1474).
- Towers.Tower.LevelUp, Towers.Tower.GainExperience, Towers.Tower.Upgrade, Bullets.Bullet.Credit, Bullets.Bullet.HitTarget and Bullets.Bullet.Update follow the corrected level-up of "## Findings", in which the shooting timer follows the fire interval.
  - The game's timer keeps its old period after a level-up (src/main.js:638-646).
  - So `Sound`'s `fireDelay == attackSpeed`, which these members keep, holds of the corrected game, not the game as written. The game as written keeps only that the interval and the timer both stay at or above 50 ms.
  - The as-written level-up is `Towers.LevelUpAsWrittenLeavesTimerBehind`.
- Kinds.TowerKindNamed sends every unknown name to the bow row. The game's `stats[type] || stats.bow` (src/main.js:465) differs for names inherited from JavaScript's `Object.prototype`, such as "toString", "constructor" or "__proto__". For those names the lookup returns the inherited member instead of a row, so range and damage come out undefined. No caller in the game passes such a name.
- Kinds.EnemyKindNamed has the same gap for `stats[type] || stats.basic` (src/main.js:880): an inherited name gives undefined health and speed.
- Trigonometry is not modelled. The movement and homing steps are given functions, and their floating-point rounding is not modelled.
- Randomness is not modelled. The random draws are parameters.
- Drawing, tints, health bars, status icons, particles, sound, camera shake and text are not modelled.
- Calls into a sprite that Phaser has already destroyed are modelled as acting on an inactive object. The game throws on two of them:
  - An enemy passes its last waypoint during one frame's enemy update, and a bullet kills it later in the same frame. It is still in the list on the next frame, so `update()` runs again and reaches the end of the path (src/main.js:942-944). `reachEnd` takes a life and then reads `this.scene.soundManager` (src/main.js:1070-1071). That throws, because `destroy()` has cleared `this.scene`. The model takes the life and carries on.
  - `updateStatusIcons` reads `this.scene` (src/main.js:1015, 1021) and fails the same way after an ice or poison kill. Only bows are ever placed, so the game never reaches this path.
- Bullets.Bullet.Update and Enemies.Enemy.TakeDamage pay for enemies that are already gone.
  - A bullet still homing on an enemy that leaked (inactive, health above 0) hits it. If the hit takes its health to 0 or below, the model runs the kill and pays the reward for an enemy that already cost a life.
  - A splash can take an already dead enemy further below 0, and the model runs its kill and pays a second time.
  - In the game, `takeDamage` on a destroyed sprite lowers its health and then calls `this.scene.time` (src/main.js:1034). A destroyed sprite has no scene any more, so the game stops there before `die` pays anything.
- Tower fields that the game never reads in combat are not modelled: critical chance, multishot, aura and overcharge. Game-state fields that are never read are not modelled either: difficulty, power-ups, special events and performance tracking.
- Lightning, plasma and tesla towers have stats and prices but no special effect. The shop never offers them, and placement only ever builds bows.

## Findings

| source | as written | input that shows it | evidently intended | confidence | as-written member | corrected member |
|---|---|---|---|---|---|---|
| src/main.js:638-646 | `levelUp` lowers `attackSpeed` by 10 but never sets the shooting timer's delay, so the tower keeps firing at its old interval. The per-tower speed upgrade (src/main.js:616-619) and the global speed button (src/main.js:1813-1816) do retune the timer. | A new bow tower with 75 experience buys a speed upgrade. Its interval and timer go to 250 ms. The upgrade's 25 experience levels it up, which lowers the interval to 240 ms while the timer stays at 250 ms. | The timer follows the new fire interval, as on the upgrade paths. | not executed | Towers.LevelUpAsWrittenLeavesTimerBehind | Towers.LevelUpBonuses |
