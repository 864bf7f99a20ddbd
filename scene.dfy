/** The main scene: the lists of enemies, towers and bullets, the wave
    counters, tower placement, the spawn timer and the per-frame update.
    Engine timers are explicit: `SpawnTick` is one firing of the spawn
    timer (`spawnsPending` firings are left), `FireTower` one firing of a
    tower's shooting timer, and the delayed start of the next wave is left
    to the caller of `StartWave`. */
module Arena {
  import opened Kinds
  import opened Rules
  import opened State
  import opened Enemies
  import opened Towers
  import opened Bullets

  /** The enemies `updateEnemies` keeps, in order: those still active and
      with health above 0. */
  function Survivors(es: seq<Enemy>): seq<Enemy>
    reads es
    decreases |es|
  {
    if es == [] then []
    else (if es[0].active && es[0].health > 0.0 then [es[0]] else []) + Survivors(es[1..])
  }

  /** The bullets `updateBullets` keeps, in order: those still active. */
  function InFlight(bs: seq<Bullet>): (r: seq<Bullet>)
    reads bs
    ensures |r| <= |bs|
    decreases |bs|
  {
    if bs == [] then []
    else (if bs[0].active then [bs[0]] else []) + InFlight(bs[1..])
  }

  /** The enemies the bullets of a list are aimed at. */
  function Targets(bs: seq<Bullet>): set<Enemy>
  {
    set b | b in bs && b.target != null :: b.target
  }

  /** The survivors are exactly the listed enemies that are active and alive. */
  lemma {:induction false} SurvivorsAreLive(es: seq<Enemy>)
    ensures forall e :: e in Survivors(es) ==> e in es && e.active && e.health > 0.0
    ensures forall e :: e in es && e.active && e.health > 0.0 ==> e in Survivors(es)
    decreases |es|
  {
    if es != [] {
      SurvivorsAreLive(es[1..]);
      assert forall e :: e in es ==> e == es[0] || e in es[1..];
    }
  }

  /** The bullets kept are exactly the listed bullets that are still active. */
  lemma {:induction false} InFlightAreActive(bs: seq<Bullet>)
    ensures forall b :: b in InFlight(bs) ==> b in bs && b.active
    ensures forall b :: b in bs && b.active ==> b in InFlight(bs)
    decreases |bs|
  {
    if bs != [] {
      InFlightAreActive(bs[1..]);
      assert forall b :: b in bs ==> b == bs[0] || b in bs[1..];
    }
  }

  /** One bullet's `update`, as far as the bullet list needs it: the ledger
      stays consistent, no life is lost, the wave and its boss flag stay and
      the tower stays sound. */
  method AdvanceBullet(b: Bullet, gs: GameState, enemies: seq<Enemy>, crit: bool, now: int, homing: Homing)
    requires gs.Valid() && NoDuplicates(enemies) && Sound(b.tower.View())
    modifies b`pos, b`traveled, b`active, b.target, b.tower, enemies`health, enemies`active, gs
    ensures gs.Valid() && gs.lives == old(gs.lives) && Sound(b.tower.View())
    ensures gs.wave == old(gs.wave) && gs.bossWave == old(gs.bossWave)
  {
    var _ := b.Update(gs, enemies, crit, now, homing);
  }

  /** One step of `updateBullets`' loop: the bullet at `i` is updated with
      its critical-hit draw and spliced out of the list if it is no longer
      active; the part of the list behind it is already pruned. */
  method UpdateBulletAt(ghost orig: seq<Bullet>, list: seq<Bullet>, i: int, ghost bows: seq<Tower>, enemies: seq<Enemy>,
                        gs: GameState, now: int, crit: bool, homing: Homing)
    returns (pruned: seq<Bullet>)
    requires 0 <= i < |orig| && NoDuplicates(orig) && NoDuplicates(list)
    requires gs.Valid() && NoDuplicates(enemies) && orig[i].tower in bows
    requires forall t :: t in bows ==> Sound(t.View())
    requires list == orig[..i + 1] + InFlight(orig[i + 1..])
    modifies orig[i], orig[i].target, orig[i].tower,
             enemies`health, enemies`active, gs
    ensures pruned == orig[..i] + InFlight(orig[i..])
    ensures NoDuplicates(pruned) && gs.Valid() && gs.lives == old(gs.lives)
    ensures forall t :: t in bows ==> Sound(t.View())
    ensures gs.wave == old(gs.wave) && gs.bossWave == old(gs.bossWave)
  {
    ghost var rest := InFlight(orig[i + 1..]);
    PruneStep(orig, list, rest, i);
    var b := list[i];
    assert b !in orig[i + 1..];
    AdvanceBullet(b, gs, enemies, crit, now, homing);
    assert InFlight(orig[i + 1..]) == rest;
    pruned := list;
    if !b.active {
      pruned := SpliceOne(list, i);
    }
    InFlightStep(orig, list, i);
  }

  /** Keeping or splicing out the bullet at `i` extends the pruned rest of
      the list by one position. */
  lemma InFlightStep(orig: seq<Bullet>, list: seq<Bullet>, i: int)
    requires 0 <= i < |orig| && NoDuplicates(list)
    requires list == orig[..i + 1] + InFlight(orig[i + 1..])
    ensures (if orig[i].active then list else SpliceOne(list, i)) == orig[..i] + InFlight(orig[i..])
    ensures NoDuplicates(if orig[i].active then list else SpliceOne(list, i))
  {
    PruneStep(orig, list, InFlight(orig[i + 1..]), i);
    assert InFlight(orig[i..]) == (if orig[i].active then [orig[i]] else []) + InFlight(orig[i + 1..]);
    if !orig[i].active {
      SpliceKeepsNoDuplicates(list, i);
    }
  }

  /** One step of `updateEnemies`' loop: the enemy at `i` is updated and
      spliced out of the list if it is no longer active or has no health
      left; the part of the list behind it is already pruned.  The enemy
      loses no health it did not lose to poison and moves at most one
      waypoint on; at most one life is lost. */
  method UpdateEnemyAt(ghost orig: seq<Enemy>, list: seq<Enemy>, i: int, gs: GameState, now: int, step: Stepper,
                       poisonEnds: bool)
    returns (pruned: seq<Enemy>)
    requires 0 <= i < |orig| && NoDuplicates(orig) && NoDuplicates(list) && gs.Valid()
    requires list == orig[..i + 1] + Survivors(orig[i + 1..])
    modifies orig[i], gs
    ensures pruned == orig[..i] + Survivors(orig[i..])
    ensures NoDuplicates(pruned) && gs.Valid()
    ensures gs.lives == old(gs.lives) || gs.lives == old(gs.lives) - 1
    ensures gs.wave == old(gs.wave) && gs.bossWave == old(gs.bossWave)
    ensures orig[i].health <= old(orig[i].health)
    ensures old(orig[i].pathIndex) <= orig[i].pathIndex <= old(orig[i].pathIndex) + 1
  {
    ghost var rest := Survivors(orig[i + 1..]);
    PruneStep(orig, list, rest, i);
    var e := list[i];
    assert e !in orig[i + 1..];
    e.Update(gs, now, step, poisonEnds);
    assert Survivors(orig[i + 1..]) == rest;
    pruned := list;
    if !e.active || e.health <= 0.0 {
      pruned := SpliceOne(list, i);
    }
    SurvivorsStep(orig, list, i);
  }

  /** Keeping or splicing out the enemy at `i` extends the pruned rest of
      the list by one position. */
  lemma SurvivorsStep(orig: seq<Enemy>, list: seq<Enemy>, i: int)
    requires 0 <= i < |orig| && NoDuplicates(list)
    requires list == orig[..i + 1] + Survivors(orig[i + 1..])
    ensures (if orig[i].active && orig[i].health > 0.0 then list else SpliceOne(list, i))
            == orig[..i] + Survivors(orig[i..])
    ensures NoDuplicates(if orig[i].active && orig[i].health > 0.0 then list else SpliceOne(list, i))
  {
    PruneStep(orig, list, Survivors(orig[i + 1..]), i);
    assert Survivors(orig[i..]) == (if orig[i].active && orig[i].health > 0.0 then [orig[i]] else [])
                                   + Survivors(orig[i + 1..]);
    if !(orig[i].active && orig[i].health > 0.0) {
      SpliceKeepsNoDuplicates(list, i);
    }
  }

  /** Since the earlier state every listed enemy has lost health only and
      moved at most one waypoint on; those before `done` have not moved. */
  twostate predicate Progressed(es: seq<Enemy>, done: int)
    reads es
  {
    forall j :: 0 <= j < |es| ==>
      && es[j].health <= old(es[j].health)
      && old(es[j].pathIndex) <= es[j].pathIndex <= old(es[j].pathIndex) + (if j < done then 0 else 1)
  }

  /** `updateEnemies`' reverse loop over the enemy list: every enemy is
      updated and the ones no longer active or out of health are spliced
      out.  Each enemy costs at most one life, loses health only, and moves
      at most one waypoint on. */
  method PruneEnemies(orig: seq<Enemy>, gs: GameState, now: int, step: Stepper, poisonEnds: seq<bool>)
    returns (list: seq<Enemy>)
    requires gs.Valid() && NoDuplicates(orig) && |poisonEnds| == |orig|
    modifies orig, gs
    ensures list == Survivors(orig) && NoDuplicates(list)
    ensures forall i :: 0 <= i < |list| ==> list[i] in orig
    ensures gs.Valid() && old(gs.lives) - |orig| <= gs.lives <= old(gs.lives)
    ensures gs.wave == old(gs.wave) && gs.bossWave == old(gs.bossWave)
    ensures Progressed(orig, 0)
  {
    list := orig;
    var i := |list|;
    while i > 0
      invariant 0 <= i <= |orig|
      invariant list == orig[..i] + Survivors(orig[i..])
      invariant gs.Valid() && NoDuplicates(list)
      invariant old(gs.lives) - (|orig| - i) <= gs.lives <= old(gs.lives)
      invariant gs.wave == old(gs.wave) && gs.bossWave == old(gs.bossWave)
      invariant Progressed(orig, i)
    {
      i := i - 1;
      label pre:
      list := UpdateEnemyAt(orig, list, i, gs, now, step, poisonEnds[i]);
      forall j | 0 <= j < |orig| && j != i
        ensures orig[j].health == old@pre(orig[j].health) && orig[j].pathIndex == old@pre(orig[j].pathIndex)
      {
        assert orig[j] != orig[i];
      }
    }
    assert orig[0..] == orig;
    SurvivorsAreLive(orig);
  }

  /** `updateBullets`' reverse loop over the bullet list: every bullet is
      updated with its own critical-hit draw and the ones no longer active
      are spliced out.  Towers stay sound and no life is lost. */
  method PruneBullets(orig: seq<Bullet>, bows: seq<Tower>, enemies: seq<Enemy>, gs: GameState,
                      now: int, crits: seq<bool>, homing: Homing)
    returns (list: seq<Bullet>)
    requires gs.Valid() && NoDuplicates(orig) && NoDuplicates(enemies) && |crits| == |orig|
    requires forall b :: b in orig ==> b.tower in bows
    requires forall t :: t in bows ==> Sound(t.View())
    modifies orig, Targets(orig), bows, enemies`health, enemies`active, gs
    ensures list == InFlight(orig) && NoDuplicates(list)
    ensures gs.Valid() && gs.lives == old(gs.lives)
    ensures gs.wave == old(gs.wave) && gs.bossWave == old(gs.bossWave)
    ensures forall t :: t in bows ==> Sound(t.View())
    ensures forall i :: 0 <= i < |list| ==> list[i] in orig && list[i].active
  {
    list := orig;
    var i := |list|;
    while i > 0
      invariant 0 <= i <= |orig|
      invariant list == orig[..i] + InFlight(orig[i..])
      invariant gs.Valid() && NoDuplicates(list) && gs.lives == old(gs.lives)
      invariant gs.wave == old(gs.wave) && gs.bossWave == old(gs.bossWave)
      invariant forall t :: t in bows ==> Sound(t.View())
    {
      i := i - 1;
      assert orig[i] in orig;
      list := UpdateBulletAt(orig, list, i, bows, enemies, gs, now, crits[i], homing);
    }
    assert orig[0..] == orig;
    InFlightAreActive(orig);
  }

  class MainScene {
    const gs: GameState
    var enemies: seq<Enemy>
    var bows: seq<Tower>
    var bullets: seq<Bullet>
    var waveInProgress: bool
    var currentWaveEnemies: int
    var enemiesThisWave: int
    var spawnsPending: int

    /** The scene's invariant: the ledger is consistent, no enemy or bullet
        or tower is listed twice, every tower's progression is sound, every bullet
        comes from a listed tower, the spawn timer's remaining firings
        make up the rest of the wave, and the boss flag is up exactly while
        a fifth wave is in progress. */
    predicate Valid()
      reads this, gs, bows
    {
      gs.Valid() && Listed() && TowersSound() && BossFlagged()
    }

    /** The lists and the spawn counters hold together. */
    predicate Listed()
      reads this
    {
      && NoDuplicates(enemies) && NoDuplicates(bows) && NoDuplicates(bullets)
      && (forall b :: b in bullets ==> b.tower in bows)
      && 0 <= spawnsPending && currentWaveEnemies + spawnsPending == enemiesThisWave
      && (!waveInProgress ==> spawnsPending == 0)
    }

    /** The boss flag is up exactly during a wave in progress that is a
        fifth wave. */
    predicate BossFlagged()
      reads this, gs
    {
      gs.bossWave == (waveInProgress && IsBossWave(gs.wave))
    }

    /** What `startWave` needs: the scene's invariant, except that the boss
        flag may already be up from a saved fifth wave. */
    predicate Startable()
      reads this, gs, bows
    {
      gs.Valid() && Listed() && TowersSound() && (gs.bossWave ==> IsBossWave(gs.wave))
    }

    /** Every tower's progression is sound. */
    predicate TowersSound()
      reads this, bows
    {
      forall t :: t in bows ==> Sound(t.View())
    }

    /** `create`: empty lists, then the first wave starts. */
    constructor (gs: GameState)
      requires gs.Valid() && (gs.bossWave ==> IsBossWave(gs.wave))
      modifies gs`bossWave
      ensures this.gs == gs && Valid()
      ensures enemies == [] && bows == [] && bullets == []
      ensures waveInProgress && currentWaveEnemies == 0
      ensures enemiesThisWave == WaveSize(gs.wave) && spawnsPending == enemiesThisWave
      ensures gs.View() == old(gs.View()).(bossWave := old(gs.bossWave) || IsBossWave(gs.wave))
    {
      this.gs := gs;
      enemies, bows, bullets := [], [], [];
      waveInProgress := false;
      currentWaveEnemies, enemiesThisWave, spawnsPending := 0, 0, 0;
      new;
      StartWave();
    }

    /** `startWave`: the wave holds `floor(5 + 1.5 * wave)` enemies, all still
        to be spawned; every fifth wave raises the boss flag. */
    method StartWave()
      requires Startable()
      modifies this`waveInProgress, this`currentWaveEnemies, this`enemiesThisWave, this`spawnsPending,
               gs`bossWave
      ensures Valid()
      ensures waveInProgress && currentWaveEnemies == 0
      ensures enemiesThisWave == WaveSize(gs.wave) && spawnsPending == enemiesThisWave
      ensures gs.View() == old(gs.View()).(bossWave := old(gs.bossWave) || IsBossWave(gs.wave))
    {
      waveInProgress := true;
      currentWaveEnemies := 0;
      enemiesThisWave := 5 + 3 * gs.wave / 2;
      gs.MarkBossWave();
      spawnsPending := enemiesThisWave;
    }

    /** One firing of the spawn timer: `spawnEnemy` puts an enemy of the
        type `SpawnKind` picks at the spawn point, and the wave's spawn
        count goes up.  Once the timer has fired for the whole wave it does
        nothing. */
    method SpawnTick(draws: SpawnDraws)
      requires Valid()
      modifies this`enemies, this`currentWaveEnemies, this`spawnsPending
      ensures Valid()
      ensures old(spawnsPending) == 0 ==>
                enemies == old(enemies) && currentWaveEnemies == old(currentWaveEnemies) && spawnsPending == 0
      ensures old(spawnsPending) > 0 ==>
                && spawnsPending == old(spawnsPending) - 1
                && currentWaveEnemies == old(currentWaveEnemies) + 1
                && |enemies| == |old(enemies)| + 1 && enemies[..|old(enemies)|] == old(enemies)
                && var e := enemies[|enemies| - 1];
                   && fresh(e)
                   && e.kind == SpawnKind(gs.bossWave, old(currentWaveEnemies), enemiesThisWave, gs.wave, draws)
                   && (e.kind == Boss <==> IsBossWave(gs.wave) && old(currentWaveEnemies) == enemiesThisWave - 1)
                   && e.maxHealth == (EnemyStatsOf(e.kind).health * gs.wave) as real
                   && e.health == e.maxHealth && e.pos == SpawnPoint && e.pathIndex == 0 && e.active
                   && !e.frozen && e.frozenTimer == 0
                   && !e.poisoned && e.poisonTimer == 0 && e.poisonDamage == 0.0
    {
      if spawnsPending == 0 {
        return;
      }
      var kind := SpawnKind(gs.bossWave, currentWaveEnemies, enemiesThisWave, gs.wave, draws);
      var e := new Enemy(kind, gs.wave, SpawnPoint);
      assert e !in enemies;
      enemies := enemies + [e];
      currentWaveEnemies := currentWaveEnemies + 1;
      spawnsPending := spawnsPending - 1;
    }

    /** Where a new tower may go: a bow is in the inventory, the point is off
        the path, at least 30 px from every tower and at least 50 px from the
        menu button. */
    predicate Placeable(p: Point, onPath: bool)
      reads this, gs
    {
      && Bow in gs.inventory
      && !onPath
      && (forall t :: t in bows ==> SqDist(t.pos, p) >= Sq(TowerSpacing))
      && SqDist(p, MenuButton) >= Sq(MenuClearance)
    }

    /** The spacing loop of `placeTower`: no tower closer than 30 px. */
    method ClearOfTowers(p: Point) returns (canPlace: bool)
      ensures canPlace <==> forall t :: t in bows ==> SqDist(t.pos, p) >= Sq(TowerSpacing)
    {
      canPlace := true;
      var i := 0;
      while i < |bows|
        invariant 0 <= i <= |bows|
        invariant forall j :: 0 <= j < i ==> SqDist(bows[j].pos, p) >= Sq(TowerSpacing)
      {
        if SqDist(bows[i].pos, p) < Sq(TowerSpacing) {
          canPlace := false;
          break;
        }
        i := i + 1;
      }
    }

    /** `placeTower`, with the canvas pixel test given as `onPath`: where the
        point is placeable, one bow leaves the inventory and a fresh level-1
        bow tower joins the list; anywhere else nothing changes. */
    method PlaceTower(p: Point, onPath: bool)
      requires Valid()
      modifies this`bows, gs`inventory, gs`bowInventory, gs`towersBuilt
      ensures Valid()
      ensures old(Placeable(p, onPath)) ==>
                && gs.View() == AfterPlacement(old(gs.View()))
                && |bows| == |old(bows)| + 1 && bows[..|old(bows)|] == old(bows)
                && var t := bows[|bows| - 1];
                   fresh(t) && t.kind == Bow && t.pos == p && t.View() == Fresh(Bow)
                   && t.kills == 0 && t.totalDamageDealt == 0
      ensures !old(Placeable(p, onPath)) ==> gs.View() == old(gs.View()) && bows == old(bows)
    {
      if Bow !in gs.inventory {
        return;
      }
      if onPath {
        return;
      }
      var canPlace := ClearOfTowers(p);
      if SqDist(p, MenuButton) < Sq(MenuClearance) {
        canPlace := false;
      }
      if canPlace {
        gs.TakeBow();
        var t := new Tower(Bow, p);
        assert t !in bows;
        bows := bows + [t];
      }
    }

    /** One firing of a tower's shooting timer: a bullet at the closest
        enemy the tower can target, or nothing when there is none. */
    method FireTower(t: Tower)
      requires Valid() && t in bows
      modifies this`bullets
      ensures Valid()
      ensures (forall j :: 0 <= j < |enemies| ==> !t.CanTarget(enemies[j])) ==> bullets == old(bullets)
      ensures (exists j :: 0 <= j < |enemies| && t.CanTarget(enemies[j])) ==>
                && |bullets| == |old(bullets)| + 1 && bullets[..|old(bullets)|] == old(bullets)
                && var b := bullets[|bullets| - 1];
                   && fresh(b) && b.tower == t && b.target != null && b.active
                   && (exists k :: t.ClosestAt(enemies, k) && enemies[k] == b.target)
                   && b.damage == t.baseDamage && b.range == t.range
                   && b.pos == t.pos && b.traveled == 0 && b.effect == t.kind
    {
      var target := t.AimAtClosestEnemy(enemies);
      if target != null {
        var b := new Bullet(t, target);
        assert b !in bullets;
        bullets := bullets + [b];
      }
    }

    /** `updateEnemies`: from the back of the list, every enemy is updated
        and removed at once if it is no longer active or has no health left.
        Each enemy costs at most one life, loses health only, and moves at
        most one waypoint on. */
    method UpdateEnemies(now: int, step: Stepper, poisonEnds: seq<bool>)
      requires Valid() && |poisonEnds| == |enemies|
      modifies this`enemies, enemies, gs
      ensures Valid()
      ensures enemies == Survivors(old(enemies))
      ensures forall i :: 0 <= i < |enemies| ==> enemies[i] in old(enemies)
      ensures old(gs.lives) - |old(enemies)| <= gs.lives <= old(gs.lives)
      ensures forall j :: 0 <= j < |old(enemies)| ==>
                && old(enemies)[j].health <= old(enemies[j].health)
                && old(enemies[j].pathIndex) <= old(enemies)[j].pathIndex <= old(enemies[j].pathIndex) + 1
    {
      enemies := PruneEnemies(enemies, gs, now, step, poisonEnds);
    }

    /** `updateBullets`: from the back of the list, every bullet is updated
        (with its critical-hit draw) and removed at once if it is no longer
        active. */
    method UpdateBullets(now: int, crits: seq<bool>, homing: Homing)
      requires Valid() && |crits| == |bullets|
      modifies this`bullets, bullets, Targets(bullets), bows, enemies`health, enemies`active, gs
      ensures Valid()
      ensures bullets == InFlight(old(bullets))
      ensures forall i :: 0 <= i < |bullets| ==> bullets[i] in old(bullets) && bullets[i].active
      ensures enemies == old(enemies) && gs.lives == old(gs.lives)
    {
      var list := PruneBullets(bullets, bows, enemies, gs, now, crits, homing);
      bullets := list;
    }

    /** `checkWaveCompletion`: the wave is over once it is in progress, no
        enemy is left and the whole wave has been spawned. */
    method CheckWaveCompletion()
      requires Valid()
      modifies this`waveInProgress, gs`bossWave, gs`wave, gs`money, gs`score, gs`perfectWaves,
               gs`killsThisWave
      ensures Valid()
      ensures old(waveInProgress && |enemies| == 0 && currentWaveEnemies >= enemiesThisWave) ==>
                !waveInProgress && gs.View() == AfterWaveComplete(old(gs.View())) && spawnsPending == 0
      ensures !old(waveInProgress && |enemies| == 0 && currentWaveEnemies >= enemiesThisWave) ==>
                waveInProgress == old(waveInProgress) && gs.View() == old(gs.View())
    {
      if waveInProgress && |enemies| == 0 && currentWaveEnemies >= enemiesThisWave {
        waveInProgress := false;
        gs.CompleteWave();
      }
    }

    /** `MainScene.update`, one frame: nothing once the lives are gone;
        otherwise the play time, critical mode, the enemies, the bullets,
        wave completion and the combo timeout, in that order.  `now` stands
        for `Date.now()`, `step` and `homing` for the movement geometry,
        `poisonEnds` and `crits` for the random draws of the frame. */
    method Tick(now: int, delta: int, step: Stepper, poisonEnds: seq<bool>, crits: seq<bool>, homing: Homing)
      returns (gameOver: bool)
      requires Valid() && |poisonEnds| == |enemies| && |crits| == |bullets|
      modifies this`enemies, this`bullets, this`waveInProgress, gs, enemies, bullets, Targets(bullets), bows
      ensures Valid()
      ensures gameOver <==> old(gs.lives) <= 0
      ensures gameOver ==> gs.View() == old(gs.View()) && enemies == old(enemies) && bullets == old(bullets)
      ensures !gameOver ==> old(gs.lives) - |old(enemies)| <= gs.lives <= old(gs.lives)
      ensures !gameOver ==> forall i :: 0 <= i < |enemies| ==> enemies[i] in old(enemies)
    {
      if gs.lives <= 0 {
        return true;
      }
      BeginFrame(now, delta, step, poisonEnds);
      EndFrame(now, crits, homing);
      return false;
    }

    /** The first half of a frame: play time, critical mode and the enemies. */
    method BeginFrame(now: int, delta: int, step: Stepper, poisonEnds: seq<bool>)
      requires Valid() && |poisonEnds| == |enemies|
      modifies this`enemies, enemies, gs
      ensures Valid()
      ensures old(gs.lives) - |old(enemies)| <= gs.lives <= old(gs.lives)
      ensures forall i :: 0 <= i < |enemies| ==> enemies[i] in old(enemies)
    {
      gs.AddPlaytime(delta);
      gs.UpdateCriticalMode();
      UpdateEnemies(now, step, poisonEnds);
    }

    /** The second half of a frame: the bullets, wave completion and the
        combo timeout. */
    method EndFrame(now: int, crits: seq<bool>, homing: Homing)
      requires Valid() && |crits| == |bullets|
      modifies this`bullets, this`waveInProgress, gs, bullets, Targets(bullets), bows, enemies`health, enemies`active
      ensures Valid() && enemies == old(enemies) && gs.lives == old(gs.lives)
    {
      UpdateBullets(now, crits, homing);
      CheckWaveCompletion();
      gs.UpdateComboSystem(now);
    }
  }
}
