/** The global game-state record: money, score, lives, wave, inventory,
    the combo and streak counters and the achievement list.  The game keeps
    it in one mutable object literal that the enemy, tower, scene and shop code
    update in place; here it is the class `GameState`, whose abstract value
    `View()` is the datatype `Ledger`, and each update that the game makes to
    it is a pure transition on `Ledger` (`AfterKill`, `AfterComboTimeout`,
    `AfterWaveComplete`, ...) about which the lemmas below are stated. */
module State {
  import opened Kinds
  import opened Rules

  datatype Ledger = Ledger(
    money: int,
    moneyMultiplierPct: int,     // money multiplier in hundredths
    wave: int,
    score: int,
    lives: int,
    inventory: seq<TowerKind>,
    bowInventory: seq<TowerKind>,
    achievements: seq<Achievement>,
    totalKills: int,
    totalMoneyEarned: int,
    criticalMode: bool,
    bossWave: bool,
    comboHalves: int,            // combo multiplier in halves
    lastKillTime: int,
    streakCount: int,
    maxStreak: int,
    playtime: int,
    bossesKilled: int,
    killsThisWave: int,
    perfectWaves: int,
    moneySpentOnUpgrades: int,
    towersBuilt: int)

  // ------------------------------------------------------- sequence helpers

  function Count<T(==)>(s: seq<T>, x: T): nat
  {
    if s == [] then 0 else (if s[0] == x then 1 else 0) + Count(s[1..], x)
  }

  predicate NoDuplicates<T(==)>(s: seq<T>)
  {
    forall i, j :: 0 <= i < j < |s| ==> s[i] != s[j]
  }

  /** `Array.prototype.indexOf`: the first position holding `x`, or -1. */
  function IndexOf<T(==)>(s: seq<T>, x: T): (r: int)
    ensures -1 <= r < |s|
    ensures r == -1 <==> x !in s
    ensures r >= 0 ==> s[r] == x && forall j :: 0 <= j < r ==> s[j] != x
  {
    if s == [] then -1
    else if s[0] == x then 0
    else var r := IndexOf(s[1..], x); if r == -1 then -1 else r + 1
  }

  /** `Array.prototype.splice(start, 1)`: a negative start counts from the end,
      a start past the end removes nothing. */
  function SpliceOne<T>(s: seq<T>, start: int): seq<T>
  {
    var k := if start >= 0 then start else if |s| + start >= 0 then |s| + start else 0;
    if k < |s| then s[..k] + s[k + 1..] else s
  }

  lemma {:induction false} CountAppend<T>(a: seq<T>, b: seq<T>, x: T)
    ensures Count(a + b, x) == Count(a, x) + Count(b, x)
  {
    if a == [] {
      assert a + b == b;
    } else {
      assert (a + b)[1..] == a[1..] + b;
      CountAppend(a[1..], b, x);
    }
  }

  /** One item more in the middle of a list counts once more, if it is the
      item counted. */
  lemma CountMiddle<T>(pre: seq<T>, x: T, post: seq<T>, y: T)
    ensures Count(pre + [x] + post, y) == Count(pre + post, y) + (if x == y then 1 else 0)
  {
    assert pre + [x] + post == pre + ([x] + post);
    assert ([x] + post)[1..] == post;
    CountAppend(pre, [x] + post, y);
    CountAppend(pre, post, y);
  }

  /** Splicing out the item at `k` takes exactly that one item away. */
  lemma RemoveAt<T>(s: seq<T>, k: int, y: T)
    requires 0 <= k < |s|
    ensures |SpliceOne(s, k)| == |s| - 1
    ensures Count(SpliceOne(s, k), y) + (if s[k] == y then 1 else 0) == Count(s, y)
  {
    assert s == s[..k] + [s[k]] + s[k + 1..];
    CountMiddle(s[..k], s[k], s[k + 1..], y);
  }

  /** Removing the first occurrence of `x` takes exactly one `x` away and
      leaves the count of every other item alone. */
  lemma RemoveFirstOccurrence<T>(s: seq<T>, x: T, y: T)
    requires x in s
    ensures |SpliceOne(s, IndexOf(s, x))| == |s| - 1
    ensures Count(SpliceOne(s, IndexOf(s, x)), y) == Count(s, y) - (if y == x then 1 else 0)
  {
    RemoveAt(s, IndexOf(s, x), y);
  }

  /** Removing one element keeps a list free of duplicates. */
  lemma SpliceKeepsNoDuplicates<T>(s: seq<T>, k: int)
    requires NoDuplicates(s) && 0 <= k < |s|
    ensures NoDuplicates(SpliceOne(s, k))
    ensures forall x :: x in SpliceOne(s, k) <==> x in s && x != s[k]
  {
    var r := SpliceOne(s, k);
    assert r == s[..k] + s[k + 1..];
    forall i, j | 0 <= i < j < |r|
      ensures r[i] != r[j]
    {
      var i' := if i < k then i else i + 1;
      var j' := if j < k then j else j + 1;
      assert r[i] == s[i'] && r[j] == s[j'];
    }
    forall x
      ensures x in r <==> x in s && x != s[k]
    {
      if x in r {
        var i :| 0 <= i < |r| && r[i] == x;
        var i' := if i < k then i else i + 1;
        assert s[i'] == x;
      }
      if x in s && x != s[k] {
        var i :| 0 <= i < |s| && s[i] == x;
        assert i != k;
        assert r[if i < k then i else i - 1] == x;
      }
    }
  }

  /** The shape of one step of a reverse-index pruning loop: the list is the
      untouched front of `orig` up to `i` followed by the pruned rest; the
      element at `i` is kept or spliced out. */
  lemma PruneStep<T>(orig: seq<T>, list: seq<T>, rest: seq<T>, i: int)
    requires 0 <= i < |orig| && list == orig[..i + 1] + rest
    ensures list[i] == orig[i] && orig[i..] == [orig[i]] + orig[i + 1..]
    ensures SpliceOne(list, i) == orig[..i] + rest
    ensures list == orig[..i] + ([orig[i]] + rest)
  {
    assert list[..i] == orig[..i] && list[i + 1..] == rest;
  }

  lemma {:induction false} CountAllEqual<T>(s: seq<T>, x: T)
    requires forall i :: 0 <= i < |s| ==> s[i] == x
    ensures Count(s, x) == |s|
  {
    if s != [] {
      CountAllEqual(s[1..], x);
    }
  }

  // ----------------------------------------------------------- the invariant

  /** What holds of every reachable game state: money is never negative, the
      multiplier is a function of the streak, the best streak bounds the
      current one, no achievement is listed twice, and the bow inventory
      mirrors the bows of the main inventory. */
  predicate Consistent(l: Ledger)
  {
    && l.money >= 0
    && l.wave >= 1
    && l.moneyMultiplierPct >= 0
    && 0 <= l.streakCount <= l.maxStreak
    && l.comboHalves == ComboFor(l.streakCount)
    && NoDuplicates(l.achievements)
    && l.totalKills >= 0 && l.totalMoneyEarned >= 0 && l.killsThisWave >= 0
    && l.bossesKilled >= 0 && l.perfectWaves >= 0 && l.towersBuilt >= 0
    && l.moneySpentOnUpgrades >= 0
    && (forall i :: 0 <= i < |l.bowInventory| ==> l.bowInventory[i] == Bow)
    && |l.bowInventory| == Count(l.inventory, Bow)
  }

  /** The initial record; the money multiplier is drawn by the caller. */
  function Initial(multiplierPct: int): Ledger
  {
    Ledger(1000, multiplierPct, 1, 0, StartingLives, [], [], [], 0, 0, false, false, 2, 0, 0, 0,
           0, 0, 0, 0, 0, 0)
  }

  // ------------------------------------------------------------ transitions

  /** Append an achievement when its condition holds and it is not yet listed. */
  function Unlock(list: seq<Achievement>, a: Achievement, condition: bool): seq<Achievement>
  {
    if condition && a !in list then list + [a] else list
  }

  /** The counters the achievement checks read. */
  datatype Milestones = Milestones(kills: int, earned: int, wave: int, built: int, streak: int)

  function MilestonesOf(l: Ledger): Milestones
  {
    Milestones(l.totalKills, l.totalMoneyEarned, l.wave, l.towersBuilt, l.streakCount)
  }

  /** The achievement list after `checkAchievements`, given the counters it
      reads (the boss count already includes this kill). */
  function NewAchievements(list: seq<Achievement>, m: Milestones, isBoss: bool, bosses: int): seq<Achievement>
  {
    var a1 := Unlock(list, FirstBlood, m.kills == 100);
    var a2 := Unlock(a1, MoneyMaker, m.earned >= 10000);
    var a3 := Unlock(a2, WaveMaster, m.wave >= 20);
    var a4 := Unlock(a3, TowerLord, m.built >= 50);
    var a5 := Unlock(a4, ComboMaster, m.streak >= 25);
    if isBoss then Unlock(a5, BossSlayer, bosses >= 10) else a5
  }

  /** `checkAchievements`, run after the counters of a kill are updated: tower
      lord also raises the money multiplier by 0.1 when it is added. */
  function AfterAchievements(l: Ledger, isBoss: bool): Ledger
  {
    var bosses := if isBoss then l.bossesKilled + 1 else l.bossesKilled;
    var lord := l.towersBuilt >= 50 && TowerLord !in l.achievements;
    l.(achievements := NewAchievements(l.achievements, MilestonesOf(l), isBoss, bosses), bossesKilled := bosses,
       moneyMultiplierPct := if lord then l.moneyMultiplierPct + 10 else l.moneyMultiplierPct)
  }

  /** The counters `die` moves before its achievement checks: streak,
      combo step, reward at the multiplier in force, score and kill counts. */
  function KillCounters(l: Ledger, reward: int, now: int): Ledger
  {
    var streak := l.streakCount + 1;
    var combo := ComboAfter(streak, l.comboHalves);
    var paid := KillReward(reward, l.moneyMultiplierPct, combo);
    l.(lastKillTime := now,
       streakCount := streak,
       killsThisWave := l.killsThisWave + 1,
       maxStreak := if streak > l.maxStreak then streak else l.maxStreak,
       comboHalves := combo,
       money := l.money + paid,
       score := l.score + KillScore(reward, combo),
       totalKills := l.totalKills + 1,
       totalMoneyEarned := l.totalMoneyEarned + paid)
  }

  /** The ledger side of `Enemy.die`: the counters, then the achievement checks. */
  function AfterKill(l: Ledger, reward: int, isBoss: bool, now: int): Ledger
  {
    AfterAchievements(KillCounters(l, reward, now), isBoss)
  }

  /** The ledger after a run of kills in the given order, one `die` per
      victim, each paying its type's reward. */
  function AfterKills(l: Ledger, victims: seq<EnemyKind>, now: int): Ledger
    decreases |victims|
  {
    if victims == [] then l
    else
      var v := victims[|victims| - 1];
      AfterKill(AfterKills(l, victims[..|victims| - 1], now), EnemyStatsOf(v).reward, v == Boss, now)
  }

  /** `updateComboSystem`: the streak ends once more than 3000 ms passed since
      the last kill. */
  function AfterComboTimeout(l: Ledger, now: int): Ledger
  {
    if now - l.lastKillTime > ComboTimeout && l.streakCount > 0
    then l.(streakCount := 0, comboHalves := 2)
    else l
  }

  /** The ledger side of `completeWave`: the wave number goes up first, the
      bonus is keyed by the new number, a wave with kills and full lives is
      perfect. */
  function AfterWaveComplete(l: Ledger): Ledger
  {
    var newWave := l.wave + 1;
    l.(bossWave := false,
       wave := newWave,
       money := l.money + WaveBonus(newWave),
       score := l.score + 2 * WaveBonus(newWave),
       perfectWaves := if l.killsThisWave > 0 && l.lives == StartingLives then l.perfectWaves + 1 else l.perfectWaves,
       killsThisWave := 0)
  }

  /** The shop's buy button: pays the price and adds one item, or does nothing. */
  function AfterBuy(l: Ledger, kind: TowerKind): Ledger
  {
    if l.money >= ShopPrice(kind) then
      l.(inventory := l.inventory + [kind],
         bowInventory := if kind == Bow then l.bowInventory + [kind] else l.bowInventory,
         money := l.money - ShopPrice(kind))
    else l
  }

  /** The ledger side of a successful placement: one bow leaves both
      inventories, one more tower is built. */
  function AfterPlacement(l: Ledger): Ledger
  {
    var i := IndexOf(l.inventory, Bow);
    if i != -1 then
      l.(inventory := SpliceOne(l.inventory, i),
         bowInventory := SpliceOne(l.bowInventory, IndexOf(l.bowInventory, Bow)),
         towersBuilt := l.towersBuilt + 1)
    else l.(towersBuilt := l.towersBuilt + 1)
  }

  /** A global upgrade bought at `price`. */
  function AfterGlobalUpgrade(l: Ledger, price: int): Ledger
  {
    l.(money := l.money - price, moneySpentOnUpgrades := l.moneySpentOnUpgrades + price)
  }

  /** `DeathScene.resetGameState`: the fields it resets; the multiplier, the
      achievements, the best streak, the last kill time, the boss count and
      the upgrade spending carry over into the next game. */
  function AfterReset(l: Ledger): Ledger
  {
    l.(money := 1000, wave := 1, score := 0, lives := StartingLives, inventory := [], bowInventory := [],
       totalKills := 0, totalMoneyEarned := 0, criticalMode := false, bossWave := false,
       comboHalves := 2, streakCount := 0, killsThisWave := 0, perfectWaves := 0,
       towersBuilt := 0, playtime := 0)
  }

  // ----------------------------------------------------------------- lemmas

  lemma InitialIsConsistent(multiplierPct: int)
    requires multiplierPct >= 0
    ensures Consistent(Initial(multiplierPct))
  {
  }

  /** Each achievement is appended at most once: the old list is kept as a
      prefix and no entry appears twice. */
  lemma NewAchievementsOnce(list: seq<Achievement>, m: Milestones, isBoss: bool, bosses: int)
    requires NoDuplicates(list)
    ensures var r := NewAchievements(list, m, isBoss, bosses);
      NoDuplicates(r) && list <= r
  {
    var a1 := Unlock(list, FirstBlood, m.kills == 100);
    var a2 := Unlock(a1, MoneyMaker, m.earned >= 10000);
    var a3 := Unlock(a2, WaveMaster, m.wave >= 20);
    var a4 := Unlock(a3, TowerLord, m.built >= 50);
    var a5 := Unlock(a4, ComboMaster, m.streak >= 25);
    UnlockKeeps(list, FirstBlood, m.kills == 100);
    UnlockKeeps(a1, MoneyMaker, m.earned >= 10000);
    UnlockKeeps(a2, WaveMaster, m.wave >= 20);
    UnlockKeeps(a3, TowerLord, m.built >= 50);
    UnlockKeeps(a4, ComboMaster, m.streak >= 25);
    UnlockKeeps(a5, BossSlayer, bosses >= 10);
  }

  /** An achievement is listed after the checks exactly when it was listed
      before or its condition holds: 100 kills, 10000 earned, wave 20, 50
      towers built, a streak of 25, or a boss kill bringing the count to 10. */
  lemma NewAchievementsEarned(list: seq<Achievement>, m: Milestones, isBoss: bool, bosses: int)
    ensures var r := NewAchievements(list, m, isBoss, bosses);
      && (FirstBlood in r <==> FirstBlood in list || m.kills == 100)
      && (MoneyMaker in r <==> MoneyMaker in list || m.earned >= 10000)
      && (WaveMaster in r <==> WaveMaster in list || m.wave >= 20)
      && (TowerLord in r <==> TowerLord in list || m.built >= 50)
      && (ComboMaster in r <==> ComboMaster in list || m.streak >= 25)
      && (BossSlayer in r <==> BossSlayer in list || (isBoss && bosses >= 10))
  {
    var a1 := Unlock(list, FirstBlood, m.kills == 100);
    var a2 := Unlock(a1, MoneyMaker, m.earned >= 10000);
    var a3 := Unlock(a2, WaveMaster, m.wave >= 20);
    var a4 := Unlock(a3, TowerLord, m.built >= 50);
    var a5 := Unlock(a4, ComboMaster, m.streak >= 25);
    UnlockMembers(list, FirstBlood, m.kills == 100);
    UnlockMembers(a1, MoneyMaker, m.earned >= 10000);
    UnlockMembers(a2, WaveMaster, m.wave >= 20);
    UnlockMembers(a3, TowerLord, m.built >= 50);
    UnlockMembers(a4, ComboMaster, m.streak >= 25);
    UnlockMembers(a5, BossSlayer, bosses >= 10);
  }

  lemma UnlockMembers(list: seq<Achievement>, a: Achievement, condition: bool)
    ensures forall b :: b in Unlock(list, a, condition) <==> b in list || (b == a && condition)
  {
  }

  /** The achievement checks keep the list free of duplicates, and tower lord
      raises the multiplier by exactly 0.1 on the one call that adds it and
      never otherwise. */
  lemma AchievementsOnce(l: Ledger, isBoss: bool)
    requires NoDuplicates(l.achievements)
    ensures var r := AfterAchievements(l, isBoss);
      && NoDuplicates(r.achievements)
      && l.achievements <= r.achievements
      && r.moneyMultiplierPct == l.moneyMultiplierPct +
           (if TowerLord in r.achievements && TowerLord !in l.achievements then 10 else 0)
  {
    var bosses := if isBoss then l.bossesKilled + 1 else l.bossesKilled;
    NewAchievementsOnce(l.achievements, MilestonesOf(l), isBoss, bosses);
  }

  lemma UnlockKeeps(list: seq<Achievement>, a: Achievement, condition: bool)
    requires NoDuplicates(list)
    ensures var r := Unlock(list, a, condition);
      && NoDuplicates(r)
      && list <= r
  {
  }

  /** `die`'s bookkeeping: the streak, the kill counters and the best streak
      advance; the multiplier takes its step; money and total earnings both
      grow by the double-floored reward, computed with the multiplier in force
      before this kill's achievements; lives, wave, boss flag and inventory stay. */
  lemma KillBookkeeping(l: Ledger, reward: int, isBoss: bool, now: int)
    requires Consistent(l) && reward >= 0
    ensures var r := AfterKill(l, reward, isBoss, now);
      && r.streakCount == l.streakCount + 1
      && r.totalKills == l.totalKills + 1
      && r.killsThisWave == l.killsThisWave + 1
      && r.maxStreak == (if l.streakCount + 1 > l.maxStreak then l.streakCount + 1 else l.maxStreak)
      && r.comboHalves == ComboFor(r.streakCount)
      && r.money == l.money + KillReward(reward, l.moneyMultiplierPct, r.comboHalves)
      && r.totalMoneyEarned == l.totalMoneyEarned + KillReward(reward, l.moneyMultiplierPct, r.comboHalves)
      && r.money >= l.money
      && r.score == l.score + KillScore(reward, r.comboHalves)
      && r.lastKillTime == now
      && r.lives == l.lives && r.wave == l.wave && r.bossWave == l.bossWave && r.inventory == l.inventory
  {
    ComboStepKeepsStepFunction(l.streakCount);
  }

  /** A kill keeps the game state consistent. */
  lemma KillKeepsConsistent(l: Ledger, reward: int, isBoss: bool, now: int)
    requires Consistent(l) && reward >= 0
    ensures Consistent(AfterKill(l, reward, isBoss, now))
  {
    ComboStepKeepsStepFunction(l.streakCount);
    var k := KillCounters(l, reward, now);
    AchievementsOnce(k, isBoss);
  }

  /** A run of kills keeps the state consistent, counts one kill per victim,
      never lowers money or the best streak, and leaves lives, the wave and
      the boss flag alone. */
  lemma {:induction false} KillsKeepConsistent(l: Ledger, victims: seq<EnemyKind>, now: int)
    requires Consistent(l)
    ensures var r := AfterKills(l, victims, now);
      && Consistent(r)
      && r.totalKills == l.totalKills + |victims|
      && r.money >= l.money
      && r.maxStreak >= l.maxStreak
      && r.lives == l.lives && r.wave == l.wave && r.bossWave == l.bossWave
    decreases |victims|
  {
    if victims != [] {
      var v := victims[|victims| - 1];
      var k := AfterKills(l, victims[..|victims| - 1], now);
      KillsKeepConsistent(l, victims[..|victims| - 1], now);
      KillBookkeeping(k, EnemyStatsOf(v).reward, v == Boss, now);
      KillKeepsConsistent(k, EnemyStatsOf(v).reward, v == Boss, now);
    }
  }

  /** One more kill after a run of kills is the run extended by that victim. */
  lemma AfterKillsExtend(l: Ledger, victims: seq<EnemyKind>, v: EnemyKind, now: int)
    ensures AfterKills(l, victims + [v], now)
            == AfterKill(AfterKills(l, victims, now), EnemyStatsOf(v).reward, v == Boss, now)
  {
    assert (victims + [v])[..|victims|] == victims;
  }

  /** Two runs of kills one after the other are one run over both. */
  lemma {:induction false} AfterKillsAppend(l: Ledger, a: seq<EnemyKind>, b: seq<EnemyKind>, now: int)
    ensures AfterKills(l, a + b, now) == AfterKills(AfterKills(l, a, now), b, now)
    decreases |b|
  {
    if b == [] {
      assert a + b == a;
    } else {
      var n := |b| - 1;
      assert (a + b)[..|a + b| - 1] == a + b[..n];
      AfterKillsAppend(l, a, b[..n], now);
    }
  }

  /** The combo timeout resets the streak and the multiplier exactly when more
      than 3000 ms passed since the last kill and a streak is running, and
      changes nothing else; it keeps the state consistent. */
  lemma ComboTimeoutRule(l: Ledger, now: int)
    requires Consistent(l)
    ensures var r := AfterComboTimeout(l, now);
      && (now - l.lastKillTime > ComboTimeout && l.streakCount > 0 ==>
            r == l.(streakCount := 0, comboHalves := 2))
      && (!(now - l.lastKillTime > ComboTimeout && l.streakCount > 0) ==> r == l)
      && Consistent(r)
  {
  }

  /** Wave completion: the bonus is 50 times the new wave number in money and
      twice that in score, the per-wave kill count restarts, and the state
      stays consistent. */
  lemma WaveCompleteRule(l: Ledger)
    requires Consistent(l)
    ensures var r := AfterWaveComplete(l);
      && r.wave == l.wave + 1
      && r.money == l.money + 50 * r.wave
      && r.score == l.score + 100 * r.wave
      && r.killsThisWave == 0 && !r.bossWave
      && r.perfectWaves - l.perfectWaves == (if l.killsThisWave > 0 && l.lives == 20 then 1 else 0)
      && Consistent(r)
  {
  }

  /** A buy with too little money changes nothing; otherwise money drops by
      exactly the price and the inventory holds exactly one more item of that
      type and the same number of every other type; the state stays consistent. */
  lemma BuyRule(l: Ledger, kind: TowerKind, other: TowerKind)
    requires Consistent(l)
    ensures var r := AfterBuy(l, kind);
      && (l.money < ShopPrice(kind) ==> r == l)
      && (l.money >= ShopPrice(kind) ==>
            && r.money == l.money - ShopPrice(kind)
            && Count(r.inventory, other) == Count(l.inventory, other) + (if other == kind then 1 else 0)
            && |r.inventory| == |l.inventory| + 1)
      && Consistent(r)
  {
    if l.money >= ShopPrice(kind) {
      CountAppend(l.inventory, [kind], other);
      CountAppend(l.inventory, [kind], Bow);
    }
  }

  /** Placing a tower takes exactly one bow out of the inventory (every other
      type keeps its count), shortens the bow inventory by one, counts one more
      tower built and keeps the state consistent. */
  lemma PlacementRule(l: Ledger, other: TowerKind)
    requires Consistent(l) && Bow in l.inventory
    ensures var r := AfterPlacement(l);
      && Count(r.inventory, other) == Count(l.inventory, other) - (if other == Bow then 1 else 0)
      && |r.bowInventory| == |l.bowInventory| - 1
      && r.towersBuilt == l.towersBuilt + 1
      && r.money == l.money
      && Consistent(r)
  {
    RemoveFirstOccurrence(l.inventory, Bow, other);
    RemoveFirstOccurrence(l.inventory, Bow, Bow);
    var r := AfterPlacement(l);
    assert l.bowInventory[0] == Bow;
    assert Bow in l.bowInventory;
    RemoveFirstOccurrence(l.bowInventory, Bow, Bow);
    assert IndexOf(l.bowInventory, Bow) == 0;
    assert r.bowInventory == l.bowInventory[1..];
  }

  /** A global upgrade paid from enough money keeps the state consistent. */
  lemma GlobalUpgradeRule(l: Ledger, price: int)
    requires Consistent(l) && price >= 0 && l.money >= price
    ensures Consistent(AfterGlobalUpgrade(l, price))
    ensures AfterGlobalUpgrade(l, price).money == l.money - price
  {
  }

  /** A restart gives back a consistent state with 1000 money, 20 lives,
      wave 1 and no streak, whatever the old state. */
  lemma ResetRule(l: Ledger)
    requires Consistent(l)
    ensures var r := AfterReset(l);
      && Consistent(r)
      && r.money == 1000 && r.lives == StartingLives && r.wave == 1 && r.streakCount == 0
      && r.maxStreak == l.maxStreak && r.achievements == l.achievements
  {
  }

  /** The combo scenario: two kills in quick succession raise the streak to 2
      and the multiplier to 1.5; after a 4 s pause the timeout ends the streak,
      so the third kill counts as a streak of 1 and pays x1. */
  lemma ComboScenario(l: Ledger, reward: int, t: int)
    requires Consistent(l) && l.streakCount == 0 && reward >= 0
    ensures var k1 := AfterKill(l, reward, false, t);
      var k2 := AfterKill(k1, reward, false, t + 1000);
      var idle := AfterComboTimeout(k2, t + 5000);
      var k3 := AfterKill(idle, reward, false, t + 5000);
      && k2.streakCount == 2 && k2.comboHalves == 3
      && idle.streakCount == 0 && idle.comboHalves == 2
      && k3.streakCount == 1 && k3.comboHalves == 2
      && k3.money - idle.money == KillReward(reward, idle.moneyMultiplierPct, 2)
  {
    KillBookkeeping(l, reward, false, t);
    KillKeepsConsistent(l, reward, false, t);
    var k1 := AfterKill(l, reward, false, t);
    KillBookkeeping(k1, reward, false, t + 1000);
    KillKeepsConsistent(k1, reward, false, t + 1000);
    var k2 := AfterKill(k1, reward, false, t + 1000);
    ComboTimeoutRule(k2, t + 5000);
    var idle := AfterComboTimeout(k2, t + 5000);
    KillBookkeeping(idle, reward, false, t + 5000);
  }

  /** The first-kill scenario: a basic enemy (reward 10) killed with multiplier
      1 and no streak pays 10 and counts one kill. */
  lemma FirstKillScenario(l: Ledger, now: int)
    requires Consistent(l) && l.streakCount == 0 && l.moneyMultiplierPct == 100 && l.totalKills == 0
    ensures var r := AfterKill(l, EnemyStatsOf(Basic).reward, false, now);
      r.money == l.money + 10 && r.totalKills == 1 && r.streakCount == 1
  {
    KillBookkeeping(l, 10, false, now);
  }

  // ------------------------------------------------------------- the record

  /** The mutable game-state record shared by the scenes. */
  class GameState {
    var money: int
    var moneyMultiplierPct: int
    var wave: int
    var score: int
    var lives: int
    var inventory: seq<TowerKind>
    var bowInventory: seq<TowerKind>
    var achievements: seq<Achievement>
    var totalKills: int
    var totalMoneyEarned: int
    var criticalMode: bool
    var bossWave: bool
    var comboHalves: int
    var lastKillTime: int
    var streakCount: int
    var maxStreak: int
    var playtime: int
    var bossesKilled: int
    var killsThisWave: int
    var perfectWaves: int
    var moneySpentOnUpgrades: int
    var towersBuilt: int

    function View(): Ledger
      reads this
    {
      Ledger(money, moneyMultiplierPct, wave, score, lives, inventory, bowInventory, achievements,
             totalKills, totalMoneyEarned, criticalMode, bossWave, comboHalves, lastKillTime,
             streakCount, maxStreak, playtime, bossesKilled, killsThisWave, perfectWaves,
             moneySpentOnUpgrades, towersBuilt)
    }

    predicate Valid()
      reads this
    {
      Consistent(View())
    }

    /** The record as the game starts; `multiplierPct` is the caller's draw of
        `Between(66, 133)`. */
    constructor (multiplierPct: int)
      requires 66 <= multiplierPct <= 133
      ensures View() == Initial(multiplierPct) && Valid()
    {
      money, moneyMultiplierPct, wave, score, lives := 1000, multiplierPct, 1, 0, StartingLives;
      inventory, bowInventory, achievements := [], [], [];
      totalKills, totalMoneyEarned, criticalMode, bossWave := 0, 0, false, false;
      comboHalves, lastKillTime, streakCount, maxStreak := 2, 0, 0, 0;
      playtime, bossesKilled, killsThisWave, perfectWaves := 0, 0, 0, 0;
      moneySpentOnUpgrades, towersBuilt := 0, 0;
    }

    /** `reachEnd`'s ledger side: one life lost. */
    method LoseLife()
      modifies this`lives
      ensures View() == old(View()).(lives := old(lives) - 1)
      ensures Valid() == old(Valid())
    {
      lives := lives - 1;
    }

    /** The counters `die` moves before its achievement checks. */
    method ScoreKill(reward: int, now: int)
      modifies this`lastKillTime, this`streakCount, this`killsThisWave, this`maxStreak, this`comboHalves,
               this`money, this`score, this`totalKills, this`totalMoneyEarned
      ensures View() == KillCounters(old(View()), reward, now)
    {
      CountKill(now);
      PayKill(reward);
    }

    /** The streak part of `die`: time stamp, streak, kills this wave, best
        streak and the multiplier step. */
    method CountKill(now: int)
      modifies this`lastKillTime, this`streakCount, this`killsThisWave, this`maxStreak, this`comboHalves
      ensures lastKillTime == now
      ensures streakCount == old(streakCount) + 1 && killsThisWave == old(killsThisWave) + 1
      ensures maxStreak == if streakCount > old(maxStreak) then streakCount else old(maxStreak)
      ensures comboHalves == ComboAfter(streakCount, old(comboHalves))
    {
      lastKillTime := now;
      streakCount := streakCount + 1;
      killsThisWave := killsThisWave + 1;
      if streakCount > maxStreak {
        maxStreak := streakCount;
      }
      if streakCount >= 10 {
        comboHalves := 6;
      } else if streakCount >= 5 {
        comboHalves := 4;
      } else if streakCount >= 2 {
        comboHalves := 3;
      }
    }

    /** The reward part of `die`: the double-floored reward goes to money and
        to total earnings, the combo-scaled score to the score. */
    method PayKill(reward: int)
      modifies this`money, this`score, this`totalKills, this`totalMoneyEarned
      ensures money == old(money) + KillReward(reward, moneyMultiplierPct, comboHalves)
      ensures totalMoneyEarned == old(totalMoneyEarned) + KillReward(reward, moneyMultiplierPct, comboHalves)
      ensures score == old(score) + KillScore(reward, comboHalves)
      ensures totalKills == old(totalKills) + 1
    {
      var baseReward := reward * moneyMultiplierPct / 100;
      var comboReward := baseReward * comboHalves / 2;
      money := money + comboReward;
      score := score + reward * 5 * comboHalves;
      totalKills := totalKills + 1;
      totalMoneyEarned := totalMoneyEarned + comboReward;
    }

    /** `updateComboSystem`, with `now` standing for `Date.now()`. */
    method UpdateComboSystem(now: int)
      requires Valid()
      modifies this`streakCount, this`comboHalves
      ensures View() == AfterComboTimeout(old(View()), now) && Valid()
    {
      if now - lastKillTime > ComboTimeout {
        if streakCount > 0 {
          streakCount := 0;
          comboHalves := 2;
        }
      }
      assert Valid() by { ComboTimeoutRule(old(View()), now); }
    }

    /** `updateCriticalMode`: critical mode is on exactly while lives are at most 5. */
    method UpdateCriticalMode()
      modifies this`criticalMode
      ensures View() == old(View()).(criticalMode := lives <= 5)
      ensures Valid() == old(Valid())
    {
      if lives <= 5 && !criticalMode {
        criticalMode := true;
      } else if lives > 5 && criticalMode {
        criticalMode := false;
      }
    }

    /** The frame time `MainScene.update` adds to the play time. */
    method AddPlaytime(delta: int)
      modifies this`playtime
      ensures View() == old(View()).(playtime := old(playtime) + delta)
      ensures Valid() == old(Valid())
    {
      playtime := playtime + delta;
    }

    /** `startWave`'s boss flag: raised on every fifth wave, never lowered here. */
    method MarkBossWave()
      modifies this`bossWave
      ensures View() == old(View()).(bossWave := old(bossWave) || IsBossWave(wave))
      ensures Valid() == old(Valid())
    {
      if wave % 5 == 0 {
        bossWave := true;
      }
    }

    /** The ledger side of `placeTower`: one bow leaves the inventory and
        the bow inventory, one more tower is built. */
    method TakeBow()
      requires Valid() && Bow in inventory
      modifies this`inventory, this`bowInventory, this`towersBuilt
      ensures View() == AfterPlacement(old(View())) && Valid()
    {
      var bowIndex := IndexOf(inventory, Bow);
      if bowIndex != -1 {
        inventory := SpliceOne(inventory, bowIndex);
        bowInventory := SpliceOne(bowInventory, IndexOf(bowInventory, Bow));
      }
      towersBuilt := towersBuilt + 1;
      assert Valid() by { PlacementRule(old(View()), Bow); }
    }

    /** The ledger side of `completeWave`. */
    method CompleteWave()
      requires Valid()
      modifies this`bossWave, this`wave, this`money, this`score, this`perfectWaves, this`killsThisWave
      ensures View() == AfterWaveComplete(old(View())) && Valid()
    {
      PayWaveBonus();
      CountPerfectWave();
      assert Valid() by { WaveCompleteRule(old(View())); }
    }

    method PayWaveBonus()
      modifies this`bossWave, this`wave, this`money, this`score
      ensures View() == old(View()).(bossWave := false, wave := old(wave) + 1,
                                     money := old(money) + WaveBonus(old(wave) + 1),
                                     score := old(score) + 2 * WaveBonus(old(wave) + 1))
    {
      bossWave := false;
      wave := wave + 1;
      var waveBonus := wave * 50;
      money := money + waveBonus;
      score := score + waveBonus * 2;
    }

    method CountPerfectWave()
      modifies this`perfectWaves, this`killsThisWave
      ensures View() == old(View()).(perfectWaves := if old(killsThisWave) > 0 && lives == StartingLives
                                                     then old(perfectWaves) + 1 else old(perfectWaves),
                                     killsThisWave := 0)
    {
      if killsThisWave > 0 && lives == StartingLives {
        perfectWaves := perfectWaves + 1;
      }
      killsThisWave := 0;
    }

    /** The shop's buy button for one tower type. */
    method Buy(kind: TowerKind)
      requires Valid()
      modifies this`money, this`inventory, this`bowInventory
      ensures View() == AfterBuy(old(View()), kind) && Valid()
    {
      var price := ShopPrice(kind);
      if money >= price {
        money := money - price;
        inventory := inventory + [kind];
        if kind == Bow {
          bowInventory := bowInventory + [kind];
        }
      }
      assert Valid() by { BuyRule(old(View()), kind, kind); }
    }

    /** The payment for a global upgrade, made only when the money covers it. */
    method PayUpgrade(price: int)
      requires Valid() && 0 <= price <= money
      modifies this`money, this`moneySpentOnUpgrades
      ensures View() == AfterGlobalUpgrade(old(View()), price) && Valid()
    {
      money := money - price;
      moneySpentOnUpgrades := moneySpentOnUpgrades + price;
      assert Valid() by { GlobalUpgradeRule(old(View()), price); }
    }

    /** `DeathScene.resetGameState`. */
    method Reset()
      requires Valid()
      modifies this
      ensures View() == AfterReset(old(View())) && Valid()
    {
      ResetRun();
      ResetStreaks();
      assert View() == AfterReset(old(View()));
      assert Valid() by { ResetRule(old(View())); }
    }

    method ResetRun()
      modifies this`money, this`wave, this`score, this`lives, this`inventory, this`bowInventory,
               this`totalKills, this`totalMoneyEarned
      ensures money == 1000 && wave == 1 && score == 0 && lives == StartingLives
      ensures inventory == [] && bowInventory == [] && totalKills == 0 && totalMoneyEarned == 0
    {
      money := 1000;
      wave := 1;
      score := 0;
      lives := StartingLives;
      inventory := [];
      bowInventory := [];
      totalKills := 0;
      totalMoneyEarned := 0;
    }

    method ResetStreaks()
      modifies this`criticalMode, this`bossWave, this`comboHalves, this`streakCount,
               this`killsThisWave, this`perfectWaves, this`towersBuilt, this`playtime
      ensures !criticalMode && !bossWave && comboHalves == 2 && streakCount == 0
      ensures killsThisWave == 0 && perfectWaves == 0 && towersBuilt == 0 && playtime == 0
    {
      criticalMode := false;
      bossWave := false;
      comboHalves := 2;
      streakCount := 0;
      killsThisWave := 0;
      perfectWaves := 0;
      towersBuilt := 0;
      playtime := 0;
    }
  }
}
