/** The menu scene: the tower shop and the two global upgrade buttons,
    whose prices start at 100 and grow by 30% (rounded down) with every
    purchase.  The buttons act on the main scene's towers. */
module Menu {
  import opened Kinds
  import opened Rules
  import opened State
  import opened Towers
  import opened Arena

  /** The global range button's effect on one tower: range up 20, capped
      at 400. */
  function RangeBoost(p: Progress): Progress
  {
    p.(range := if p.range + 20 < RangeCap then p.range + 20 else RangeCap)
  }

  /** The global speed button's effect on one tower: fire interval down 25,
      floored at 50, and the firing timer set to the new interval. */
  function SpeedBoost(p: Progress): Progress
  {
    var s := if p.attackSpeed - 25 > SpeedFloor then p.attackSpeed - 25 else SpeedFloor;
    p.(attackSpeed := s, fireDelay := s)
  }

  /** The range button changes the range alone: it never exceeds 400 after
      the boost, never falls for a tower within the cap, rises by exactly
      20 while there is room, and a sound tower stays sound. */
  lemma RangeBoostRule(p: Progress)
    ensures var r := RangeBoost(p);
      && r.(range := p.range) == p
      && r.range <= RangeCap
      && (p.range <= RangeCap ==> p.range <= r.range)
      && (p.range + 20 <= RangeCap ==> r.range == p.range + 20)
      && (Sound(p) ==> Sound(r))
  {
  }

  /** The speed button changes the fire interval and the timer alone: the
      interval never falls below 50, never rises for a sound tower, falls by
      exactly 25 while above 75, and the timer always runs at the new
      interval, so a sound tower stays sound. */
  lemma SpeedBoostRule(p: Progress)
    ensures var r := SpeedBoost(p);
      && r.(attackSpeed := p.attackSpeed, fireDelay := p.fireDelay) == p
      && r.attackSpeed >= SpeedFloor && r.fireDelay == r.attackSpeed
      && (p.attackSpeed >= SpeedFloor ==> r.attackSpeed <= p.attackSpeed)
      && (p.attackSpeed - 25 >= SpeedFloor ==> r.attackSpeed == p.attackSpeed - 25)
      && (Sound(p) ==> Sound(r))
  {
  }

  /** Buying at a price of at least 4 always raises it, and the new price
      is 1.3 times the old one rounded down, so prices starting at 100 stay
      at least 100. */
  lemma PriceRule(price: int)
    requires price >= 100
    ensures price < NextPrice(price) && NextPrice(price) >= 100
    ensures 10 * NextPrice(price) <= 13 * price < 10 * NextPrice(price) + 10
  {
  }

  /** The loop of the range button over the towers. */
  method BoostRanges(bows: seq<Tower>)
    requires NoDuplicates(bows)
    modifies bows`range
    ensures forall j :: 0 <= j < |bows| ==> bows[j].View() == RangeBoost(old(bows[j].View()))
    ensures forall t :: t in bows && old(Sound(t.View())) ==> Sound(t.View())
  {
    var i := 0;
    while i < |bows|
      invariant 0 <= i <= |bows|
      invariant forall j :: 0 <= j < i ==> bows[j].View() == RangeBoost(old(bows[j].View()))
      invariant forall j :: i <= j < |bows| ==> bows[j].View() == old(bows[j].View())
    {
      var t := bows[i];
      t.range := if t.range + 20 < RangeCap then t.range + 20 else RangeCap;
      i := i + 1;
    }
    forall t | t in bows && old(Sound(t.View()))
      ensures Sound(t.View())
    {
      RangeBoostRule(old(t.View()));
    }
  }

  /** The loop of the speed button over the towers; every tower has its
      firing timer, so each timer is set to the new interval. */
  method BoostSpeeds(bows: seq<Tower>)
    requires NoDuplicates(bows)
    modifies bows`attackSpeed, bows`fireDelay
    ensures forall j :: 0 <= j < |bows| ==> bows[j].View() == SpeedBoost(old(bows[j].View()))
    ensures forall t :: t in bows && old(Sound(t.View())) ==> Sound(t.View())
  {
    var i := 0;
    while i < |bows|
      invariant 0 <= i <= |bows|
      invariant forall j :: 0 <= j < i ==> bows[j].View() == SpeedBoost(old(bows[j].View()))
      invariant forall j :: i <= j < |bows| ==> bows[j].View() == old(bows[j].View())
    {
      var t := bows[i];
      t.attackSpeed := if t.attackSpeed - 25 > SpeedFloor then t.attackSpeed - 25 else SpeedFloor;
      t.fireDelay := t.attackSpeed;
      i := i + 1;
    }
    forall t | t in bows && old(Sound(t.View()))
      ensures Sound(t.View())
    {
      SpeedBoostRule(old(t.View()));
    }
  }

  class MenuScene {
    const gs: GameState
    const main: MainScene
    const shopWave: int
    var rangePrice: int
    var speedPrice: int

    /** Both scenes share the ledger, the main scene keeps its invariant and
        neither price has fallen below its starting 100. */
    predicate Valid()
      reads this, gs, main, main.bows
    {
      && main.gs == gs && main.Valid()
      && rangePrice >= 100 && speedPrice >= 100
    }

    /** The menu over a main scene: both upgrade prices at 100, and the
        shop built once for the wave at this moment. */
    constructor (main: MainScene)
      requires main.Valid()
      ensures this.main == main && gs == main.gs && Valid()
      ensures rangePrice == 100 && speedPrice == 100
      ensures shopWave == main.gs.wave
    {
      this.main := main;
      gs := main.gs;
      shopWave := main.gs.wave;
      rangePrice, speedPrice := 100, 100;
    }

    /** A shop button, present only for the tower types offered at the wave
        when the menu was built (the shop is not rebuilt when the menu is
        shown again): with enough money one item of the type is bought. */
    method Buy(kind: TowerKind)
      requires Valid() && OfferedInShop(kind, shopWave)
      modifies gs`money, gs`inventory, gs`bowInventory
      ensures Valid()
      ensures gs.View() == AfterBuy(old(gs.View()), kind)
    {
      gs.Buy(kind);
    }

    /** The global range button: with enough money every tower gets the
        range boost, the price is paid and grows; otherwise nothing changes. */
    method UpgradeRange()
      requires Valid()
      modifies this`rangePrice, main.bows`range, gs`money, gs`moneySpentOnUpgrades
      ensures Valid()
      ensures old(gs.money) >= old(rangePrice) ==>
                && gs.View() == AfterGlobalUpgrade(old(gs.View()), old(rangePrice))
                && rangePrice == NextPrice(old(rangePrice))
                && forall j :: 0 <= j < |main.bows| ==> main.bows[j].View() == RangeBoost(old(main.bows[j].View()))
      ensures old(gs.money) < old(rangePrice) ==>
                && gs.View() == old(gs.View()) && rangePrice == old(rangePrice)
                && forall j :: 0 <= j < |main.bows| ==> main.bows[j].View() == old(main.bows[j].View())
    {
      if gs.money >= rangePrice {
        ghost var ledger := gs.View();
        BoostRanges(main.bows);
        assert gs.View() == ledger;
        gs.PayUpgrade(rangePrice);
        rangePrice := NextPrice(rangePrice);
      }
    }

    /** The global speed button: with enough money every tower gets the
        speed boost, the price is paid and grows; otherwise nothing changes. */
    method UpgradeSpeed()
      requires Valid()
      modifies this`speedPrice, main.bows`attackSpeed, main.bows`fireDelay, gs`money, gs`moneySpentOnUpgrades
      ensures Valid()
      ensures old(gs.money) >= old(speedPrice) ==>
                && gs.View() == AfterGlobalUpgrade(old(gs.View()), old(speedPrice))
                && speedPrice == NextPrice(old(speedPrice))
                && forall j :: 0 <= j < |main.bows| ==> main.bows[j].View() == SpeedBoost(old(main.bows[j].View()))
      ensures old(gs.money) < old(speedPrice) ==>
                && gs.View() == old(gs.View()) && speedPrice == old(speedPrice)
                && forall j :: 0 <= j < |main.bows| ==> main.bows[j].View() == old(main.bows[j].View())
    {
      if gs.money >= speedPrice {
        ghost var ledger := gs.View();
        BoostSpeeds(main.bows);
        assert gs.View() == ledger;
        gs.PayUpgrade(speedPrice);
        speedPrice := NextPrice(speedPrice);
      }
    }
  }
}
