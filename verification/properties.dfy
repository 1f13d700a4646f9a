/**
 * What each store action of src/store/gameStore.ts does, stated against the
 * state it starts from: the guards that make an action a no-op, the exact
 * deltas of an accepted action, and what it leaves alone.
 */
module GameProperties {
  import opened Types
  import opened Minerals
  import opened Wafers
  import opened Nodes
  import opened Chips
  import opened ResearchTree
  import opened Automations
  import opened Resources
  import opened Fabrication
  import opened Game
  import opened GameInvariant

  // ---------------------------------------------------------------------------
  // Mining
  // ---------------------------------------------------------------------------

  /**
   * `mine(m)`: a missing or locked mineral is left alone; otherwise
   * `miningPower × baseRate × miningMultiplier` lands in both its `amount` and
   * its `total`, and nothing else changes.
   */
  lemma MineCreditsOneTap(s: GameState, m: MineralId)
    ensures m !in s.minerals || !s.minerals[m].unlocked ==> Mine(s, m) == s
    ensures m in s.minerals && s.minerals[m].unlocked ==>
              var t := Mine(s, m);
              && t.minerals.Keys == s.minerals.Keys
              && t.minerals[m].amount == s.minerals[m].amount + s.miningPower * Mineral(m).baseRate * s.miningMultiplier
              && t.minerals[m].total == s.minerals[m].total + s.miningPower * Mineral(m).baseRate * s.miningMultiplier
              && t.minerals[m].unlocked
              && (forall m' :: m' in s.minerals && m' != m ==> t.minerals[m'] == s.minerals[m'])
              && t.(minerals := s.minerals) == s
  {
  }

  /** `unlockMineral(m)` sets the gate of a present mineral, keeps its quantities, and touches nothing else. */
  lemma UnlockMineralSetsGate(s: GameState, m: MineralId)
    ensures m !in s.minerals ==> UnlockMineral(s, m) == s
    ensures m in s.minerals ==>
              var t := UnlockMineral(s, m);
              && t.minerals.Keys == s.minerals.Keys
              && t.minerals[m] == Stock(s.minerals[m].amount, s.minerals[m].total, true)
              && (forall m' :: m' in s.minerals && m' != m ==> t.minerals[m'] == s.minerals[m'])
              && t.(minerals := s.minerals) == s
  {
  }

  // ---------------------------------------------------------------------------
  // Crafting
  // ---------------------------------------------------------------------------

  /** A craft's duration times the speed multiplier is the unscaled time `craftTime × amount`. */
  lemma DurationTimesSpeed(craftTime: nat, amount: nat, fabSpeedMultiplier: real)
    requires fabSpeedMultiplier > 0.0
    ensures CraftDuration(craftTime, amount, fabSpeedMultiplier) * fabSpeedMultiplier == (craftTime * amount) as real
  {
    var x := (craftTime * amount) as real;
    assert x / fabSpeedMultiplier * fabSpeedMultiplier == x;
  }

  /** `startCraftWafer` changes nothing exactly when a job is running or `canCraftWafer` fails. */
  lemma StartCraftWaferRefusedIff(s: GameState, w: WaferId, amount: nat, now: int)
    requires s.fabSpeedMultiplier > 0.0
    ensures StartCraftWafer(s, w, amount, now) == s <==> s.crafting.Some? || !CanCraftWafer(w, s.minerals, amount)
  {
  }

  /**
   * An accepted `startCraftWafer`: each recipe mineral loses exactly
   * `cost × amount` from its `amount` and nothing from its `total`; other
   * minerals are unchanged; the job starts at `now` and lasts the craft
   * duration of `amount` wafers (see `DurationTimesSpeed`).
   */
  lemma StartCraftWaferCharges(s: GameState, w: WaferId, amount: nat, now: int)
    requires s.fabSpeedMultiplier > 0.0
    requires s.crafting.None? && CanCraftWafer(w, s.minerals, amount)
    requires AllSound(s.minerals)
    ensures var t := StartCraftWafer(s, w, amount, now);
      && t.minerals.Keys == s.minerals.Keys
      && (forall m :: m in s.minerals ==>
            && SoundStock(t.minerals[m])
            && t.minerals[m].total == s.minerals[m].total
            && t.minerals[m].unlocked == s.minerals[m].unlocked
            && (m in Wafer(w).recipe ==> s.minerals[m].amount - t.minerals[m].amount == (Wafer(w).recipe[m] * amount) as real)
            && (m !in Wafer(w).recipe ==> t.minerals[m] == s.minerals[m]))
      && t.crafting.Some? && t.crafting.value.target == WaferItem(w)
      && t.crafting.value.startedAt == now && t.crafting.value.amount == amount
      && t.crafting.value.duration == CraftDuration(Wafer(w).craftTime, amount, s.fabSpeedMultiplier)
      && t.(minerals := s.minerals, crafting := None) == s
  {
    DeductKeepsStocksSound(s.minerals, Wafer(w).recipe, amount);
  }

  /** `startCraftChip` changes nothing exactly when a job is running or `canCraftChip` fails. */
  lemma StartCraftChipRefusedIff(s: GameState, c: ChipId, amount: nat, now: int)
    requires s.fabSpeedMultiplier > 0.0
    ensures StartCraftChip(s, c, amount, now) == s
        <==> s.crafting.Some? || !CanCraftChip(c, s.minerals, s.wafers, s.currentNode, amount)
  {
  }

  /**
   * An accepted `startCraftChip`: the chip's wafer type loses
   * `waferCost.amount × amount`, each extra mineral `cost × amount`, all from
   * `amount` alone; every other stock is unchanged; the job starts at `now`.
   */
  lemma StartCraftChipCharges(s: GameState, c: ChipId, amount: nat, now: int)
    requires s.fabSpeedMultiplier > 0.0
    requires s.crafting.None? && CanCraftChip(c, s.minerals, s.wafers, s.currentNode, amount)
    requires AllSound(s.minerals) && AllSound(s.wafers)
    ensures var t := StartCraftChip(s, c, amount, now);
      && t.minerals.Keys == s.minerals.Keys && t.wafers.Keys == s.wafers.Keys
      && (forall m :: m in s.minerals ==>
            && SoundStock(t.minerals[m])
            && t.minerals[m].total == s.minerals[m].total
            && (m in Chip(c).extraCosts ==> s.minerals[m].amount - t.minerals[m].amount == (Chip(c).extraCosts[m] * amount) as real)
            && (m !in Chip(c).extraCosts ==> t.minerals[m] == s.minerals[m]))
      && (forall w :: w in s.wafers ==>
            && SoundStock(t.wafers[w])
            && t.wafers[w].total == s.wafers[w].total
            && (w == Chip(c).waferType ==> s.wafers[w].amount - t.wafers[w].amount == (Chip(c).waferAmount * amount) as real)
            && (w != Chip(c).waferType ==> t.wafers[w] == s.wafers[w]))
      && t.crafting.Some? && t.crafting.value.target == ChipItem(c)
      && t.crafting.value.startedAt == now && t.crafting.value.amount == amount
      && t.crafting.value.duration == CraftDuration(Chip(c).craftTime, amount, s.fabSpeedMultiplier)
      && t.(minerals := s.minerals, wafers := s.wafers, crafting := None) == s
  {
    DeductKeepsStocksSound(s.minerals, Chip(c).extraCosts, amount);
    DeductKeepsStocksSound(s.wafers, WaferCharge(c), amount);
  }

  /** `completeCrafting` changes nothing unless a job exists and `now >= startedAt + duration`. */
  lemma CompleteCraftingWaits(s: GameState, now: int)
    requires s.crafting.None? || !IsCraftingComplete(s.crafting.value, now)
    ensures CompleteCrafting(s, now) == s
  {
  }

  /** A finished wafer job adds its amount to the wafer's `amount` and `total`, and clears the job. */
  lemma CompleteWaferCredits(s: GameState, now: int, w: WaferId)
    requires s.crafting.Some? && IsCraftingComplete(s.crafting.value, now)
    requires s.crafting.value.target == WaferItem(w) && w in s.wafers
    ensures var t := CompleteCrafting(s, now);
      var n := s.crafting.value.amount as real;
      && t.wafers.Keys == s.wafers.Keys
      && t.wafers[w] == Stock(s.wafers[w].amount + n, s.wafers[w].total + n, s.wafers[w].unlocked)
      && (forall w' :: w' in s.wafers && w' != w ==> t.wafers[w'] == s.wafers[w'])
      && t.crafting == None
      && t.(wafers := s.wafers, crafting := s.crafting) == s
  {
  }

  /**
   * A finished chip job adds its amount to the chip's `amount` and `total`,
   * clears the job, and sets `flopsPerSecond` to the rate of the new inventory
   * at the current node times the FLOPS multiplier (by `FlopsRateAfterCredit`,
   * the old inventory's rate plus exactly the new chips' share).
   */
  lemma CompleteChipCredits(s: GameState, now: int, c: ChipId)
    requires s.crafting.Some? && IsCraftingComplete(s.crafting.value, now)
    requires s.crafting.value.target == ChipItem(c) && c in s.chips
    ensures var t := CompleteCrafting(s, now);
      var n := s.crafting.value.amount as real;
      && t.chips.Keys == s.chips.Keys
      && t.chips[c] == Stock(s.chips[c].amount + n, s.chips[c].total + n, s.chips[c].unlocked)
      && (forall c' :: c' in s.chips && c' != c ==> t.chips[c'] == s.chips[c'])
      && t.crafting == None
      && t.(chips := s.chips, flopsPerSecond := s.flopsPerSecond, crafting := s.crafting) == s
    ensures CompleteCrafting(s, now).flopsPerSecond == RecomputedRate(s, CompleteCrafting(s, now).chips)
  {
    var n := s.crafting.value.amount;
    var chips := s.chips[c := AddChip(s.chips[c], n)];
    assert CompleteCrafting(s, now) == s.(chips := chips, flopsPerSecond := RecomputedRate(s, chips), crafting := None);
  }

  /** `cancelCrafting` clears the job and gives nothing back. */
  lemma CancelRefundsNothing(s: GameState)
    ensures CancelCrafting(s).crafting == None
    ensures CancelCrafting(s).(crafting := s.crafting) == s
  {
  }

  // ---------------------------------------------------------------------------
  // Research
  // ---------------------------------------------------------------------------

  /** No effect touches FLOPS, research bookkeeping, time, crafting, the auto-miners or the offline summary. */
  lemma EffectFrame(orig: GameState, draft: GameState, e: Effect)
    ensures var t := ApplyEffect(orig, draft, e);
      && t.totalFlops == draft.totalFlops && t.research == draft.research
      && t.lastTick == draft.lastTick && t.crafting == draft.crafting && t.autoMiners == draft.autoMiners
      && t.offlineProgress == draft.offlineProgress && t.miningPower == draft.miningPower
  {
  }

  /** `buyResearch(r)` changes nothing exactly when `canBuyResearch(r)` fails. */
  lemma BuyResearchRefusedIff(s: GameState, r: ResearchId)
    ensures BuyResearch(s, r) == s <==> !CanBuyResearch(s, r)
  {
    if CanBuyResearch(s, r) {
      BuyResearchIsOneEffect(s, r);
      EffectFrame(s, Paid(s, r), Research(r).effects[0]);
      assert |BuyResearch(s, r).research.completed| == |s.research.completed| + 1;
    }
  }

  /**
   * An accepted `buyResearch(r)` pays `cost` out of `totalFlops` into
   * `totalSpent`, so their sum is conserved, and appends `r` to the completed
   * list, where it then occurs exactly once. Time, crafting and the auto-miners
   * are untouched.
   */
  lemma BuyResearchPays(s: GameState, r: ResearchId)
    requires CanBuyResearch(s, r)
    ensures var t := BuyResearch(s, r);
      && t.totalFlops == s.totalFlops - Research(r).cost
      && t.research.completed == s.research.completed + [r]
      && t.research.totalSpent == s.research.totalSpent + Research(r).cost
      && multiset(t.research.completed)[r] == 1
      && t.totalFlops + t.research.totalSpent == s.totalFlops + s.research.totalSpent
      && t.lastTick == s.lastTick && t.crafting == s.crafting && t.autoMiners == s.autoMiners
      && t.offlineProgress == s.offlineProgress && t.miningPower == s.miningPower
  {
    BuyResearchIsOneEffect(s, r);
    EffectFrame(s, Paid(s, r), Research(r).effects[0]);
    assert multiset(s.research.completed)[r] == 0;
  }

  /** One effect applied to a draft that still carries the original multipliers. */
  lemma EffectCompounds(orig: GameState, draft: GameState, e: Effect)
    requires draft.miningMultiplier == orig.miningMultiplier
    requires draft.fabSpeedMultiplier == orig.fabSpeedMultiplier
    requires draft.flopsMultiplier == orig.flopsMultiplier
    ensures var t := ApplyEffect(orig, draft, e);
      && t.miningMultiplier == (if e.MiningMultiplier? then orig.miningMultiplier * e.value else orig.miningMultiplier)
      && t.fabSpeedMultiplier == (if e.FabSpeedMultiplier? then orig.fabSpeedMultiplier * e.value else orig.fabSpeedMultiplier)
      && t.flopsMultiplier == (if e.FlopsMultiplier? then orig.flopsMultiplier * e.value else orig.flopsMultiplier)
      && (e.FlopsMultiplier? ==> t.flopsPerSecond == RecomputedRate(t, t.chips))
  {
  }

  /**
   * Multiplier effects compound by multiplication: the multiplier a research
   * names is multiplied by its value, the other two are unchanged, and a FLOPS
   * multiplier recomputes the rate with the new multiplier.
   */
  lemma BuyResearchCompounds(s: GameState, r: ResearchId)
    requires CanBuyResearch(s, r)
    ensures var t := BuyResearch(s, r);
      var e := Research(r).effects[0];
      && t.miningMultiplier == (if e.MiningMultiplier? then s.miningMultiplier * e.value else s.miningMultiplier)
      && t.fabSpeedMultiplier == (if e.FabSpeedMultiplier? then s.fabSpeedMultiplier * e.value else s.fabSpeedMultiplier)
      && t.flopsMultiplier == (if e.FlopsMultiplier? then s.flopsMultiplier * e.value else s.flopsMultiplier)
      && (e.FlopsMultiplier? ==> t.flopsPerSecond == RecomputedRate(t, t.chips))
  {
    BuyResearchIsOneEffect(s, r);
    EffectCompounds(s, Paid(s, r), Research(r).effects[0]);
  }

  /** Scaling a non-negative amount by a factor of at least 1 never lowers it. */
  lemma ScalingUpNeverLowers(x: real, v: real)
    requires x >= 0.0 && v >= 1.0
    ensures x * v >= x
  {
    assert x * v - x == x * (v - 1.0);
    NonNegativeProduct(x, v - 1.0);
  }

  /** Under the invariant, no research ever lowers a multiplier. */
  lemma MultipliersOnlyGrow(s: GameState, r: ResearchId)
    requires Inv(s)
    ensures var t := BuyResearch(s, r);
      && t.miningMultiplier >= s.miningMultiplier
      && t.fabSpeedMultiplier >= s.fabSpeedMultiplier
      && t.flopsMultiplier >= s.flopsMultiplier
  {
    if CanBuyResearch(s, r) {
      BuyResearchCompounds(s, r);
      MultipliersExceedOne(r);
      var e := Research(r).effects[0];
      match e
      case MiningMultiplier(v) =>
        ScalingUpNeverLowers(s.miningMultiplier, v);
      case FabSpeedMultiplier(v) =>
        ScalingUpNeverLowers(s.fabSpeedMultiplier, v);
      case FlopsMultiplier(v) =>
        ScalingUpNeverLowers(s.flopsMultiplier, v);
      case UnlockNode(n) =>
      case UnlockMinerals(tier) =>
      case UnlockFeature(f) =>
    } else {
      assert BuyResearch(s, r) == s;
    }
  }

  /**
   * `unlock_node`: nothing for a node already unlocked; otherwise the node is
   * appended and made current, and the wafers and chips it lists are unlocked
   * with their quantities kept.
   */
  lemma UnlockNodeEffect(orig: GameState, draft: GameState, n: NodeId)
    ensures n in orig.unlockedNodes ==> ApplyEffect(orig, draft, UnlockNode(n)) == draft
    ensures n !in orig.unlockedNodes ==>
              var t := ApplyEffect(orig, draft, UnlockNode(n));
              && t.unlockedNodes == orig.unlockedNodes + [n]
              && t.currentNode == n
              && t.wafers.Keys == draft.wafers.Keys && t.chips.Keys == draft.chips.Keys
              && (forall w :: w in draft.wafers ==>
                    && t.wafers[w].amount == draft.wafers[w].amount && t.wafers[w].total == draft.wafers[w].total
                    && (t.wafers[w].unlocked <==> draft.wafers[w].unlocked || w in Node(n).unlocksWafers))
              && (forall c :: c in draft.chips ==>
                    && t.chips[c].amount == draft.chips[c].amount && t.chips[c].total == draft.chips[c].total
                    && (t.chips[c].unlocked <==> draft.chips[c].unlocked || c in Node(n).unlocksChips))
              && t.(unlockedNodes := draft.unlockedNodes, currentNode := draft.currentNode,
                    wafers := draft.wafers, chips := draft.chips) == draft
  {
  }

  /**
   * Under the invariant, a node research unlocks exactly the next node of
   * `NODE_ORDER`, and only when `canUnlockNode` admits it.
   */
  lemma NodeResearchUnlocksNextNode(s: GameState, n: NodeId)
    requires Inv(s) && n != Nm90
    requires CanBuyResearch(s, NodeResearch(n))
    ensures CanUnlockNode(n, s.totalFlops, s.unlockedNodes)
    ensures |s.unlockedNodes| < |NodeOrder| && n == NodeOrder[|s.unlockedNodes|]
    ensures BuyResearch(s, NodeResearch(n)).unlockedNodes == s.unlockedNodes + [n]
    ensures BuyResearch(s, NodeResearch(n)).currentNode == n
  {
    BuyResearchIsOneEffect(s, NodeResearch(n));
    NodeResearchMeetsCanUnlockNode(s, n);
    CanUnlockOnlyNextNode(n, s.totalFlops, |s.unlockedNodes|);
  }

  // ---------------------------------------------------------------------------
  // Auto-miners
  // ---------------------------------------------------------------------------

  /**
   * On a state satisfying the invariant the presence tests of `CanBuyAutoMiner`
   * always pass: it is exactly the source's check (automation researched, the
   * miner unlocked, silicon covering the price), and the next tier, when there
   * is one, has its entry, so the guards the source lacks are never taken.
   */
  lemma CanBuyAutoMinerWhenComplete(s: GameState, id: AutoMinerId)
    requires Inv(s)
    ensures CanBuyAutoMiner(s, id)
        <==> s.autoMiningUnlocked && s.autoMiners[id].unlocked && s.minerals[Silicon].amount >= GetAutoMinerCost(s, id)
    ensures NextTier(id).Some? ==> NextTier(id).value in s.autoMiners
  {
  }

  /** `buyAutoMiner(id)` changes nothing exactly when `canBuyAutoMiner(id)` fails. */
  lemma BuyAutoMinerRefusedIff(s: GameState, id: AutoMinerId)
    ensures BuyAutoMiner(s, id) == s <==> !CanBuyAutoMiner(s, id)
  {
    if CanBuyAutoMiner(s, id) {
      assert BuyAutoMiner(s, id).autoMiners[id].owned == s.autoMiners[id].owned + 1;
    }
  }

  /** An accepted `buyAutoMiner(id)` pays the price out of silicon's `amount`, not its `total`, and touches no other mineral. */
  lemma BuyAutoMinerPays(s: GameState, id: AutoMinerId)
    requires CanBuyAutoMiner(s, id)
    ensures var t := BuyAutoMiner(s, id);
      && t.minerals.Keys == s.minerals.Keys
      && t.minerals[Silicon].amount == s.minerals[Silicon].amount - GetAutoMinerCost(s, id)
      && t.minerals[Silicon].total == s.minerals[Silicon].total
      && t.minerals[Silicon].unlocked == s.minerals[Silicon].unlocked
      && (forall m :: m in s.minerals && m != Silicon ==> t.minerals[m] == s.minerals[m])
      && t.(minerals := s.minerals, autoMiners := s.autoMiners) == s
  {
  }

  /**
   * An accepted `buyAutoMiner(id)`: one more unit is owned; the next tier is
   * unlocked once ten or more are owned; no miner is ever locked again, and no
   * other miner changes.
   */
  lemma BuyAutoMinerEffect(s: GameState, id: AutoMinerId)
    requires CanBuyAutoMiner(s, id)
    ensures var t := BuyAutoMiner(s, id);
      && t.autoMiners.Keys == s.autoMiners.Keys
      && t.autoMiners[id].owned == s.autoMiners[id].owned + 1
      && (forall a :: a in s.autoMiners && s.autoMiners[a].unlocked ==> t.autoMiners[a].unlocked)
      && (forall a :: a in s.autoMiners && a != id ==> t.autoMiners[a].owned == s.autoMiners[a].owned)
      && (forall a :: a in s.autoMiners && a != id && NextTier(id) != Some(a) ==> t.autoMiners[a] == s.autoMiners[a])
      && (NextTier(id).Some? && NextTier(id).value in s.autoMiners ==>
            (t.autoMiners[NextTier(id).value].unlocked
             <==> s.autoMiners[NextTier(id).value].unlocked || s.autoMiners[id].owned + 1 >= 10))
  {
  }

  /** After a purchase the next unit costs `costMultiplier` times as much, which is strictly more. */
  lemma NextPriceRises(s: GameState, id: AutoMinerId)
    requires CanBuyAutoMiner(s, id)
    ensures GetAutoMinerCost(BuyAutoMiner(s, id), id) == GetAutoMinerCost(s, id) * Miner(id).costMultiplier
    ensures GetAutoMinerCost(BuyAutoMiner(s, id), id) > GetAutoMinerCost(s, id)
  {
    var k := s.autoMiners[id].owned;
    var t := BuyAutoMiner(s, id);
    assert Owned(t, id) == k + 1 by {
      BuyAutoMinerEffect(s, id);
    }
    assert Owned(s, id) == k;
    CostIsGeometric(Miner(id), k);
    CostStrictlyIncreases(Miner(id), k, k + 1);
  }

  // ---------------------------------------------------------------------------
  // Production over time
  // ---------------------------------------------------------------------------

  /** `tick` does nothing within 0.1 s, and only completes the job when it has finished. */
  lemma TickGuards(s: GameState, now: int)
    ensures SecondsSince(s, now) < 0.1 ==> Tick(s, now) == s
    ensures SecondsSince(s, now) >= 0.1 && s.crafting.Some? && IsCraftingComplete(s.crafting.value, now)
            ==> Tick(s, now) == CompleteCrafting(s, now)
  {
  }

  /**
   * A production `tick`: every unlocked mineral receives, once auto-mining is
   * researched, what all owned miners targeting it produce in
   * `delta × miningMultiplier`; FLOPS accrue at the current rate; `lastTick`
   * moves to `now`; nothing else changes.
   */
  lemma TickProduces(s: GameState, now: int)
    requires SecondsSince(s, now) >= 0.1
    requires !(s.crafting.Some? && IsCraftingComplete(s.crafting.value, now))
    ensures var t := Tick(s, now);
      var delta := SecondsSince(s, now);
      && t.lastTick == now
      && t.totalFlops == s.totalFlops + FlopsEarned(s, delta)
      && t.minerals.Keys == s.minerals.Keys
      && (forall m :: m in s.minerals ==>
            t.minerals[m] == AddMineral(s.minerals[m],
                                        if s.autoMiningUnlocked && s.minerals[m].unlocked
                                        then YieldOver(s.autoMiners, AutoMinerOrder, m, TickFactor(s, delta))
                                        else 0.0))
      && t.(lastTick := s.lastTick, minerals := s.minerals, totalFlops := s.totalFlops) == s
  {
    var delta := SecondsSince(s, now);
    var t := Tick(s, now);
    forall m | m in s.minerals
      ensures t.minerals[m] == AddMineral(s.minerals[m],
                                          if s.autoMiningUnlocked && s.minerals[m].unlocked
                                          then YieldOver(s.autoMiners, AutoMinerOrder, m, TickFactor(s, delta))
                                          else 0.0)
    {
      if s.autoMiningUnlocked && s.minerals[m].unlocked && !FedOver(s.autoMiners, AutoMinerOrder, m) {
        UnfedYieldsNothing(s.autoMiners, AutoMinerOrder, m, TickFactor(s, delta));
      }
    }
  }

  /** What the miners produce in two stretches is what they produce in both together. */
  lemma {:induction false} YieldOverIsAdditive(miners: map<AutoMinerId, MinerState>, ids: seq<AutoMinerId>, m: MineralId,
                                               f1: real, f2: real)
    ensures YieldOver(miners, ids, m, f1) + YieldOver(miners, ids, m, f2) == YieldOver(miners, ids, m, f1 + f2)
  {
    if ids != [] {
      var id := ids[|ids| - 1];
      YieldOverIsAdditive(miners, ids[..|ids| - 1], m, f1, f2);
      if Feeds(miners, id, m) {
        ScaledSum(f1, f2, MinerOutput(miners, id));
        assert MinerOutput(miners, id) * f1 + MinerOutput(miners, id) * f2 == MinerOutput(miners, id) * (f1 + f2);
      }
    }
  }

  /** The gains depend on the minerals only through which are present and which are unlocked. */
  lemma GainsFollowGates(m1: map<MineralId, Stock>, m2: map<MineralId, Stock>, miners: map<AutoMinerId, MinerState>,
                         factor: real)
    requires m1.Keys == m2.Keys
    requires forall m :: m in m1 ==> m1[m].unlocked == m2[m].unlocked
    ensures Gains(m1, miners, factor) == Gains(m2, miners, factor)
  {
  }

  /** The gains of two stretches add up, mineral by mineral, to the gains of both together. */
  lemma GainsAdd(minerals: map<MineralId, Stock>, miners: map<AutoMinerId, MinerState>, f1: real, f2: real)
    ensures var g1, g2, g := Gains(minerals, miners, f1), Gains(minerals, miners, f2), Gains(minerals, miners, f1 + f2);
      && g1.Keys == g.Keys && g2.Keys == g.Keys
      && forall m :: m in g ==> g[m] == g1[m] + g2[m]
  {
    forall m | m in Gains(minerals, miners, f1 + f2) {
      YieldOverIsAdditive(miners, AutoMinerOrder, m, f1, f2);
    }
  }

  /** Crediting two gain maps one after the other is crediting their sum. */
  lemma CreditedTwice(minerals: map<MineralId, Stock>, g1: map<MineralId, real>, g2: map<MineralId, real>,
                      g: map<MineralId, real>)
    requires g1.Keys == g.Keys && g2.Keys == g.Keys
    requires forall m :: m in g ==> g[m] == g1[m] + g2[m]
    ensures Credited(Credited(minerals, g1), g2) == Credited(minerals, g)
  {
    forall m | m in minerals && m in g {
      AddMineralTwice(minerals[m], g1[m], g2[m]);
    }
  }

  /** Crediting never changes which minerals are present or unlocked. */
  lemma CreditedKeepsGates(minerals: map<MineralId, Stock>, gains: map<MineralId, real>)
    ensures Credited(minerals, gains).Keys == minerals.Keys
    ensures forall m :: m in minerals ==> Credited(minerals, gains)[m].unlocked == minerals[m].unlocked
  {
  }

  /** Crediting an empty gain map changes nothing. */
  lemma CreditedNothing(minerals: map<MineralId, Stock>)
    ensures Credited(minerals, map[]) == minerals
  {
  }

  /** The FLOPS and the production factors of two stretches add up. */
  lemma StretchesAdd(s: GameState, d1: real, d2: real)
    ensures FlopsEarned(s, d1) + FlopsEarned(s, d2) == FlopsEarned(s, d1 + d2)
    ensures TickFactor(s, d1) + TickFactor(s, d2) == TickFactor(s, d1 + d2)
  {
    ScaledSum(d1, d2, s.flopsPerSecond);
    ScaledSum(d1, d2, s.miningMultiplier);
  }

  /** Auto-mining two stretches one after the other credits what one stretch over both would. */
  lemma MiningTwice(minerals: map<MineralId, Stock>, miners: map<AutoMinerId, MinerState>, f1: real, f2: real)
    ensures var m1 := Credited(minerals, Gains(minerals, miners, f1));
      Credited(m1, Gains(m1, miners, f2)) == Credited(minerals, Gains(minerals, miners, f1 + f2))
  {
    var g1 := Gains(minerals, miners, f1);
    var m1 := Credited(minerals, g1);
    CreditedKeepsGates(minerals, g1);
    GainsFollowGates(m1, minerals, miners, f2);
    GainsAdd(minerals, miners, f1, f2);
    CreditedTwice(minerals, g1, Gains(minerals, miners, f2), Gains(minerals, miners, f1 + f2));
  }

  /** The mineral part of `TickTwiceIsOneTick`, with or without auto-mining researched. */
  lemma TickMiningTwice(s: GameState, d1: real, d2: real)
    ensures var m1 := if s.autoMiningUnlocked then Credited(s.minerals, Gains(s.minerals, s.autoMiners, TickFactor(s, d1))) else s.minerals;
      (if s.autoMiningUnlocked then Credited(m1, Gains(m1, s.autoMiners, TickFactor(s, d2))) else m1)
      == (if s.autoMiningUnlocked then Credited(s.minerals, Gains(s.minerals, s.autoMiners, TickFactor(s, d1 + d2))) else s.minerals)
  {
    if s.autoMiningUnlocked {
      StretchesAdd(s, d1, d2);
      MiningTwice(s.minerals, s.autoMiners, TickFactor(s, d1), TickFactor(s, d2));
    }
  }

  /**
   * Two production ticks equal one tick over the whole stretch: splitting time
   * into ticks of at least 0.1 s, with no job finishing, changes neither the
   * minerals nor the FLOPS gained.
   */
  lemma TickTwiceIsOneTick(s: GameState, t1: int, t2: int)
    requires SecondsSince(s, t1) >= 0.1 && (t2 - t1) as real / 1000.0 >= 0.1
    requires !(s.crafting.Some? && IsCraftingComplete(s.crafting.value, t2))
    ensures Tick(Tick(s, t1), t2) == Tick(s, t2)
  {
    var d1, d2, d := SecondsSince(s, t1), (t2 - t1) as real / 1000.0, SecondsSince(s, t2);
    assert d1 + d2 == d;
    var s1 := Tick(s, t1);
    var m1 := if s.autoMiningUnlocked then Credited(s.minerals, Gains(s.minerals, s.autoMiners, TickFactor(s, d1))) else s.minerals;
    assert s1 == s.(lastTick := t1, minerals := m1, totalFlops := s.totalFlops + FlopsEarned(s, d1));
    assert SecondsSince(s1, t2) == d2;
    assert TickFactor(s1, d2) == TickFactor(s, d2) && FlopsEarned(s1, d2) == FlopsEarned(s, d2);
    StretchesAdd(s, d1, d2);
    var m2 := if s.autoMiningUnlocked then Credited(m1, Gains(m1, s.autoMiners, TickFactor(s, d2))) else m1;
    var m := if s.autoMiningUnlocked then Credited(s.minerals, Gains(s.minerals, s.autoMiners, TickFactor(s, d))) else s.minerals;
    TickMiningTwice(s, d1, d2);
    assert Tick(s1, t2) == s1.(lastTick := t2, minerals := m2, totalFlops := s1.totalFlops + FlopsEarned(s1, d2));
    assert Tick(s, t2) == s.(lastTick := t2, minerals := m, totalFlops := s.totalFlops + FlopsEarned(s, d));
  }

  /**
   * Offline catch-up uses the formulas of `tick`: resuming after more than
   * 60 s and then dismissing the summary leaves the state a single `tick` over
   * the whole absence would (when no job finishes meanwhile, the mining
   * multiplier is set and the FLOPS rate is not negative).
   */
  lemma OfflineMatchesTick(s: GameState, now: int)
    requires s.offlineProgress.None? && s.lastTick != 0 && SecondsSince(s, now) > 60.0
    requires s.miningMultiplier != 0.0 && s.flopsPerSecond >= 0.0
    requires !(s.crafting.Some? && IsCraftingComplete(s.crafting.value, now))
    ensures Dismiss(Resume(s, now)) == Tick(s, now)
  {
    TickCreditsSummary(s, now);
    DismissCreditsSummary(s, now);
  }

  /** A production tick over the absence credits exactly the offline summary of it. */
  lemma TickCreditsSummary(s: GameState, now: int)
    requires SecondsSince(s, now) >= 0.1 && s.miningMultiplier != 0.0
    requires !(s.crafting.Some? && IsCraftingComplete(s.crafting.value, now))
    ensures var p := OfflineSummary(s, SecondsSince(s, now));
      Tick(s, now) == s.(lastTick := now, minerals := Credited(s.minerals, p.minerals), totalFlops := s.totalFlops + p.flops)
  {
    var seconds := SecondsSince(s, now);
    assert OfflineFactor(s, seconds) == TickFactor(s, seconds);
    CreditedNothing(s.minerals);
  }

  /** Resuming after more than 60 s and dismissing credits the summary of the absence and moves `lastTick`. */
  lemma DismissCreditsSummary(s: GameState, now: int)
    requires s.offlineProgress.None? && s.lastTick != 0 && SecondsSince(s, now) > 60.0 && s.flopsPerSecond >= 0.0
    ensures var p := OfflineSummary(s, SecondsSince(s, now));
      Dismiss(Resume(s, now)) == s.(lastTick := now, minerals := Credited(s.minerals, p.minerals), totalFlops := s.totalFlops + p.flops)
  {
    var p := OfflineSummary(s, SecondsSince(s, now));
    if p.flops > 0.0 || |p.minerals| > 0 {
      DismissShownSummary(s, now, p);
    } else {
      DismissEmptySummary(s, now, p);
    }
  }

  /** The case of `DismissCreditsSummary` where a summary is shown. */
  lemma DismissShownSummary(s: GameState, now: int, p: OfflineProgress)
    requires s.offlineProgress.None? && s.lastTick != 0 && SecondsSince(s, now) > 60.0
    requires p == OfflineSummary(s, SecondsSince(s, now)) && (p.flops > 0.0 || |p.minerals| > 0)
    ensures Dismiss(Resume(s, now)) == s.(lastTick := now, minerals := Credited(s.minerals, p.minerals), totalFlops := s.totalFlops + p.flops)
  {
    var r := s.(offlineProgress := Some(p), lastTick := now);
    assert Resume(s, now) == r;
    assert Dismiss(r) == r.(minerals := Credited(s.minerals, p.minerals), totalFlops := s.totalFlops + p.flops, offlineProgress := None);
  }

  /** The case of `DismissCreditsSummary` where the absence produced nothing: no summary, only `lastTick` moves. */
  lemma DismissEmptySummary(s: GameState, now: int, p: OfflineProgress)
    requires s.offlineProgress.None? && s.lastTick != 0 && SecondsSince(s, now) > 60.0 && s.flopsPerSecond >= 0.0
    requires p == OfflineSummary(s, SecondsSince(s, now)) && !(p.flops > 0.0 || |p.minerals| > 0)
    ensures Dismiss(Resume(s, now)) == s.(lastTick := now, minerals := Credited(s.minerals, p.minerals), totalFlops := s.totalFlops + p.flops)
  {
    NonNegativeProduct(s.flopsPerSecond, SecondsSince(s, now));
    assert p.minerals == map[] && p.flops == 0.0;
    CreditedNothing(s.minerals);
    assert Resume(s, now) == s.(lastTick := now);
  }

  /**
   * `dismissOfflineProgress()`: nothing without a summary; otherwise each gain
   * lands in its mineral's `amount` and `total`, the FLOPS in `totalFlops`, and
   * the summary is cleared.
   */
  lemma DismissCredits(s: GameState)
    ensures s.offlineProgress.None? ==> Dismiss(s) == s
    ensures s.offlineProgress.Some? ==>
              var t, p := Dismiss(s), s.offlineProgress.value;
              && t.minerals.Keys == s.minerals.Keys
              && (forall m :: m in s.minerals ==>
                    t.minerals[m] == AddMineral(s.minerals[m], if m in p.minerals then p.minerals[m] else 0.0))
              && t.totalFlops == s.totalFlops + p.flops
              && t.offlineProgress == None
              && t.(minerals := s.minerals, totalFlops := s.totalFlops, offlineProgress := s.offlineProgress) == s
  {
  }

  /**
   * The resume rule: after more than 60 s away (and a non-zero `lastTick`),
   * `lastTick` is reset to `now` and a non-empty summary of the absence becomes
   * the pending one; otherwise nothing changes.
   */
  lemma ResumeRule(s: GameState, now: int)
    ensures s.lastTick == 0 || SecondsSince(s, now) <= 60.0 ==> Resume(s, now) == s
    ensures s.lastTick != 0 && SecondsSince(s, now) > 60.0 ==>
              var t, p := Resume(s, now), OfflineSummary(s, SecondsSince(s, now));
              && t.lastTick == now
              && p.duration == SecondsSince(s, now)
              && (p.flops > 0.0 || |p.minerals| > 0 ==> t.offlineProgress == Some(p))
              && (!(p.flops > 0.0 || |p.minerals| > 0) ==> t.offlineProgress == s.offlineProgress)
              && t.(lastTick := s.lastTick, offlineProgress := s.offlineProgress) == s
  {
  }
}
