/**
 * The invariant every store state reachable from `createInitialState` keeps,
 * and its preservation by each action of src/store/gameStore.ts.
 */
module GameInvariant {
  import opened Types
  import opened Minerals
  import opened Wafers
  import opened Chips
  import opened Nodes
  import opened ResearchTree
  import opened Automations
  import opened Resources
  import opened Fabrication
  import opened Game

  /** Every stock of a map is sound: `0 <= amount <= total`. */
  predicate AllSound<K>(stocks: map<K, Stock>)
  {
    forall k :: k in stocks ==> SoundStock(stocks[k])
  }

  /** No research is listed twice. */
  predicate Distinct(xs: seq<ResearchId>)
  {
    forall i, j :: 0 <= i < j < |xs| ==> xs[i] != xs[j]
  }

  /** The FLOPS a list of researches costs in total. */
  function CostSum(rs: seq<ResearchId>): real
  {
    if rs == [] then 0.0 else CostSum(rs[..|rs| - 1]) + Research(rs[|rs| - 1]).cost
  }

  /** Each research is completed once, and `totalSpent` is their summed cost. */
  predicate ResearchBooks(research: ResearchState)
  {
    Distinct(research.completed) && research.totalSpent == CostSum(research.completed)
  }

  /**
   * The unlocked nodes are a non-empty prefix of `NODE_ORDER`, the current node
   * is the last of them, and a node after the first is unlocked exactly when its
   * research is completed.
   */
  predicate NodesInOrder(unlocked: seq<NodeId>, current: NodeId, completed: seq<ResearchId>)
  {
    && 1 <= |unlocked| <= |NodeOrder|
    && unlocked == NodeOrder[..|unlocked|]
    && current == unlocked[|unlocked| - 1]
    && (forall n :: n != Nm90 ==> (n in unlocked <==> NodeResearch(n) in completed))
  }

  /** A pending offline summary credits no negative amount. */
  predicate OfflineSound(p: Option<OfflineProgress>)
  {
    p.Some? ==> p.value.flops >= 0.0 && forall m :: m in p.value.minerals ==> p.value.minerals[m] >= 0.0
  }

  /** Every mineral, wafer, chip and miner of the tables has its entry. */
  predicate HasEveryEntry(s: GameState)
  {
    && (forall m: MineralId :: m in s.minerals)
    && (forall w: WaferId :: w in s.wafers)
    && (forall c: ChipId :: c in s.chips)
    && (forall a: AutoMinerId :: a in s.autoMiners)
  }

  /**
   * The store invariant: every table entry present; sound stocks; mining power non-negative; every
   * multiplier at least 1; FLOPS held and FLOPS rate non-negative; each research
   * completed once, with `totalSpent` their summed cost; nodes unlocked in
   * order; and a pending offline summary that credits nothing negative.
   */
  predicate Inv(s: GameState)
  {
    && HasEveryEntry(s)
    && AllSound(s.minerals) && AllSound(s.wafers) && AllSound(s.chips)
    && s.miningPower >= 0.0
    && s.miningMultiplier >= 1.0 && s.fabSpeedMultiplier >= 1.0 && s.flopsMultiplier >= 1.0
    && s.totalFlops >= 0.0 && s.flopsPerSecond >= 0.0
    && ResearchBooks(s.research)
    && NodesInOrder(s.unlockedNodes, s.currentNode, s.research.completed)
    && OfflineSound(s.offlineProgress)
  }

  // ---------------------------------------------------------------------------
  // Arithmetic and production facts the preservation proofs use
  // ---------------------------------------------------------------------------

  /** A factor of at least 1 times one above 1 is at least 1. */
  lemma CompoundsAboveOne(x: real, v: real)
    requires x >= 1.0 && v > 1.0
    ensures x * v >= 1.0
  {
    assert x * v - 1.0 == (x - 1.0) * v + (v - 1.0);
    NonNegativeProduct(x - 1.0, v);
  }

  /** The rate recomputed from the chips held is never negative. */
  lemma RecomputedRateNonNegative(s: GameState, chips: map<ChipId, Stock>)
    requires s.flopsMultiplier >= 1.0
    ensures RecomputedRate(s, chips) >= 0.0
  {
    FlopsRateShape(chips, Node(s.currentNode).efficiency);
    NonNegativeProduct(FlopsRate(chips, Node(s.currentNode).efficiency), s.flopsMultiplier);
  }

  /** At a non-negative factor, the miners of a list never produce a negative amount. */
  lemma {:induction false} YieldOverNonNegative(miners: map<AutoMinerId, MinerState>, ids: seq<AutoMinerId>, m: MineralId,
                                                factor: real)
    requires factor >= 0.0
    ensures YieldOver(miners, ids, m, factor) >= 0.0
  {
    if ids != [] {
      var id := ids[|ids| - 1];
      YieldOverNonNegative(miners, ids[..|ids| - 1], m, factor);
      MinerYieldNonNegative(miners, id, m, factor);
    }
  }

  /** One miner type's output is never negative. */
  lemma MinerOutputNonNegative(miners: map<AutoMinerId, MinerState>, id: AutoMinerId)
    ensures MinerOutput(miners, id) >= 0.0
  {
    if id in miners && miners[id].owned > 0 {
      PositiveProduct(Miner(id).ratePerSecond, miners[id].owned as real);
    }
  }

  /** At a non-negative factor one miner never produces a negative amount. */
  lemma MinerYieldNonNegative(miners: map<AutoMinerId, MinerState>, id: AutoMinerId, m: MineralId, factor: real)
    requires factor >= 0.0
    ensures MinerYield(miners, id, m, factor) >= 0.0
  {
    MinerOutputNonNegative(miners, id);
    NonNegativeProduct(MinerOutput(miners, id), factor);
  }

  /** At a non-negative factor every gain is non-negative. */
  lemma GainsNonNegative(minerals: map<MineralId, Stock>, miners: map<AutoMinerId, MinerState>, factor: real)
    requires factor >= 0.0
    ensures forall m :: m in Gains(minerals, miners, factor) ==> Gains(minerals, miners, factor)[m] >= 0.0
  {
    forall m | m in Gains(minerals, miners, factor) {
      YieldOverNonNegative(miners, AutoMinerOrder, m, factor);
    }
  }

  /** Crediting non-negative gains keeps sound stocks sound, and changes no gate. */
  lemma CreditedKeepsSound(minerals: map<MineralId, Stock>, gains: map<MineralId, real>)
    requires AllSound(minerals)
    requires forall m :: m in gains ==> gains[m] >= 0.0
    ensures AllSound(Credited(minerals, gains))
    ensures forall m :: m in minerals ==> Credited(minerals, gains)[m].unlocked == minerals[m].unlocked
  {
  }

  /** Setting gates never makes a sound map unsound. */
  lemma UnlockAllKeepsSound<K>(stocks: map<K, Stock>, ids: seq<K>)
    requires AllSound(stocks)
    ensures AllSound(UnlockAll(stocks, ids))
  {
  }

  // ---------------------------------------------------------------------------
  // The new game
  // ---------------------------------------------------------------------------

  /** `createInitialState` satisfies the invariant. */
  lemma InitialStateSatisfiesInv(now: int)
    ensures Inv(InitialState(now))
  {
    var s := InitialState(now);
    assert NodeOrder[..1] == [Nm90];
    forall n | n != Nm90
      ensures n in s.unlockedNodes <==> NodeResearch(n) in s.research.completed
    {
    }
  }

  // ---------------------------------------------------------------------------
  // Mining and crafting
  // ---------------------------------------------------------------------------

  /** Replacing the minerals by a sound map with the same keys keeps the invariant. */
  lemma WithMineralsKeepsInv(s: GameState, minerals: map<MineralId, Stock>)
    requires Inv(s) && AllSound(minerals) && minerals.Keys == s.minerals.Keys
    ensures Inv(s.(minerals := minerals))
  {
  }

  /** `mine` keeps the invariant: a tap never credits a negative amount. */
  lemma MinePreservesInv(s: GameState, m: MineralId)
    requires Inv(s)
    ensures Inv(Mine(s, m))
  {
    if m in s.minerals && s.minerals[m].unlocked {
      NonNegativeProduct(MineMineral(m, s.miningPower), s.miningMultiplier);
      WithMineralsKeepsInv(s, s.minerals[m := AddMineral(s.minerals[m], TapYield(s, m))]);
    }
  }

  /** `unlockMineral` keeps the invariant. */
  lemma UnlockMineralPreservesInv(s: GameState, m: MineralId)
    requires Inv(s)
    ensures Inv(UnlockMineral(s, m))
  {
  }

  /** An accepted `startCraftWafer` charges only what the minerals can afford, so the invariant holds. */
  lemma StartCraftWaferPreservesInv(s: GameState, w: WaferId, amount: nat, now: int)
    requires Inv(s)
    ensures Inv(StartCraftWafer(s, w, amount, now))
  {
    if s.crafting.None? && CanCraftWafer(w, s.minerals, amount) {
      DeductKeepsStocksSound(s.minerals, Wafer(w).recipe, amount);
    }
  }

  /** An accepted `startCraftChip` charges only what the stocks can afford, so the invariant holds. */
  lemma StartCraftChipPreservesInv(s: GameState, c: ChipId, amount: nat, now: int)
    requires Inv(s)
    ensures Inv(StartCraftChip(s, c, amount, now))
  {
    if s.crafting.None? && CanCraftChip(c, s.minerals, s.wafers, s.currentNode, amount) {
      CraftChipKeepsStocksSound(c, s.minerals, s.wafers, s.currentNode, amount);
    }
  }

  /** Crediting a finished wafer job and clearing it keeps the invariant. */
  lemma CreditWaferKeepsInv(s: GameState, w: WaferId, n: nat)
    requires Inv(s) && w in s.wafers
    ensures Inv(s.(wafers := s.wafers[w := AddWafer(s.wafers[w], n)], crafting := None))
  {
  }

  /** Crediting a finished chip job, recomputing the rate and clearing the job keeps the invariant. */
  lemma CreditChipKeepsInv(s: GameState, c: ChipId, n: nat)
    requires Inv(s) && c in s.chips
    ensures var chips := s.chips[c := AddChip(s.chips[c], n)];
      Inv(s.(chips := chips, flopsPerSecond := RecomputedRate(s, chips), crafting := None))
  {
    RecomputedRateNonNegative(s, s.chips[c := AddChip(s.chips[c], n)]);
  }

  /** `completeCrafting` keeps the invariant: items are credited and the recomputed rate is non-negative. */
  lemma CompleteCraftingPreservesInv(s: GameState, now: int)
    requires Inv(s)
    ensures Inv(CompleteCrafting(s, now))
  {
    match s.crafting
    case None =>
    case Some(job) =>
      if IsCraftingComplete(job, now) {
        match job.target
        case WaferItem(w) =>
          if w in s.wafers {
            CreditWaferKeepsInv(s, w, job.amount);
          }
        case ChipItem(c) =>
          if c in s.chips {
            CreditChipKeepsInv(s, c, job.amount);
          }
      }
  }

  /** `cancelCrafting` keeps the invariant. */
  lemma CancelCraftingPreservesInv(s: GameState)
    requires Inv(s)
    ensures Inv(CancelCrafting(s))
  {
  }

  // ---------------------------------------------------------------------------
  // Research
  // ---------------------------------------------------------------------------

  /** Every research has one effect, so a purchase is the payment followed by that effect. */
  lemma BuyResearchIsOneEffect(s: GameState, r: ResearchId)
    requires CanBuyResearch(s, r)
    ensures BuyResearch(s, r) == ApplyEffect(s, Paid(s, r), Research(r).effects[0])
  {
    var effects := Research(r).effects;
    assert effects[..|effects| - 1] == [];
    assert ApplyEffects(s, Paid(s, r), effects[..|effects| - 1]) == Paid(s, r);
  }

  /** Two nodes with the same research are the same node. */
  lemma NodeResearchIsInjective(a: NodeId, b: NodeId)
    requires a != Nm90 && b != Nm90 && NodeResearch(a) == NodeResearch(b)
    ensures a == b
  {
  }

  /**
   * When the invariant holds, buying a node's research satisfies `canUnlockNode`
   * for that node: the research is priced at the node's unlock cost and requires
   * the previous node's research. Node unlocks therefore follow `NODE_ORDER`.
   */
  lemma NodeResearchMeetsCanUnlockNode(s: GameState, n: NodeId)
    requires Inv(s) && n != Nm90
    requires CanBuyResearch(s, NodeResearch(n))
    ensures CanUnlockNode(n, s.totalFlops, s.unlockedNodes)
  {
    var k := |s.unlockedNodes|;
    var i := NodeIndex(n);
    assert n !in s.unlockedNodes;
    if i >= 2 {
      NodeResearchFollowsNodeOrder(n);
      var prev := NodeOrder[i - 1];
      assert NodeResearch(prev) in Research(NodeResearch(n)).prerequisites;
      assert prev != Nm90;
    } else {
      assert i == 1;
      assert s.unlockedNodes[0] == Nm90;
    }
  }

  /** The payment of a purchase keeps `totalSpent` the summed cost of a repetition-free completed list. */
  lemma PaidKeepsResearchBookkeeping(s: GameState, r: ResearchId)
    requires Inv(s) && CanBuyResearch(s, r)
    ensures ResearchBooks(Paid(s, r).research)
    ensures Paid(s, r).totalFlops >= 0.0
  {
    var c := s.research.completed + [r];
    assert c[..|c| - 1] == s.research.completed;
  }

  /**
   * Unlocking the node that `canUnlockNode` admits, while completing its
   * research, keeps the nodes in order.
   */
  lemma NextNodeKeepsNodesInOrder(unlocked: seq<NodeId>, completed: seq<ResearchId>, n: NodeId, totalFlops: real)
    requires n != Nm90 && |unlocked| >= 1
    requires NodesInOrder(unlocked, unlocked[|unlocked| - 1], completed)
    requires CanUnlockNode(n, totalFlops, unlocked)
    ensures NodesInOrder(unlocked + [n], n, completed + [NodeResearch(n)])
  {
    var k := |unlocked|;
    CanUnlockOnlyNextNode(n, totalFlops, k);
    forall n' | n' != Nm90
      ensures n' in unlocked + [n] <==> NodeResearch(n') in completed + [NodeResearch(n)]
    {
      if NodeResearch(n') == NodeResearch(n) {
        NodeResearchIsInjective(n', n);
      }
    }
  }

  /**
   * A node research keeps the invariant: the unlocked nodes become one longer
   * prefix of `NODE_ORDER`, and the newly unlocked wafers and chips stay sound.
   */
  lemma NodeEffectPreservesInv(s: GameState, n: NodeId)
    requires Inv(s) && n != Nm90
    requires CanBuyResearch(s, NodeResearch(n))
    ensures Inv(ApplyEffect(s, Paid(s, NodeResearch(n)), UnlockNode(n)))
  {
    var r := NodeResearch(n);
    var p := Paid(s, r);
    PaidKeepsResearchBookkeeping(s, r);
    NodeResearchMeetsCanUnlockNode(s, n);
    NextNodeKeepsNodesInOrder(s.unlockedNodes, s.research.completed, n, s.totalFlops);
    UnlockAllKeepsSound(p.wafers, Node(n).unlocksWafers);
    UnlockAllKeepsSound(p.chips, Node(n).unlocksChips);
  }

  /** The payment for a research that unlocks no node keeps the invariant. */
  lemma PaidKeepsInv(s: GameState, r: ResearchId)
    requires Inv(s) && CanBuyResearch(s, r)
    requires !Research(r).effects[0].UnlockNode?
    ensures Inv(Paid(s, r))
  {
    PaidKeepsResearchBookkeeping(s, r);
    forall n | n != Nm90
      ensures n in s.unlockedNodes <==> NodeResearch(n) in s.research.completed + [r]
    {
      assert NodeResearch(n) != r;
    }
  }

  /** Unlocking a mineral tier keeps the invariant. */
  lemma UnlockTierKeepsInv(p: GameState, tier: int)
    requires Inv(p)
    ensures Inv(p.(minerals := UnlockTier(p.minerals, tier)))
  {
    WithMineralsKeepsInv(p, UnlockTier(p.minerals, tier));
  }

  /** Compounding the mining multiplier by more than 1 keeps the invariant. */
  lemma MiningMultiplierKeepsInv(p: GameState, fallback: real, v: real)
    requires Inv(p) && v > 1.0
    ensures Inv(p.(miningMultiplier := OrElse(p.miningMultiplier, fallback) * v))
  {
    CompoundsAboveOne(p.miningMultiplier, v);
  }

  /** Compounding the fabrication speed multiplier by more than 1 keeps the invariant. */
  lemma FabSpeedMultiplierKeepsInv(p: GameState, fallback: real, v: real)
    requires Inv(p) && v > 1.0
    ensures Inv(p.(fabSpeedMultiplier := OrElse(p.fabSpeedMultiplier, fallback) * v))
  {
    CompoundsAboveOne(p.fabSpeedMultiplier, v);
  }

  /** Compounding the FLOPS multiplier by more than 1 and recomputing the rate keeps the invariant. */
  lemma FlopsMultiplierKeepsInv(p: GameState, fallback: real, v: real)
    requires Inv(p) && v > 1.0
    ensures var m := OrElse(p.flopsMultiplier, fallback) * v;
      Inv(p.(flopsMultiplier := m, flopsPerSecond := FlopsRate(p.chips, Node(p.currentNode).efficiency) * m))
  {
    CompoundsAboveOne(p.flopsMultiplier, v);
    RecomputedRateNonNegative(p.(flopsMultiplier := p.flopsMultiplier * v), p.chips);
  }

  /** An effect other than a node unlock keeps the invariant when its multiplier, if any, exceeds 1. */
  lemma EffectKeepsInv(orig: GameState, p: GameState, e: Effect)
    requires Inv(p) && !e.UnlockNode?
    requires e.MiningMultiplier? || e.FabSpeedMultiplier? || e.FlopsMultiplier? ==> e.value > 1.0
    ensures Inv(ApplyEffect(orig, p, e))
  {
    match e
    case UnlockMinerals(tier) =>
      UnlockTierKeepsInv(p, tier);
    case MiningMultiplier(v) =>
      MiningMultiplierKeepsInv(p, orig.miningMultiplier, v);
    case FabSpeedMultiplier(v) =>
      FabSpeedMultiplierKeepsInv(p, orig.fabSpeedMultiplier, v);
    case FlopsMultiplier(v) =>
      FlopsMultiplierKeepsInv(p, orig.flopsMultiplier, v);
    case UnlockFeature(f) =>
  }

  /** `buyResearch` keeps the invariant, whatever the effect. */
  lemma BuyResearchPreservesInv(s: GameState, r: ResearchId)
    requires Inv(s)
    ensures Inv(BuyResearch(s, r))
  {
    if CanBuyResearch(s, r) {
      BuyResearchIsOneEffect(s, r);
      var e := Research(r).effects[0];
      if e.UnlockNode? {
        OnlyNodeResearchUnlocksNodes(r, e);
        NodeEffectPreservesInv(s, e.node);
      } else {
        PaidKeepsInv(s, r);
        MultipliersExceedOne(r);
        EffectKeepsInv(s, Paid(s, r), e);
      }
    }
  }

  // ---------------------------------------------------------------------------
  // Auto-miners
  // ---------------------------------------------------------------------------

  /** Every auto-miner price is positive. */
  lemma AutoMinerCostPositive(s: GameState, id: AutoMinerId)
    ensures GetAutoMinerCost(s, id) > 0.0
  {
    PowAtLeastOne(Miner(id).costMultiplier, Owned(s, id));
    PositiveProduct(Miner(id).baseCost, Pow(Miner(id).costMultiplier, Owned(s, id)));
  }

  /** `buyAutoMiner` keeps the invariant: silicon pays no more than it holds, and its total is kept. */
  lemma BuyAutoMinerPreservesInv(s: GameState, id: AutoMinerId)
    requires Inv(s)
    ensures Inv(BuyAutoMiner(s, id))
  {
    AutoMinerCostPositive(s, id);
  }

  // ---------------------------------------------------------------------------
  // Production over time
  // ---------------------------------------------------------------------------

  /** `tick` keeps the invariant: production and FLOPS accrual only add. */
  lemma TickPreservesInv(s: GameState, now: int)
    requires Inv(s)
    ensures Inv(Tick(s, now))
  {
    var delta := SecondsSince(s, now);
    if delta >= 0.1 {
      if s.crafting.Some? && IsCraftingComplete(s.crafting.value, now) {
        CompleteCraftingPreservesInv(s, now);
      } else {
        var t := Tick(s, now);
        NonNegativeProduct(s.flopsPerSecond, delta);
        if s.autoMiningUnlocked {
          var gains := Gains(s.minerals, s.autoMiners, TickFactor(s, delta));
          NonNegativeProduct(delta, s.miningMultiplier);
          GainsNonNegative(s.minerals, s.autoMiners, TickFactor(s, delta));
          CreditedKeepsSound(s.minerals, gains);
        }
      }
    }
  }

  /** Storing a sound summary and moving the clock keeps the invariant. */
  lemma WithSummaryKeepsInv(s: GameState, p: Option<OfflineProgress>, now: int)
    requires Inv(s) && OfflineSound(p)
    ensures Inv(s.(offlineProgress := p, lastTick := now))
  {
  }

  /** The resume rule keeps the invariant: a summary of more than 60 s credits nothing negative. */
  lemma ResumePreservesInv(s: GameState, now: int)
    requires Inv(s)
    ensures Inv(Resume(s, now))
  {
    var seconds := SecondsSince(s, now);
    if s.lastTick != 0 && seconds > 60.0 {
      var p := OfflineSummary(s, seconds);
      NonNegativeProduct(seconds, OrElse(s.miningMultiplier, 1.0));
      GainsNonNegative(s.minerals, s.autoMiners, OfflineFactor(s, seconds));
      NonNegativeProduct(s.flopsPerSecond, seconds);
      var kept := if p.flops > 0.0 || |p.minerals| > 0 then Some(p) else s.offlineProgress;
      assert OfflineSound(kept);
      WithSummaryKeepsInv(s, kept, now);
      assert Resume(s, now) == s.(offlineProgress := kept, lastTick := now);
    }
  }

  /** `dismissOfflineProgress` keeps the invariant. */
  lemma DismissPreservesInv(s: GameState)
    requires Inv(s)
    ensures Inv(Dismiss(s))
  {
    if s.offlineProgress.Some? {
      CreditedKeepsSound(s.minerals, s.offlineProgress.value.minerals);
    }
  }
}
