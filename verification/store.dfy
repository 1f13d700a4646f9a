/**
 * The zustand store of src/store/gameStore.ts as an object: one field per
 * field of the game record, and one method per store action. As in the
 * source, an action computes the changed fields from the current state and
 * `set` merges them into the store; every method leaves the store in the
 * state the matching transition function of module Game describes.
 */
module GameStore {
  import opened Types
  import opened Minerals
  import opened Wafers
  import opened Nodes
  import opened Chips
  import opened ResearchTree
  import opened Automations
  import opened Resources
  import opened Fabrication
  import opened Game
  import opened GameInvariant

  class Store {
    var minerals: map<MineralId, Stock>
    var miningPower: real
    var lastTick: int
    var wafers: map<WaferId, Stock>
    var chips: map<ChipId, Stock>
    var currentNode: NodeId
    var unlockedNodes: seq<NodeId>
    var totalFlops: real
    var flopsPerSecond: real
    var crafting: Option<CraftingJob>
    var research: ResearchState
    var miningMultiplier: real
    var fabSpeedMultiplier: real
    var flopsMultiplier: real
    var autoMiners: map<AutoMinerId, MinerState>
    var autoMiningUnlocked: bool
    var offlineProgress: Option<OfflineProgress>

    /** The store's fields as a game record. */
    function Snapshot(): GameState
      reads this
    {
      GameState(minerals, miningPower, lastTick, wafers, chips, currentNode, unlockedNodes, totalFlops,
                flopsPerSecond, crafting, research, miningMultiplier, fabSpeedMultiplier, flopsMultiplier,
                autoMiners, autoMiningUnlocked, offlineProgress)
    }

    /** The store invariant: the snapshot satisfies `GameInvariant.Inv`. */
    predicate Valid()
      reads this
    {
      Inv(Snapshot())
    }

    /**
     * zustand's `set` with a complete record: every field takes its value from
     * `t` (the fields an action leaves alone are written back unchanged).
     */
    method Set(t: GameState)
      modifies this
      ensures Snapshot() == t
    {
      SetMinerals(t.minerals);
      SetMiningPower(t.miningPower);
      SetLastTick(t.lastTick);
      SetWafers(t.wafers);
      SetChips(t.chips);
      SetCurrentNode(t.currentNode);
      SetUnlockedNodes(t.unlockedNodes);
      SetTotalFlops(t.totalFlops);
      SetFlopsPerSecond(t.flopsPerSecond);
      SetCrafting(t.crafting);
      SetResearch(t.research);
      SetMiningMultiplier(t.miningMultiplier);
      SetFabSpeedMultiplier(t.fabSpeedMultiplier);
      SetFlopsMultiplier(t.flopsMultiplier);
      SetAutoMiners(t.autoMiners);
      SetAutoMiningUnlocked(t.autoMiningUnlocked);
      SetOfflineProgress(t.offlineProgress);
    }

    /** Sets `minerals`, leaving every other field as it was. */
    method SetMinerals(v: map<MineralId, Stock>)
      modifies this
      ensures Snapshot() == old(Snapshot()).(minerals := v)
    {
      minerals := v;
    }

    /** Sets `miningPower`, leaving every other field as it was. */
    method SetMiningPower(v: real)
      modifies this
      ensures Snapshot() == old(Snapshot()).(miningPower := v)
    {
      miningPower := v;
    }

    /** Sets `lastTick`, leaving every other field as it was. */
    method SetLastTick(v: int)
      modifies this
      ensures Snapshot() == old(Snapshot()).(lastTick := v)
    {
      lastTick := v;
    }

    /** Sets `wafers`, leaving every other field as it was. */
    method SetWafers(v: map<WaferId, Stock>)
      modifies this
      ensures Snapshot() == old(Snapshot()).(wafers := v)
    {
      wafers := v;
    }

    /** Sets `chips`, leaving every other field as it was. */
    method SetChips(v: map<ChipId, Stock>)
      modifies this
      ensures Snapshot() == old(Snapshot()).(chips := v)
    {
      chips := v;
    }

    /** Sets `currentNode`, leaving every other field as it was. */
    method SetCurrentNode(v: NodeId)
      modifies this
      ensures Snapshot() == old(Snapshot()).(currentNode := v)
    {
      currentNode := v;
    }

    /** Sets `unlockedNodes`, leaving every other field as it was. */
    method SetUnlockedNodes(v: seq<NodeId>)
      modifies this
      ensures Snapshot() == old(Snapshot()).(unlockedNodes := v)
    {
      unlockedNodes := v;
    }

    /** Sets `totalFlops`, leaving every other field as it was. */
    method SetTotalFlops(v: real)
      modifies this
      ensures Snapshot() == old(Snapshot()).(totalFlops := v)
    {
      totalFlops := v;
    }

    /** Sets `flopsPerSecond`, leaving every other field as it was. */
    method SetFlopsPerSecond(v: real)
      modifies this
      ensures Snapshot() == old(Snapshot()).(flopsPerSecond := v)
    {
      flopsPerSecond := v;
    }

    /** Sets `crafting`, leaving every other field as it was. */
    method SetCrafting(v: Option<CraftingJob>)
      modifies this
      ensures Snapshot() == old(Snapshot()).(crafting := v)
    {
      crafting := v;
    }

    /** Sets `research`, leaving every other field as it was. */
    method SetResearch(v: ResearchState)
      modifies this
      ensures Snapshot() == old(Snapshot()).(research := v)
    {
      research := v;
    }

    /** Sets `miningMultiplier`, leaving every other field as it was. */
    method SetMiningMultiplier(v: real)
      modifies this
      ensures Snapshot() == old(Snapshot()).(miningMultiplier := v)
    {
      miningMultiplier := v;
    }

    /** Sets `fabSpeedMultiplier`, leaving every other field as it was. */
    method SetFabSpeedMultiplier(v: real)
      modifies this
      ensures Snapshot() == old(Snapshot()).(fabSpeedMultiplier := v)
    {
      fabSpeedMultiplier := v;
    }

    /** Sets `flopsMultiplier`, leaving every other field as it was. */
    method SetFlopsMultiplier(v: real)
      modifies this
      ensures Snapshot() == old(Snapshot()).(flopsMultiplier := v)
    {
      flopsMultiplier := v;
    }

    /** Sets `autoMiners`, leaving every other field as it was. */
    method SetAutoMiners(v: map<AutoMinerId, MinerState>)
      modifies this
      ensures Snapshot() == old(Snapshot()).(autoMiners := v)
    {
      autoMiners := v;
    }

    /** Sets `autoMiningUnlocked`, leaving every other field as it was. */
    method SetAutoMiningUnlocked(v: bool)
      modifies this
      ensures Snapshot() == old(Snapshot()).(autoMiningUnlocked := v)
    {
      autoMiningUnlocked := v;
    }

    /** Sets `offlineProgress`, leaving every other field as it was. */
    method SetOfflineProgress(v: Option<OfflineProgress>)
      modifies this
      ensures Snapshot() == old(Snapshot()).(offlineProgress := v)
    {
      offlineProgress := v;
    }

    /** The store created at `now` holds `createInitialState()`. */
    constructor(now: int)
      ensures Snapshot() == InitialState(now)
      ensures Valid()
    {
      var s := InitialState(now);
      minerals, miningPower, lastTick := s.minerals, s.miningPower, s.lastTick;
      wafers, chips := s.wafers, s.chips;
      currentNode, unlockedNodes := s.currentNode, s.unlockedNodes;
      totalFlops, flopsPerSecond := s.totalFlops, s.flopsPerSecond;
      crafting, research := s.crafting, s.research;
      miningMultiplier, fabSpeedMultiplier, flopsMultiplier := s.miningMultiplier, s.fabSpeedMultiplier, s.flopsMultiplier;
      autoMiners, autoMiningUnlocked := s.autoMiners, s.autoMiningUnlocked;
      offlineProgress := s.offlineProgress;
      InitialStateSatisfiesInv(now);
    }

    /** `reset()`: back to `createInitialState()` at `now`. */
    method Reset(now: int)
      modifies this
      ensures Snapshot() == InitialState(now)
      ensures Valid()
    {
      Set(InitialState(now));
      InitialStateSatisfiesInv(now);
    }

    /** `mine(m)`: a tap on an unlocked mineral credits `mineMineral(m, miningPower) × miningMultiplier`. */
    method Mine(m: MineralId)
      requires Valid()
      modifies this
      ensures Snapshot() == Game.Mine(old(Snapshot()), m)
      ensures Valid()
    {
      var s := Snapshot();
      if m !in s.minerals || !s.minerals[m].unlocked {
        return;
      }
      Set(s.(minerals := s.minerals[m := AddMineral(s.minerals[m], TapYield(s, m))]));
      assert Valid() by {
        MinePreservesInv(s, m);
      }
    }

    /** `unlockMineral(m)`: sets the gate of a present mineral. */
    method UnlockMineral(m: MineralId)
      requires Valid()
      modifies this
      ensures Snapshot() == Game.UnlockMineral(old(Snapshot()), m)
      ensures Valid()
    {
      var s := Snapshot();
      if m !in s.minerals {
        return;
      }
      Set(s.(minerals := s.minerals[m := s.minerals[m].(unlocked := true)]));
      assert Valid() by {
        UnlockMineralPreservesInv(s, m);
      }
    }

    /** `startCraftWafer(w, amount)` at `now`: refused while a job runs or the recipe is unaffordable. */
    method StartCraftWafer(w: WaferId, amount: nat, now: int)
      requires Valid()
      modifies this
      ensures Snapshot() == Game.StartCraftWafer(old(Snapshot()), w, amount, now)
      ensures Valid()
    {
      var s := Snapshot();
      if s.crafting.Some? || !CanCraftWafer(w, s.minerals, amount) {
        return;
      }
      var newMinerals := DeductWaferCosts(w, s.minerals, amount);
      var duration := CraftDuration(Wafer(w).craftTime, amount, s.fabSpeedMultiplier);
      Set(s.(minerals := newMinerals, crafting := Some(CraftingJob(WaferItem(w), now, duration, amount))));
      assert Valid() by {
        StartCraftWaferPreservesInv(s, w, amount, now);
      }
    }

    /** `startCraftChip(c, amount)` at `now`: refused while a job runs or the chip cannot be crafted. */
    method StartCraftChip(c: ChipId, amount: nat, now: int)
      requires Valid()
      modifies this
      ensures Snapshot() == Game.StartCraftChip(old(Snapshot()), c, amount, now)
      ensures Valid()
    {
      var s := Snapshot();
      if s.crafting.Some? || !CanCraftChip(c, s.minerals, s.wafers, s.currentNode, amount) {
        return;
      }
      var newMinerals, newWafers := DeductChipCosts(c, s.minerals, s.wafers, amount);
      var duration := CraftDuration(Chip(c).craftTime, amount, s.fabSpeedMultiplier);
      Set(s.(minerals := newMinerals, wafers := newWafers, crafting := Some(CraftingJob(ChipItem(c), now, duration, amount))));
      assert Valid() by {
        StartCraftChipPreservesInv(s, c, amount, now);
      }
    }

    /** `completeCrafting()` at `now`: credits a finished job and clears it; a chip job recomputes the FLOPS rate. */
    method CompleteCrafting(now: int)
      requires Valid()
      modifies this
      ensures Snapshot() == Game.CompleteCrafting(old(Snapshot()), now)
      ensures Valid()
    {
      var s := Snapshot();
      if s.crafting.None? || !IsCraftingComplete(s.crafting.value, now) {
        return;
      }
      var t := FinishJob(s, now);
      Set(t);
      assert Valid() by {
        CompleteCraftingPreservesInv(s, now);
      }
    }

    /** `cancelCrafting()`: drops the job. */
    method CancelCrafting()
      requires Valid()
      modifies this
      ensures Snapshot() == Game.CancelCrafting(old(Snapshot()))
      ensures Valid()
    {
      var s := Snapshot();
      Set(s.(crafting := None));
      assert Valid() by {
        CancelCraftingPreservesInv(s);
      }
    }

    /** `canBuyResearch(r)` on the current state. */
    predicate CanBuyResearch(r: ResearchId)
      reads this
    {
      Game.CanBuyResearch(Snapshot(), r)
    }

    /** `buyResearch(r)`: refused unless `canBuyResearch(r)`; otherwise pay, then fold the effects into the new state. */
    method BuyResearch(r: ResearchId)
      requires Valid()
      modifies this
      ensures Snapshot() == Game.BuyResearch(old(Snapshot()), r)
      ensures Valid()
    {
      var s := Snapshot();
      if !CanBuyResearch(r) {
        return;
      }
      var def := Research(r);
      var paid := s.(totalFlops := s.totalFlops - def.cost,
                     research := ResearchState(s.research.completed + [r], s.research.totalSpent + def.cost));
      assert paid == Paid(s, r);
      var draft := FoldEffects(s, paid, def.effects);
      assert draft == Game.BuyResearch(s, r);
      Set(draft);
      assert Valid() by {
        BuyResearchPreservesInv(s, r);
      }
    }

    /** `getAutoMinerCost(id)`: the price of the next unit, never below the base cost. */
    function GetAutoMinerCost(id: AutoMinerId): (c: real)
      reads this
      ensures c >= Miner(id).baseCost
    {
      PowAtLeastOne(Miner(id).costMultiplier, Owned(Snapshot(), id));
      NonNegativeProduct(Miner(id).baseCost, Pow(Miner(id).costMultiplier, Owned(Snapshot(), id)) - 1.0);
      Game.GetAutoMinerCost(Snapshot(), id)
    }

    /** `canBuyAutoMiner(id)` on the current state. */
    predicate CanBuyAutoMiner(id: AutoMinerId)
      reads this
    {
      Game.CanBuyAutoMiner(Snapshot(), id)
    }

    /** `buyAutoMiner(id)`: pay in silicon, own one more, and unlock the next tier at ten owned. */
    method BuyAutoMiner(id: AutoMinerId)
      requires Valid()
      modifies this
      ensures Snapshot() == Game.BuyAutoMiner(old(Snapshot()), id)
      ensures Valid()
    {
      var s := Snapshot();
      if !CanBuyAutoMiner(id) {
        return;
      }
      var cost := GetAutoMinerCost(id);
      var silicon := s.minerals[Silicon].(amount := s.minerals[Silicon].amount - cost);
      var bought := s.autoMiners[id].(owned := s.autoMiners[id].owned + 1);
      var newMiners := s.autoMiners[id := bought];
      match NextTier(id) {
        case Some(next) =>
          if bought.owned >= 10 && next in newMiners && !newMiners[next].unlocked {
            newMiners := newMiners[next := newMiners[next].(unlocked := true)];
          }
        case None =>
      }
      Set(s.(minerals := s.minerals[Silicon := silicon], autoMiners := newMiners));
      assert Valid() by {
        BuyAutoMinerPreservesInv(s, id);
      }
    }

    /** `dismissOfflineProgress()`: credit the pending summary and clear it. */
    method DismissOfflineProgress()
      requires Valid()
      modifies this
      ensures Snapshot() == Dismiss(old(Snapshot()))
      ensures Valid()
    {
      var s := Snapshot();
      if s.offlineProgress.None? {
        return;
      }
      var p := s.offlineProgress.value;
      var newMinerals := CreditOffline(s.minerals, p.minerals);
      Set(s.(minerals := newMinerals, totalFlops := s.totalFlops + p.flops, offlineProgress := None));
      assert Valid() by {
        DismissPreservesInv(s);
      }
    }

    /** `tick()` at `now`: a finished job is completed; otherwise the miners produce and FLOPS accrue. */
    method Tick(now: int)
      requires Valid()
      modifies this
      ensures Snapshot() == Game.Tick(old(Snapshot()), now)
      ensures Valid()
    {
      var s := Snapshot();
      var delta := SecondsSince(s, now);
      if delta < 0.1 {
        return;
      }
      if s.crafting.Some? && IsCraftingComplete(s.crafting.value, now) {
        CompleteCrafting(now);
        return;
      }
      var newMinerals := s.minerals;
      if s.autoMiningUnlocked {
        newMinerals := AutoMine(s.minerals, s.autoMiners, TickFactor(s, delta));
      }
      Set(s.(lastTick := now, minerals := newMinerals, totalFlops := s.totalFlops + FlopsEarned(s, delta)));
      assert Valid() by {
        TickPreservesInv(s, now);
      }
    }

    /** The resume rule of the persisted store's `getItem`, applied when the save is loaded at `now`. */
    method Resume(now: int)
      requires Valid()
      modifies this
      ensures Snapshot() == Game.Resume(old(Snapshot()), now)
      ensures Valid()
    {
      var s := Snapshot();
      if s.lastTick == 0 {
        return;
      }
      var seconds := SecondsSince(s, now);
      if seconds <= 60.0 {
        return;
      }
      var progress := CalculateOfflineProgress(s, seconds);
      if progress.flops > 0.0 || |progress.minerals| > 0 {
        Set(s.(offlineProgress := Some(progress), lastTick := now));
        assert Valid() by {
          ResumePreservesInv(s, now);
        }
      } else {
        Set(s.(lastTick := now));
        assert Valid() by {
          ResumePreservesInv(s, now);
        }
      }
    }
  }

  /**
   * The record `completeCrafting` builds for a finished job: the items credited
   * (a missing entry only clears the job), the job cleared, and for chips the
   * FLOPS rate recomputed at the current node times the FLOPS multiplier.
   */
  method FinishJob(s: GameState, now: int) returns (t: GameState)
    requires s.crafting.Some? && IsCraftingComplete(s.crafting.value, now)
    ensures t == Game.CompleteCrafting(s, now)
  {
    var job := s.crafting.value;
    t := s.(crafting := None);
    match job.target {
      case WaferItem(w) =>
        if w in s.wafers {
          t := t.(wafers := s.wafers[w := AddWafer(s.wafers[w], job.amount)]);
        }
      case ChipItem(c) =>
        if c in s.chips {
          var newChips := s.chips[c := AddChip(s.chips[c], job.amount)];
          var base := CalculateFlopsPerSecond(newChips, Node(s.currentNode).efficiency);
          t := t.(chips := newChips, flopsPerSecond := base * s.flopsMultiplier);
          assert base * s.flopsMultiplier == RecomputedRate(s, newChips);
        }
    }
  }

  /** The effect loop of `buyResearch`: the effects folded in order into the paid draft. */
  method FoldEffects(orig: GameState, paid: GameState, effects: seq<Effect>) returns (draft: GameState)
    ensures draft == ApplyEffects(orig, paid, effects)
  {
    draft := paid;
    for i := 0 to |effects|
      invariant draft == ApplyEffects(orig, paid, effects[..i])
    {
      assert effects[..i + 1][..i] == effects[..i];
      draft := ApplyResearchEffect(orig, draft, effects[i]);
    }
    assert effects[..|effects|] == effects;
  }

  /**
   * One research effect folded into the draft `draft` of `buyResearch`, where
   * `orig` is the state the purchase started from (the switch of the effect loop).
   */
  method ApplyResearchEffect(orig: GameState, draft: GameState, e: Effect) returns (next: GameState)
    ensures next == Game.ApplyEffect(orig, draft, e)
  {
    match e
    case UnlockNode(n) =>
      next := draft;
      if n !in orig.unlockedNodes {
        var newWafers := UnlockListed(draft.wafers, Node(n).unlocksWafers);
        var newChips := UnlockListed(draft.chips, Node(n).unlocksChips);
        next := draft.(unlockedNodes := orig.unlockedNodes + [n], currentNode := n, wafers := newWafers, chips := newChips);
      }
    case UnlockMinerals(tier) =>
      var newMinerals := UnlockMineralTier(draft.minerals, tier);
      next := draft.(minerals := newMinerals);
    case MiningMultiplier(v) =>
      next := draft.(miningMultiplier := OrElse(draft.miningMultiplier, orig.miningMultiplier) * v);
    case FabSpeedMultiplier(v) =>
      next := draft.(fabSpeedMultiplier := OrElse(draft.fabSpeedMultiplier, orig.fabSpeedMultiplier) * v);
    case FlopsMultiplier(v) =>
      var m := OrElse(draft.flopsMultiplier, orig.flopsMultiplier) * v;
      var base := CalculateFlopsPerSecond(draft.chips, Node(draft.currentNode).efficiency);
      next := draft.(flopsMultiplier := m, flopsPerSecond := base * m);
    case UnlockFeature(f) =>
      next := if f == "auto_miner" then draft.(autoMiningUnlocked := true) else draft;
  }
}
