/**
 * The game record of src/store/gameStore.ts as a value, and each store action
 * as a transition function on it. The loops of the store (auto-mining in
 * `tick`, `calculateOfflineProgress`, `dismissOfflineProgress`, the unlock
 * loops of the research effects) are methods proved against these functions.
 */
module Game {
  import opened Types
  import opened Minerals
  import opened Wafers
  import opened Nodes
  import opened Chips
  import opened ResearchTree
  import opened Automations
  import opened Resources
  import opened Fabrication

  /** The persisted part of `FullGameState` (`activeTab` aside); `lastTick` is in milliseconds. */
  datatype GameState = GameState(
    minerals: map<MineralId, Stock>,
    miningPower: real,
    lastTick: int,
    wafers: map<WaferId, Stock>,
    chips: map<ChipId, Stock>,
    currentNode: NodeId,
    unlockedNodes: seq<NodeId>,
    totalFlops: real,
    flopsPerSecond: real,
    crafting: Option<CraftingJob>,
    research: ResearchState,
    miningMultiplier: real,
    fabSpeedMultiplier: real,
    flopsMultiplier: real,
    autoMiners: map<AutoMinerId, MinerState>,
    autoMiningUnlocked: bool,
    offlineProgress: Option<OfflineProgress>)

  /** JavaScript's `x || fallback` on a number (NaN aside): the fallback replaces 0. */
  function OrElse(x: real, fallback: real): (r: real)
    ensures x != 0.0 ==> r == x
    ensures x == 0.0 ==> r == fallback
  {
    if x == 0.0 then fallback else x
  }

  // ---------------------------------------------------------------------------
  // Initial state
  // ---------------------------------------------------------------------------

  /**
   * `createInitialState()` at time `now`: every item present and empty; the
   * tier-1 minerals, the basic wafer, the starter chips and the first drill
   * unlocked; 90nm current; all multipliers and the mining power 1.
   */
  function InitialState(now: int): (s: GameState)
    ensures forall m: MineralId :: m in s.minerals && s.minerals[m] == Stock(0.0, 0.0, m in Tier1Minerals)
    ensures forall w: WaferId :: w in s.wafers && s.wafers[w] == Stock(0.0, 0.0, w == BasicWafer)
    ensures forall c: ChipId :: c in s.chips && s.chips[c] == Stock(0.0, 0.0, c in StarterChips)
    ensures forall a: AutoMinerId :: a in s.autoMiners && s.autoMiners[a] == MinerState(0, a == Drill1)
    ensures s.miningPower == 1.0 && s.totalFlops == 0.0 && s.flopsPerSecond == 0.0
    ensures s.miningMultiplier == 1.0 && s.fabSpeedMultiplier == 1.0 && s.flopsMultiplier == 1.0
    ensures s.research == ResearchState([], 0.0)
    ensures s.unlockedNodes == [Nm90] && s.currentNode == Nm90 && s.lastTick == now
    ensures s.crafting == None && s.offlineProgress == None && !s.autoMiningUnlocked
  {
    MineralOrderListsAll();
    WaferOrderIsComplete();
    ChipOrderIsComplete();
    AutoMinerOrderIsComplete();
    GameState(
      minerals := map m | m in MineralOrder :: CreateMineralState(m in Tier1Minerals),
      miningPower := 1.0,
      lastTick := now,
      wafers := map w | w in WaferOrder :: CreateWaferState(w == BasicWafer),
      chips := map c | c in ChipOrder :: CreateChipState(c in StarterChips),
      currentNode := Nm90,
      unlockedNodes := [Nm90],
      totalFlops := 0.0,
      flopsPerSecond := 0.0,
      crafting := None,
      research := ResearchState([], 0.0),
      miningMultiplier := 1.0,
      fabSpeedMultiplier := 1.0,
      flopsMultiplier := 1.0,
      autoMiners := map a | a in AutoMinerOrder :: MinerState(0, a == Drill1),
      autoMiningUnlocked := false,
      offlineProgress := None)
  }

  // ---------------------------------------------------------------------------
  // Mining and crafting
  // ---------------------------------------------------------------------------

  /** What one tap on mineral `m` credits: `mineMineral(m, miningPower) × miningMultiplier`. */
  function TapYield(s: GameState, m: MineralId): real
  {
    MineMineral(m, s.miningPower) * s.miningMultiplier
  }

  /** `mine(m)`: a locked or missing mineral is left alone; otherwise one tap is credited to it. */
  function Mine(s: GameState, m: MineralId): GameState
  {
    if m !in s.minerals || !s.minerals[m].unlocked then s
    else s.(minerals := s.minerals[m := AddMineral(s.minerals[m], TapYield(s, m))])
  }

  /** `unlockMineral(m)`: sets the gate of a present mineral. */
  function UnlockMineral(s: GameState, m: MineralId): GameState
  {
    if m !in s.minerals then s
    else s.(minerals := s.minerals[m := s.minerals[m].(unlocked := true)])
  }

  /** A craft of `amount` items taking `craftTime × amount / fabSpeedMultiplier` ms. */
  function CraftDuration(craftTime: nat, amount: nat, fabSpeedMultiplier: real): real
    requires fabSpeedMultiplier > 0.0
  {
    (craftTime * amount) as real / fabSpeedMultiplier
  }

  /**
   * `startCraftWafer(w, amount)` at `now`: refused while a job runs or the recipe
   * is unaffordable; otherwise the recipe is charged up front and the job starts.
   */
  function StartCraftWafer(s: GameState, w: WaferId, amount: nat, now: int): GameState
    requires s.fabSpeedMultiplier > 0.0
  {
    if s.crafting.Some? || !CanCraftWafer(w, s.minerals, amount) then s
    else s.(minerals := Deduct(s.minerals, Wafer(w).recipe, amount),
            crafting := Some(CraftingJob(WaferItem(w), now, CraftDuration(Wafer(w).craftTime, amount, s.fabSpeedMultiplier), amount)))
  }

  /**
   * `startCraftChip(c, amount)` at `now`: refused while a job runs or the chip
   * cannot be crafted; otherwise wafers and extra minerals are charged up front.
   */
  function StartCraftChip(s: GameState, c: ChipId, amount: nat, now: int): GameState
    requires s.fabSpeedMultiplier > 0.0
  {
    if s.crafting.Some? || !CanCraftChip(c, s.minerals, s.wafers, s.currentNode, amount) then s
    else s.(minerals := Deduct(s.minerals, Chip(c).extraCosts, amount),
            wafers := Deduct(s.wafers, WaferCharge(c), amount),
            crafting := Some(CraftingJob(ChipItem(c), now, CraftDuration(Chip(c).craftTime, amount, s.fabSpeedMultiplier), amount)))
  }

  /** The FLOPS rate of a chip inventory at the current node, times the FLOPS multiplier. */
  function RecomputedRate(s: GameState, chips: map<ChipId, Stock>): real
  {
    FlopsRate(chips, Node(s.currentNode).efficiency) * s.flopsMultiplier
  }

  /**
   * `completeCrafting()` at `now`: nothing unless a job exists and is finished;
   * then the items are credited (a missing entry only clears the job), the job
   * is cleared, and a chip job recomputes `flopsPerSecond`.
   */
  function CompleteCrafting(s: GameState, now: int): GameState
  {
    match s.crafting
    case None => s
    case Some(job) =>
      if !IsCraftingComplete(job, now) then s
      else match job.target
        case WaferItem(w) =>
          if w !in s.wafers then s.(crafting := None)
          else s.(wafers := s.wafers[w := AddWafer(s.wafers[w], job.amount)], crafting := None)
        case ChipItem(c) =>
          if c !in s.chips then s.(crafting := None)
          else
            var chips := s.chips[c := AddChip(s.chips[c], job.amount)];
            s.(chips := chips, flopsPerSecond := RecomputedRate(s, chips), crafting := None)
  }

  /** `cancelCrafting()`: drops the job; what it charged stays spent. */
  function CancelCrafting(s: GameState): GameState
  {
    s.(crafting := None)
  }

  // ---------------------------------------------------------------------------
  // Research
  // ---------------------------------------------------------------------------

  /** `canBuyResearch(r)`: not yet completed, every prerequisite completed, and the FLOPS to pay. */
  predicate CanBuyResearch(s: GameState, r: ResearchId)
  {
    && r !in s.research.completed
    && (forall p :: p in Research(r).prerequisites ==> p in s.research.completed)
    && s.totalFlops >= Research(r).cost
  }

  /** The payment part of `buyResearch(r)`: FLOPS spent, `r` completed, the spend recorded. */
  function Paid(s: GameState, r: ResearchId): GameState
  {
    s.(totalFlops := s.totalFlops - Research(r).cost,
       research := ResearchState(s.research.completed + [r], s.research.totalSpent + Research(r).cost))
  }

  /** Sets the gate of every present entry listed in `ids`. */
  function UnlockAll<K>(stocks: map<K, Stock>, ids: seq<K>): (r: map<K, Stock>)
    ensures r.Keys == stocks.Keys
    ensures forall k :: k in r ==> r[k] == stocks[k].(unlocked := stocks[k].unlocked || k in ids)
  {
    map k | k in stocks :: if k in ids then stocks[k].(unlocked := true) else stocks[k]
  }

  /** Sets the gate of every present mineral of tier `tier`. */
  function UnlockTier(minerals: map<MineralId, Stock>, tier: int): (r: map<MineralId, Stock>)
    ensures r.Keys == minerals.Keys
    ensures forall m :: m in r ==> r[m] == minerals[m].(unlocked := minerals[m].unlocked || MineralTier(m) == tier)
  {
    map m | m in minerals :: if MineralTier(m) == tier then minerals[m].(unlocked := true) else minerals[m]
  }

  /**
   * One research effect applied to the draft `draft` of `buyResearch`, where
   * `orig` is the state the purchase started from (an `unlock_node` tests and
   * extends the original unlocked list; everything else reads the draft).
   */
  function ApplyEffect(orig: GameState, draft: GameState, e: Effect): GameState
  {
    match e
    case UnlockNode(n) =>
      if n in orig.unlockedNodes then draft
      else draft.(unlockedNodes := orig.unlockedNodes + [n],
                  currentNode := n,
                  wafers := UnlockAll(draft.wafers, Node(n).unlocksWafers),
                  chips := UnlockAll(draft.chips, Node(n).unlocksChips))
    case UnlockMinerals(t) =>
      draft.(minerals := UnlockTier(draft.minerals, t))
    case MiningMultiplier(v) =>
      draft.(miningMultiplier := OrElse(draft.miningMultiplier, orig.miningMultiplier) * v)
    case FabSpeedMultiplier(v) =>
      draft.(fabSpeedMultiplier := OrElse(draft.fabSpeedMultiplier, orig.fabSpeedMultiplier) * v)
    case FlopsMultiplier(v) =>
      var m := OrElse(draft.flopsMultiplier, orig.flopsMultiplier) * v;
      draft.(flopsMultiplier := m, flopsPerSecond := FlopsRate(draft.chips, Node(draft.currentNode).efficiency) * m)
    case UnlockFeature(f) =>
      if f == "auto_miner" then draft.(autoMiningUnlocked := true) else draft
  }

  /** The effects applied in order, the last one outermost. */
  function ApplyEffects(orig: GameState, draft: GameState, effects: seq<Effect>): GameState
  {
    if effects == [] then draft
    else ApplyEffect(orig, ApplyEffects(orig, draft, effects[..|effects| - 1]), effects[|effects| - 1])
  }

  /** `buyResearch(r)`: nothing unless `canBuyResearch(r)`; otherwise pay, then fold the effects. */
  function BuyResearch(s: GameState, r: ResearchId): GameState
  {
    if !CanBuyResearch(s, r) then s
    else ApplyEffects(s, Paid(s, r), Research(r).effects)
  }

  // ---------------------------------------------------------------------------
  // Auto-miners
  // ---------------------------------------------------------------------------

  /** How many of a miner are owned (`?? 0` for a missing entry). */
  function Owned(s: GameState, id: AutoMinerId): nat
  {
    if id in s.autoMiners then s.autoMiners[id].owned else 0
  }

  /** `getAutoMinerCost(id)` on the store: the price of the next unit. */
  function GetAutoMinerCost(s: GameState, id: AutoMinerId): real
  {
    AutoMinerCost(Miner(id), Owned(s, id))
  }

  /** `canBuyAutoMiner(id)`: automation researched, the miner unlocked, and the silicon to pay. */
  predicate CanBuyAutoMiner(s: GameState, id: AutoMinerId)
  {
    && s.autoMiningUnlocked
    && id in s.autoMiners && s.autoMiners[id].unlocked
    && Silicon in s.minerals
    && s.minerals[Silicon].amount >= GetAutoMinerCost(s, id)
  }

  /** The tier after `id` in `AUTO_MINER_ORDER`, if any. */
  function NextTier(id: AutoMinerId): Option<AutoMinerId>
  {
    var i := AutoMinerIndex(id);
    if i < |AutoMinerOrder| - 1 then Some(AutoMinerOrder[i + 1]) else None
  }

  /**
   * `buyAutoMiner(id)`: nothing unless `canBuyAutoMiner(id)`; otherwise the price
   * leaves silicon's `amount` (not its `total`), one more unit is owned, and the
   * next tier is unlocked once ten or more are owned.
   */
  function BuyAutoMiner(s: GameState, id: AutoMinerId): GameState
  {
    if !CanBuyAutoMiner(s, id) then s
    else
      var silicon := s.minerals[Silicon];
      var bought := s.autoMiners[id].(owned := s.autoMiners[id].owned + 1);
      var miners := s.autoMiners[id := bought];
      var miners' :=
        match NextTier(id)
        case Some(next) =>
          if bought.owned >= 10 && next in miners && !miners[next].unlocked
          then miners[next := miners[next].(unlocked := true)]
          else miners
        case None => miners;
      s.(minerals := s.minerals[Silicon := silicon.(amount := silicon.amount - GetAutoMinerCost(s, id))],
         autoMiners := miners')
  }

  // ---------------------------------------------------------------------------
  // Production over time
  // ---------------------------------------------------------------------------

  /** The per-second output of one miner type: `ratePerSecond × owned` (0 when none is owned). */
  function MinerOutput(miners: map<AutoMinerId, MinerState>, id: AutoMinerId): real
  {
    if id in miners && miners[id].owned > 0 then Miner(id).ratePerSecond * miners[id].owned as real else 0.0
  }

  /** Whether miner `id` is owned and targets mineral `m`. */
  predicate Feeds(miners: map<AutoMinerId, MinerState>, id: AutoMinerId, m: MineralId)
  {
    id in miners && miners[id].owned > 0 && m in Miner(id).targets
  }

  /** What miner `id` produces of mineral `m` in `factor` (seconds × multiplier). */
  function MinerYield(miners: map<AutoMinerId, MinerState>, id: AutoMinerId, m: MineralId, factor: real): real
  {
    if Feeds(miners, id, m) then MinerOutput(miners, id) * factor else 0.0
  }

  /** Whether some miner among `ids` feeds mineral `m`. */
  predicate FedOver(miners: map<AutoMinerId, MinerState>, ids: seq<AutoMinerId>, m: MineralId)
  {
    if ids == [] then false
    else FedOver(miners, ids[..|ids| - 1], m) || Feeds(miners, ids[|ids| - 1], m)
  }

  /** What the miners among `ids` produce of mineral `m` in `factor`. */
  function YieldOver(miners: map<AutoMinerId, MinerState>, ids: seq<AutoMinerId>, m: MineralId, factor: real): real
  {
    if ids == [] then 0.0
    else YieldOver(miners, ids[..|ids| - 1], m, factor) + MinerYield(miners, ids[|ids| - 1], m, factor)
  }

  /** The gains of the miners among `ids`: one entry per unlocked mineral some of them feed. */
  function GainsOver(minerals: map<MineralId, Stock>, miners: map<AutoMinerId, MinerState>, ids: seq<AutoMinerId>,
                     factor: real): map<MineralId, real>
  {
    map m | m in minerals && minerals[m].unlocked && FedOver(miners, ids, m) :: YieldOver(miners, ids, m, factor)
  }

  /** The gains of all miners. */
  function Gains(minerals: map<MineralId, Stock>, miners: map<AutoMinerId, MinerState>, factor: real): map<MineralId, real>
  {
    GainsOver(minerals, miners, AutoMinerOrder, factor)
  }

  /** Each gain credited to the amount and total of its mineral, when present. */
  function Credited(minerals: map<MineralId, Stock>, gains: map<MineralId, real>): (r: map<MineralId, Stock>)
    ensures r.Keys == minerals.Keys
  {
    map m | m in minerals :: if m in gains then AddMineral(minerals[m], gains[m]) else minerals[m]
  }

  /** The elapsed seconds from `lastTick` to `now`. */
  function SecondsSince(s: GameState, now: int): real
  {
    (now - s.lastTick) as real / 1000.0
  }

  /** The factor live production is scaled by: `delta × miningMultiplier`. */
  function TickFactor(s: GameState, delta: real): real
  {
    delta * s.miningMultiplier
  }

  /** The FLOPS earned in `seconds` at the current rate. */
  function FlopsEarned(s: GameState, seconds: real): real
  {
    s.flopsPerSecond * seconds
  }

  /**
   * `tick()` at `now`: nothing when under 0.1 s has passed; only
   * `completeCrafting` when the job has finished; otherwise the auto-miners
   * produce (once researched), FLOPS accrue, and `lastTick` moves to `now`.
   */
  function Tick(s: GameState, now: int): GameState
  {
    var delta := SecondsSince(s, now);
    if delta < 0.1 then s
    else if s.crafting.Some? && IsCraftingComplete(s.crafting.value, now) then CompleteCrafting(s, now)
    else s.(lastTick := now,
            minerals := if s.autoMiningUnlocked then Credited(s.minerals, Gains(s.minerals, s.autoMiners, TickFactor(s, delta)))
                        else s.minerals,
            totalFlops := s.totalFlops + FlopsEarned(s, delta))
  }

  /** The factor offline production is scaled by: `seconds × (miningMultiplier || 1)`. */
  function OfflineFactor(s: GameState, seconds: real): real
  {
    seconds * OrElse(s.miningMultiplier, 1.0)
  }

  /** `calculateOfflineProgress(state, seconds)`: what `seconds` of production would have brought. */
  function OfflineSummary(s: GameState, seconds: real): OfflineProgress
  {
    var gains := if s.autoMiningUnlocked then Gains(s.minerals, s.autoMiners, OfflineFactor(s, seconds)) else map[];
    OfflineProgress(gains, FlopsEarned(s, seconds), seconds)
  }

  /**
   * The resume rule of the persisted store's `getItem` at `now`: after more than
   * 60 s away (and a non-zero `lastTick`) a non-empty summary replaces the pending
   * one, and `lastTick` moves to `now`.
   */
  function Resume(s: GameState, now: int): GameState
  {
    if s.lastTick == 0 then s
    else
      var seconds := SecondsSince(s, now);
      if seconds <= 60.0 then s
      else
        var p := OfflineSummary(s, seconds);
        s.(offlineProgress := if p.flops > 0.0 || |p.minerals| > 0 then Some(p) else s.offlineProgress,
           lastTick := now)
  }

  /** `dismissOfflineProgress()`: credits the pending summary and clears it. */
  function Dismiss(s: GameState): GameState
  {
    match s.offlineProgress
    case None => s
    case Some(p) => s.(minerals := Credited(s.minerals, p.minerals), totalFlops := s.totalFlops + p.flops, offlineProgress := None)
  }

  // ---------------------------------------------------------------------------
  // The loops
  // ---------------------------------------------------------------------------

  /** Folding one more miner of a list into `FedOver` and `YieldOver`. */
  lemma OverExtend(miners: map<AutoMinerId, MinerState>, ids: seq<AutoMinerId>, i: nat, m: MineralId, factor: real)
    requires i < |ids|
    ensures FedOver(miners, ids[..i + 1], m) == (FedOver(miners, ids[..i], m) || Feeds(miners, ids[i], m))
    ensures YieldOver(miners, ids[..i + 1], m, factor) == YieldOver(miners, ids[..i], m, factor) + MinerYield(miners, ids[i], m, factor)
  {
    var pre := ids[..i + 1];
    assert pre != [] && pre[|pre| - 1] == ids[i] && pre[..|pre| - 1] == ids[..i];
  }

  /** Folding an owned miner into `YieldOver`: its production is added for each of its targets. */
  lemma OwnedYieldExtend(miners: map<AutoMinerId, MinerState>, ids: seq<AutoMinerId>, i: nat, m: MineralId, factor: real)
    requires i < |ids| && ids[i] in miners && miners[ids[i]].owned > 0
    ensures YieldOver(miners, ids[..i + 1], m, factor)
         == YieldOver(miners, ids[..i], m, factor) + (if m in Miner(ids[i]).targets then MinerOutput(miners, ids[i]) * factor else 0.0)
  {
    OverExtend(miners, ids, i, m, factor);
  }

  /** A mineral no miner of the list feeds gets nothing from them. */
  lemma {:induction false} UnfedYieldsNothing(miners: map<AutoMinerId, MinerState>, ids: seq<AutoMinerId>, m: MineralId,
                                              factor: real)
    requires !FedOver(miners, ids, m)
    ensures YieldOver(miners, ids, m, factor) == 0.0
  {
    if ids != [] {
      UnfedYieldsNothing(miners, ids[..|ids| - 1], m, factor);
    }
  }

  /**
   * The inner loop of `tick`'s auto-mining: `production` credited once to each
   * listed target that is present and unlocked.
   */
  method CreditTargets(minerals: map<MineralId, Stock>, targets: seq<MineralId>, production: real)
    returns (r: map<MineralId, Stock>)
    requires forall i, j :: 0 <= i < j < |targets| ==> targets[i] != targets[j]
    ensures r.Keys == minerals.Keys
    ensures forall m :: m in r ==>
              r[m] == if m in targets && minerals[m].unlocked then AddMineral(minerals[m], production) else minerals[m]
  {
    r := minerals;
    for j := 0 to |targets|
      invariant r.Keys == minerals.Keys
      invariant forall m :: m in r ==>
                  r[m] == if m in targets[..j] && minerals[m].unlocked then AddMineral(minerals[m], production) else minerals[m]
    {
      var m := targets[j];
      assert targets[..j + 1] == targets[..j] + [m];
      assert m !in targets[..j];
      if m in r && r[m].unlocked {
        r := r[m := r[m].(amount := r[m].amount + production, total := r[m].total + production)];
      }
    }
    assert targets[..|targets|] == targets;
  }

  /** Folding an owned miner into the credited minerals: what `CreditTargets` adds is exactly its share. */
  lemma CreditedOwnedStep(minerals: map<MineralId, Stock>, miners: map<AutoMinerId, MinerState>, ids: seq<AutoMinerId>,
                          i: nat, factor: real, before: map<MineralId, Stock>, targets: seq<MineralId>, production: real,
                          after: map<MineralId, Stock>)
    requires i < |ids| && ids[i] in miners && miners[ids[i]].owned > 0
    requires before == Credited(minerals, GainsOver(minerals, miners, ids[..i], factor))
    requires targets == Miner(ids[i]).targets
    requires production == MinerOutput(miners, ids[i]) * factor
    requires after.Keys == before.Keys
    requires forall m :: m in after ==>
               after[m] == if m in targets && before[m].unlocked then AddMineral(before[m], production) else before[m]
    ensures after == Credited(minerals, GainsOver(minerals, miners, ids[..i + 1], factor))
  {
    var next := Credited(minerals, GainsOver(minerals, miners, ids[..i + 1], factor));
    forall m | m in after
      ensures after[m] == next[m]
    {
      OverExtend(miners, ids, i, m, factor);
      OwnedYieldExtend(miners, ids, i, m, factor);
      var y := YieldOver(miners, ids[..i], m, factor);
      if !FedOver(miners, ids[..i], m) {
        UnfedYieldsNothing(miners, ids[..i], m, factor);
      }
      if m in targets && minerals[m].unlocked {
        AddMineralTwice(minerals[m], y, production);
      }
    }
  }

  /**
   * The auto-mining loops of `tick`: each owned miner, in `AUTO_MINER_ORDER`,
   * credits `ratePerSecond × owned × factor` to each of its unlocked targets.
   */
  method AutoMine(minerals: map<MineralId, Stock>, miners: map<AutoMinerId, MinerState>, factor: real)
    returns (r: map<MineralId, Stock>)
    ensures r == Credited(minerals, Gains(minerals, miners, factor))
  {
    var order := AutoMinerOrder;
    r := minerals;
    assert r == Credited(minerals, GainsOver(minerals, miners, order[..0], factor));
    for i := 0 to |order|
      invariant r == Credited(minerals, GainsOver(minerals, miners, order[..i], factor))
    {
      var id := order[i];
      if id in miners && miners[id].owned > 0 {
        var production := MinerOutput(miners, id) * factor;
        var targets := Miner(id).targets;
        MinerTargetsAreDistinct(id);
        var before := r;
        r := CreditTargets(r, targets, production);
        CreditedOwnedStep(minerals, miners, order, i, factor, before, targets, production, r);
      } else {
        GainsOverIdleStep(minerals, miners, order, i, factor);
      }
    }
    assert order[..|order|] == order;
  }

  /**
   * The inner loop of `calculateOfflineProgress`: `production` added to the
   * entry of each listed target that is present and unlocked (an absent entry
   * counting as 0).
   */
  method SumTargets(gains: map<MineralId, real>, minerals: map<MineralId, Stock>, targets: seq<MineralId>, production: real)
    returns (r: map<MineralId, real>)
    requires forall i, j :: 0 <= i < j < |targets| ==> targets[i] != targets[j]
    ensures forall m :: m in r <==> m in gains || (m in targets && m in minerals && minerals[m].unlocked)
    ensures forall m :: m in r ==>
              r[m] == (if m in gains then gains[m] else 0.0)
                      + (if m in targets && m in minerals && minerals[m].unlocked then production else 0.0)
  {
    r := gains;
    for j := 0 to |targets|
      invariant forall m :: m in r <==> m in gains || (m in targets[..j] && m in minerals && minerals[m].unlocked)
      invariant forall m :: m in r ==>
                  r[m] == (if m in gains then gains[m] else 0.0)
                          + (if m in targets[..j] && m in minerals && minerals[m].unlocked then production else 0.0)
    {
      var m := targets[j];
      assert targets[..j + 1] == targets[..j] + [m];
      assert m !in targets[..j];
      if m in minerals && minerals[m].unlocked {
        var existing := if m in r then r[m] else 0.0;
        r := r[m := existing + production];
      }
    }
    assert targets[..|targets|] == targets;
  }

  /** Folding an owned miner into `GainsOver`: what `SumTargets` adds is exactly its share. */
  lemma GainsOverOwnedStep(minerals: map<MineralId, Stock>, miners: map<AutoMinerId, MinerState>, ids: seq<AutoMinerId>,
                           i: nat, factor: real, before: map<MineralId, real>, targets: seq<MineralId>, production: real,
                           after: map<MineralId, real>)
    requires i < |ids| && ids[i] in miners && miners[ids[i]].owned > 0
    requires before == GainsOver(minerals, miners, ids[..i], factor)
    requires targets == Miner(ids[i]).targets
    requires production == MinerOutput(miners, ids[i]) * factor
    requires forall m :: m in after <==> m in before || (m in targets && m in minerals && minerals[m].unlocked)
    requires forall m :: m in after ==>
               after[m] == (if m in before then before[m] else 0.0)
                           + (if m in targets && m in minerals && minerals[m].unlocked then production else 0.0)
    ensures after == GainsOver(minerals, miners, ids[..i + 1], factor)
  {
    var next := GainsOver(minerals, miners, ids[..i + 1], factor);
    forall m
      ensures m in after <==> m in next
      ensures m in after ==> after[m] == next[m]
    {
      OverExtend(miners, ids, i, m, factor);
      OwnedYieldExtend(miners, ids, i, m, factor);
      if !FedOver(miners, ids[..i], m) {
        UnfedYieldsNothing(miners, ids[..i], m, factor);
      }
    }
  }

  /** A miner that is not owned leaves `GainsOver` as it was. */
  lemma GainsOverIdleStep(minerals: map<MineralId, Stock>, miners: map<AutoMinerId, MinerState>, ids: seq<AutoMinerId>,
                          i: nat, factor: real)
    requires i < |ids| && !(ids[i] in miners && miners[ids[i]].owned > 0)
    ensures GainsOver(minerals, miners, ids[..i + 1], factor) == GainsOver(minerals, miners, ids[..i], factor)
  {
    forall m {
      OverExtend(miners, ids, i, m, factor);
    }
  }

  /**
   * The loops of `calculateOfflineProgress`: each owned miner, in
   * `AUTO_MINER_ORDER`, adds `ratePerSecond × owned × factor` to the entry of
   * each of its unlocked targets.
   */
  method OfflineGains(minerals: map<MineralId, Stock>, miners: map<AutoMinerId, MinerState>, factor: real)
    returns (gains: map<MineralId, real>)
    ensures gains == Gains(minerals, miners, factor)
  {
    gains := map[];
    var order := AutoMinerOrder;
    for i := 0 to |order|
      invariant gains == GainsOver(minerals, miners, order[..i], factor)
    {
      var id := order[i];
      if id in miners && miners[id].owned > 0 {
        var production := MinerOutput(miners, id) * factor;
        var targets := Miner(id).targets;
        MinerTargetsAreDistinct(id);
        var before := gains;
        gains := SumTargets(gains, minerals, targets, production);
        GainsOverOwnedStep(minerals, miners, order, i, factor, before, targets, production, gains);
      } else {
        GainsOverIdleStep(minerals, miners, order, i, factor);
      }
    }
    assert order[..|order|] == order;
  }

  /** `calculateOfflineProgress(state, seconds)`: the miners' gains (once researched) and `flopsPerSecond × seconds`. */
  method CalculateOfflineProgress(s: GameState, seconds: real) returns (p: OfflineProgress)
    ensures p == OfflineSummary(s, seconds)
  {
    var gains: map<MineralId, real> := map[];
    if s.autoMiningUnlocked {
      gains := OfflineGains(s.minerals, s.autoMiners, OfflineFactor(s, seconds));
    }
    p := OfflineProgress(gains, FlopsEarned(s, seconds), seconds);
  }

  /** The loop of `dismissOfflineProgress`: credit each summarised mineral that is present. */
  method CreditOffline(minerals: map<MineralId, Stock>, gains: map<MineralId, real>) returns (r: map<MineralId, Stock>)
    ensures r == Credited(minerals, gains)
  {
    r := minerals;
    var todo := gains.Keys;
    while todo != {}
      invariant todo <= gains.Keys
      invariant r.Keys == minerals.Keys
      invariant forall m :: m in r ==> r[m] == if m in gains && m !in todo then AddMineral(minerals[m], gains[m]) else minerals[m]
      decreases todo
    {
      var m :| m in todo;
      if m in r {
        r := r[m := r[m].(amount := r[m].amount + gains[m], total := r[m].total + gains[m])];
      }
      todo := todo - {m};
    }
  }

  /** The unlock loops of an `unlock_node` effect: set the gate of each listed entry that is present. */
  method UnlockListed<K>(stocks: map<K, Stock>, ids: seq<K>) returns (r: map<K, Stock>)
    ensures r == UnlockAll(stocks, ids)
  {
    r := stocks;
    for i := 0 to |ids|
      invariant r.Keys == stocks.Keys
      invariant forall k :: k in r ==> r[k] == if k in ids[..i] then stocks[k].(unlocked := true) else stocks[k]
    {
      assert ids[..i + 1] == ids[..i] + [ids[i]];
      if ids[i] in r {
        r := r[ids[i] := r[ids[i]].(unlocked := true)];
      }
    }
    assert ids[..|ids|] == ids;
  }

  /** The loop of an `unlock_minerals` effect over `MINERAL_ORDER`. */
  method UnlockMineralTier(minerals: map<MineralId, Stock>, tier: int) returns (r: map<MineralId, Stock>)
    ensures r == UnlockTier(minerals, tier)
  {
    r := UnlockTierAlong(minerals, tier, MineralOrder);
    MineralOrderListsAll();
  }

  /** The same loop over any listing `order` of the minerals. */
  method UnlockTierAlong(minerals: map<MineralId, Stock>, tier: int, order: seq<MineralId>) returns (r: map<MineralId, Stock>)
    ensures r.Keys == minerals.Keys
    ensures forall m :: m in r ==> r[m] == if m in order && MineralTier(m) == tier then minerals[m].(unlocked := true) else minerals[m]
  {
    r := minerals;
    for i := 0 to |order|
      invariant r.Keys == minerals.Keys
      invariant forall m :: m in r ==> r[m] == if m in order[..i] && MineralTier(m) == tier then minerals[m].(unlocked := true) else minerals[m]
    {
      assert order[..i + 1] == order[..i] + [order[i]];
      var m := order[i];
      if m in r && MineralTier(m) == tier {
        r := r[m := r[m].(unlocked := true)];
      }
    }
    assert order[..|order|] == order;
  }
}
