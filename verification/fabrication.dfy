/**
 * The fabrication engine (src/engine/fabrication.ts): affordability, eager cost
 * deduction, crediting crafted items, FLOPS aggregation, job timing and the
 * sequential node-unlock rule.
 */
module Fabrication {
  import opened Types
  import opened Wafers
  import opened Chips
  import opened Nodes
  import opened Resources

  // ---------------------------------------------------------------------------
  // Affordability
  // ---------------------------------------------------------------------------

  /** Every costed item is present and holds at least `cost × n`. */
  predicate Affords<K>(costs: map<K, nat>, stocks: map<K, Stock>, n: nat)
  {
    forall k :: k in costs ==> k in stocks && stocks[k].amount >= (costs[k] * n) as real
  }

  /** `canCraftWafer(id, minerals, amount)` */
  predicate CanCraftWafer(w: WaferId, minerals: map<MineralId, Stock>, amount: nat)
  {
    Affords(Wafer(w).recipe, minerals, amount)
  }

  /**
   * `canCraftChip(id, minerals, wafers, currentNode, amount)`: the current node is
   * at or past the chip's node by `NODE_ORDER` position, enough wafers of the
   * chip's type are held, and every extra mineral cost is met.
   */
  predicate CanCraftChip(c: ChipId, minerals: map<MineralId, Stock>, wafers: map<WaferId, Stock>,
                         currentNode: NodeId, amount: nat)
  {
    var chip := Chip(c);
    && NodeIndex(currentNode) >= NodeIndex(chip.node)
    && chip.waferType in wafers
    && wafers[chip.waferType].amount >= (chip.waferAmount * amount) as real
    && Affords(chip.extraCosts, minerals, amount)
  }

  /** A chip of a later node cannot be crafted at an earlier node, whatever is held. */
  lemma ChipNeedsItsNode(c: ChipId, minerals: map<MineralId, Stock>, wafers: map<WaferId, Stock>,
                         currentNode: NodeId, amount: nat)
    requires NodeIndex(currentNode) < NodeIndex(Chip(c).node)
    ensures !CanCraftChip(c, minerals, wafers, currentNode, amount)
  {
  }

  // ---------------------------------------------------------------------------
  // Cost deduction
  // ---------------------------------------------------------------------------

  /** What crafting `n` items charges one stock: `cost × n` if it is costed, else nothing. */
  function Charge<K>(costs: map<K, nat>, k: K, n: nat): real
  {
    if k in costs then (costs[k] * n) as real else 0.0
  }

  /**
   * The stocks after charging `costs × n`: each amount drops by its charge;
   * totals, gates and keys stay as they were.
   */
  function Deduct<K>(stocks: map<K, Stock>, costs: map<K, nat>, n: nat): (r: map<K, Stock>)
    ensures r.Keys == stocks.Keys
  {
    map k | k in stocks :: stocks[k].(amount := stocks[k].amount - Charge(costs, k, n))
  }

  /**
   * Charging what the stocks can afford keeps every sound stock sound and
   * touches only the amounts it names: totals and gates never change, uncosted
   * stocks are unchanged, and each costed amount falls by exactly `cost × n`.
   */
  lemma DeductKeepsStocksSound<K>(stocks: map<K, Stock>, costs: map<K, nat>, n: nat)
    requires Affords(costs, stocks, n)
    requires forall k :: k in stocks ==> SoundStock(stocks[k])
    ensures forall k :: k in stocks ==>
              var after := Deduct(stocks, costs, n)[k];
              && SoundStock(after)
              && after.total == stocks[k].total
              && after.unlocked == stocks[k].unlocked
              && (k !in costs ==> after == stocks[k])
              && (k in costs ==> stocks[k].amount - after.amount == (costs[k] * n) as real)
  {
  }

  /** The loop of `deductWaferCosts`/`deductChipCosts`: charge each costed stock that is present. */
  method SubtractCosts<K>(costs: map<K, nat>, stocks: map<K, Stock>, n: nat) returns (r: map<K, Stock>)
    ensures r == Deduct(stocks, costs, n)
  {
    r := stocks;
    var todo := costs.Keys;
    while todo != {}
      invariant todo <= costs.Keys
      invariant r.Keys == stocks.Keys
      invariant forall k :: k in r ==>
                  r[k] == if k in costs && k !in todo then stocks[k].(amount := stocks[k].amount - Charge(costs, k, n))
                          else stocks[k]
      decreases todo
    {
      var k :| k in todo;
      if k in r {
        r := r[k := r[k].(amount := r[k].amount - (costs[k] * n) as real)];
      }
      todo := todo - {k};
    }
  }

  /** `deductWaferCosts(id, minerals, amount)`: charges the wafer's recipe `amount` times. */
  method DeductWaferCosts(w: WaferId, minerals: map<MineralId, Stock>, amount: nat)
    returns (r: map<MineralId, Stock>)
    ensures r == Deduct(minerals, Wafer(w).recipe, amount)
  {
    r := SubtractCosts(Wafer(w).recipe, minerals, amount);
  }

  /** The wafer charge of a chip, as a cost map over wafer types. */
  function WaferCharge(c: ChipId): map<WaferId, nat>
  {
    map[Chip(c).waferType := Chip(c).waferAmount]
  }

  /**
   * `deductChipCosts(id, minerals, wafers, amount)`: charges the chip's wafer type
   * and its extra minerals, and nothing else.
   */
  method DeductChipCosts(c: ChipId, minerals: map<MineralId, Stock>, wafers: map<WaferId, Stock>, amount: nat)
    returns (newMinerals: map<MineralId, Stock>, newWafers: map<WaferId, Stock>)
    ensures newWafers == Deduct(wafers, WaferCharge(c), amount)
    ensures newMinerals == Deduct(minerals, Chip(c).extraCosts, amount)
  {
    var chip := Chip(c);
    newWafers := wafers;
    if chip.waferType in wafers {
      var ws := wafers[chip.waferType];
      newWafers := wafers[chip.waferType := ws.(amount := ws.amount - (chip.waferAmount * amount) as real)];
    }
    newMinerals := SubtractCosts(chip.extraCosts, minerals, amount);
  }

  /** After a successful `canCraftChip` with the same arguments no stock goes negative. */
  lemma CraftChipKeepsStocksSound(c: ChipId, minerals: map<MineralId, Stock>, wafers: map<WaferId, Stock>,
                                  node: NodeId, amount: nat)
    requires CanCraftChip(c, minerals, wafers, node, amount)
    requires forall m :: m in minerals ==> SoundStock(minerals[m])
    requires forall w :: w in wafers ==> SoundStock(wafers[w])
    ensures forall m :: m in minerals ==> SoundStock(Deduct(minerals, Chip(c).extraCosts, amount)[m])
    ensures forall w :: w in wafers ==> SoundStock(Deduct(wafers, WaferCharge(c), amount)[w])
  {
    DeductKeepsStocksSound(minerals, Chip(c).extraCosts, amount);
    DeductKeepsStocksSound(wafers, WaferCharge(c), amount);
  }

  // ---------------------------------------------------------------------------
  // Item states
  // ---------------------------------------------------------------------------

  /** `createWaferState(unlocked)` */
  function CreateWaferState(unlocked: bool): (s: Stock)
    ensures s.amount == 0.0 && s.total == 0.0 && s.unlocked == unlocked
  {
    Stock(0.0, 0.0, unlocked)
  }

  /** `createChipState(unlocked)` */
  function CreateChipState(unlocked: bool): (s: Stock)
    ensures s.amount == 0.0 && s.total == 0.0 && s.unlocked == unlocked
  {
    Stock(0.0, 0.0, unlocked)
  }

  /** `addWafer(state, n)`: `n` more held and `n` more made; a sound stock stays sound. */
  function AddWafer(s: Stock, n: nat): (r: Stock)
    ensures r.amount - s.amount == n as real && r.total - s.total == n as real
    ensures r.unlocked == s.unlocked
    ensures SoundStock(s) ==> SoundStock(r)
  {
    s.(amount := s.amount + n as real, total := s.total + n as real)
  }

  /** `addChip(state, n)`: `n` more held and `n` more made; a sound stock stays sound. */
  function AddChip(s: Stock, n: nat): (r: Stock)
    ensures r.amount - s.amount == n as real && r.total - s.total == n as real
    ensures r.unlocked == s.unlocked
    ensures SoundStock(s) ==> SoundStock(r)
  {
    s.(amount := s.amount + n as real, total := s.total + n as real)
  }

  // ---------------------------------------------------------------------------
  // FLOPS per second
  // ---------------------------------------------------------------------------

  /** What one chip type contributes: `flopsPerSecond × amount × efficiency` when some are held. */
  function ChipFlops(chips: map<ChipId, Stock>, c: ChipId, efficiency: real): real
  {
    if c in chips && chips[c].amount > 0.0 then FlopsPerChip(c) * chips[c].amount * efficiency else 0.0
  }

  /** The contributions of the chip types in `cs`, summed. */
  function FlopsOver(chips: map<ChipId, Stock>, cs: seq<ChipId>, efficiency: real): real
  {
    if cs == [] then 0.0
    else FlopsOver(chips, cs[..|cs| - 1], efficiency) + ChipFlops(chips, cs[|cs| - 1], efficiency)
  }

  /** The FLOPS per second of a chip inventory at a node efficiency: every chip type's contribution, summed. */
  function FlopsRate(chips: map<ChipId, Stock>, efficiency: real): real
  {
    FlopsOver(chips, ChipOrder, efficiency)
  }

  /** Summing one more element of a list. */
  lemma FlopsOverExtend(chips: map<ChipId, Stock>, cs: seq<ChipId>, i: nat, efficiency: real)
    requires i < |cs|
    ensures FlopsOver(chips, cs[..i + 1], efficiency) == FlopsOver(chips, cs[..i], efficiency) + ChipFlops(chips, cs[i], efficiency)
  {
    var pre := cs[..i + 1];
    assert pre != [] && pre[|pre| - 1] == cs[i] && pre[..|pre| - 1] == cs[..i];
  }

  /** `calculateFlopsPerSecond(chips, nodeEfficiency)` */
  method CalculateFlopsPerSecond(chips: map<ChipId, Stock>, efficiency: real) returns (total: real)
    ensures total == FlopsRate(chips, efficiency)
  {
    var order := ChipOrder;
    total := 0.0;
    for i := 0 to |order|
      invariant total == FlopsOver(chips, order[..i], efficiency)
    {
      var c := order[i];
      FlopsOverExtend(chips, order, i, efficiency);
      if c in chips && chips[c].amount > 0.0 {
        total := total + FlopsPerChip(c) * chips[c].amount * efficiency;
      }
    }
    assert order[..|order|] == order;
  }

  /** No chip held, no FLOPS. */
  lemma {:induction false} FlopsOverNothingHeld(chips: map<ChipId, Stock>, cs: seq<ChipId>, efficiency: real)
    requires forall c :: c in chips ==> chips[c].amount <= 0.0
    ensures FlopsOver(chips, cs, efficiency) == 0.0
  {
    if cs != [] {
      FlopsOverNothingHeld(chips, cs[..|cs| - 1], efficiency);
    }
  }

  /** The sum is linear in the node efficiency. */
  lemma {:induction false} FlopsOverIsLinear(chips: map<ChipId, Stock>, cs: seq<ChipId>, efficiency: real)
    ensures FlopsOver(chips, cs, efficiency) == efficiency * FlopsOver(chips, cs, 1.0)
  {
    if cs != [] {
      var init, c := cs[..|cs| - 1], cs[|cs| - 1];
      FlopsOverIsLinear(chips, init, efficiency);
      if c in chips && chips[c].amount > 0.0 {
        Rescale(FlopsPerChip(c) * chips[c].amount, efficiency);
      }
      ScaledSum(FlopsOver(chips, init, 1.0), ChipFlops(chips, c, 1.0), efficiency);
    }
  }

  /** Whatever the chips held, a non-negative efficiency gives a non-negative sum. */
  lemma {:induction false} FlopsOverNonNegative(chips: map<ChipId, Stock>, cs: seq<ChipId>, efficiency: real)
    requires efficiency >= 0.0
    ensures FlopsOver(chips, cs, efficiency) >= 0.0
  {
    if cs != [] {
      FlopsOverNonNegative(chips, cs[..|cs| - 1], efficiency);
      var c := cs[|cs| - 1];
      if c in chips && chips[c].amount > 0.0 {
        PositiveProduct(FlopsPerChip(c), chips[c].amount);
        NonNegativeProduct(FlopsPerChip(c) * chips[c].amount, efficiency);
      }
    }
  }

  /**
   * The FLOPS rate is 0 when no chip is held, linear in the node efficiency,
   * and never negative at a non-negative efficiency.
   */
  lemma FlopsRateShape(chips: map<ChipId, Stock>, efficiency: real)
    ensures (forall c :: c in chips ==> chips[c].amount <= 0.0) ==> FlopsRate(chips, efficiency) == 0.0
    ensures FlopsRate(chips, efficiency) == efficiency * FlopsRate(chips, 1.0)
    ensures efficiency >= 0.0 ==> FlopsRate(chips, efficiency) >= 0.0
  {
    if forall c :: c in chips ==> chips[c].amount <= 0.0 {
      FlopsOverNothingHeld(chips, ChipOrder, efficiency);
    }
    FlopsOverIsLinear(chips, ChipOrder, efficiency);
    if efficiency >= 0.0 {
      FlopsOverNonNegative(chips, ChipOrder, efficiency);
    }
  }

  /** A higher efficiency never lowers the rate. */
  lemma FlopsRateMonotone(chips: map<ChipId, Stock>, e1: real, e2: real)
    requires e1 <= e2
    ensures FlopsRate(chips, e1) <= FlopsRate(chips, e2)
  {
    FlopsOverIsLinear(chips, ChipOrder, e1);
    FlopsOverIsLinear(chips, ChipOrder, e2);
    FlopsOverNonNegative(chips, ChipOrder, 1.0);
    var x := FlopsOver(chips, ChipOrder, 1.0);
    NonNegativeProduct(e2 - e1, x);
    ScaledSum(e1, e2 - e1, x);
  }

  /**
   * Crediting `n` chips of one type to a non-negative holding changes the sum
   * over a list that names that type once by exactly `flopsPerSecond × n × efficiency`.
   */
  lemma {:induction false} FlopsOverAfterCredit(chips: map<ChipId, Stock>, cs: seq<ChipId>, c: ChipId, n: nat,
                                                efficiency: real)
    requires c in chips && chips[c].amount >= 0.0
    requires forall i, j :: 0 <= i < j < |cs| ==> cs[i] != cs[j]
    ensures FlopsOver(chips[c := AddChip(chips[c], n)], cs, efficiency)
         == FlopsOver(chips, cs, efficiency) + (if c in cs then FlopsPerChip(c) * (n as real) * efficiency else 0.0)
  {
    if cs != [] {
      var init := cs[..|cs| - 1];
      var last := cs[|cs| - 1];
      FlopsOverAfterCredit(chips, init, c, n, efficiency);
      assert c in cs <==> c in init || c == last;
      if last == c {
        assert c !in init;
        CreditedChipFlops(chips, c, n, efficiency);
      } else {
        assert ChipFlops(chips[c := AddChip(chips[c], n)], last, efficiency) == ChipFlops(chips, last, efficiency);
      }
    }
  }

  /** Crediting `n` chips to a non-negative holding adds `flopsPerSecond × n × efficiency` to that type's contribution. */
  lemma CreditedChipFlops(chips: map<ChipId, Stock>, c: ChipId, n: nat, efficiency: real)
    requires c in chips && chips[c].amount >= 0.0
    ensures ChipFlops(chips[c := AddChip(chips[c], n)], c, efficiency)
         == ChipFlops(chips, c, efficiency) + FlopsPerChip(c) * (n as real) * efficiency
  {
    var f, a, k := FlopsPerChip(c), chips[c].amount, n as real;
    CreditedProduct(f, a, k, efficiency);
  }

  /** Completing `n` chips raises the FLOPS rate by exactly those chips' rate. */
  lemma FlopsRateAfterCredit(chips: map<ChipId, Stock>, c: ChipId, n: nat, efficiency: real)
    requires c in chips && chips[c].amount >= 0.0
    ensures FlopsRate(chips[c := AddChip(chips[c], n)], efficiency)
         == FlopsRate(chips, efficiency) + FlopsPerChip(c) * (n as real) * efficiency
  {
    ChipOrderIsComplete();
    FlopsOverAfterCredit(chips, ChipOrder, c, n, efficiency);
  }

  // ---------------------------------------------------------------------------
  // Job timing
  // ---------------------------------------------------------------------------

  /** `isCraftingComplete(job)` at time `now` (ms). */
  predicate IsCraftingComplete(job: CraftingJob, now: int)
  {
    now as real >= job.startedAt as real + job.duration
  }

  /**
   * `getCraftingProgress(job)` at time `now`: the elapsed fraction, clamped at 1
   * from above only; it is 1 exactly when the job is complete.
   */
  function GetCraftingProgress(job: CraftingJob, now: int): (p: real)
    requires job.duration > 0.0
    ensures p <= 1.0
    ensures p == 1.0 <==> IsCraftingComplete(job, now)
    ensures p >= 0.0 <==> now >= job.startedAt
  {
    var elapsed := (now - job.startedAt) as real;
    var fraction := elapsed / job.duration;
    assert fraction >= 1.0 <==> elapsed >= job.duration;
    if 1.0 <= fraction then 1.0 else fraction
  }

  // ---------------------------------------------------------------------------
  // Node unlocking
  // ---------------------------------------------------------------------------

  /**
   * `canUnlockNode(node, totalFlops, unlockedNodes)`: never for a node already
   * unlocked or whose predecessor in `NODE_ORDER` is locked; otherwise exactly
   * when the FLOPS cover the node's unlock cost.
   */
  predicate CanUnlockNode(node: NodeId, totalFlops: real, unlockedNodes: seq<NodeId>)
  {
    var i := NodeIndex(node);
    && node !in unlockedNodes
    && (i > 0 ==> NodeOrder[i - 1] in unlockedNodes)
    && totalFlops >= Node(node).unlockCost
  }

  /**
   * Nodes unlock strictly in sequence: when the unlocked nodes are the first `k`
   * of `NODE_ORDER`, the only node `canUnlockNode` admits is the next one.
   */
  lemma CanUnlockOnlyNextNode(node: NodeId, totalFlops: real, k: nat)
    requires k <= |NodeOrder|
    requires CanUnlockNode(node, totalFlops, NodeOrder[..k])
    ensures k < |NodeOrder| && node == NodeOrder[k]
    ensures NodeOrder[..k] + [node] == NodeOrder[..k + 1]
  {
    NodeOrderIsComplete();
    var i := NodeIndex(node);
    assert forall j :: 0 <= j < k ==> NodeOrder[j] in NodeOrder[..k];
    assert forall j :: k <= j < |NodeOrder| ==> NodeOrder[j] !in NodeOrder[..k];
    assert i == k;
  }

  // ---------------------------------------------------------------------------
  // Display units
  // ---------------------------------------------------------------------------

  /** The unit names of `formatFlops`, by rank. */
  const FlopsUnits: seq<string> := ["FLOPS", "KFLOPS", "MFLOPS", "GFLOPS", "TFLOPS", "PFLOPS", "EFLOPS", "ZFLOPS"]

  /**
   * The unit-selection part of `formatFlops(f)`: the rank `r` of the unit
   * `FlopsUnits[r]`, chosen so that the shown `f / 1000^r` lies in [1, 1000),
   * except that rank 0 has no lower bound and rank 7 (ZFLOPS) no upper bound.
   */
  function FlopsUnitRank(f: real): (r: nat)
    ensures r < |FlopsUnits|
    ensures r > 0 ==> Thousands(r) <= f
    ensures r < |FlopsUnits| - 1 ==> f < Thousands(r + 1)
  {
    if f < 1000.0 then 0
    else if f < 1_000_000.0 then 1
    else if f < 1_000_000_000.0 then 2
    else if f < 1_000_000_000_000.0 then 3
    else if f < 1_000_000_000_000_000.0 then 4
    else if f < 1_000_000_000_000_000_000.0 then 5
    else if f < 1_000_000_000_000_000_000_000.0 then 6
    else 7
  }
}
