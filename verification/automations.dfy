/** The auto-miner table and its cost curve (src/data/automations.ts). */
module Automations {
  import opened Types

  /**
   * The part of `AutoMinerDef` the simulation reads: the minerals a miner
   * produces, its per-unit rate per second, and its geometric price curve
   * (priced in silicon).
   */
  datatype AutoMinerDef = AutoMinerDef(tier: int, targets: seq<MineralId>, ratePerSecond: real, baseCost: real, costMultiplier: real)

  /** The targets listed by the first tier; every later tier lists these first. */
  const Tier1Targets: seq<MineralId> := [Silicon, Copper, Aluminum]

  /** `AUTO_MINERS[id]`: positive rate and base cost, and a multiplier above 1. */
  function Miner(id: AutoMinerId): (d: AutoMinerDef)
    ensures d.ratePerSecond > 0.0 && d.baseCost > 0.0 && d.costMultiplier > 1.0
  {
    match id
    case Drill1 => AutoMinerDef(1, Tier1Targets, 1.0, 100.0, 1.15)
    case Drill2 => AutoMinerDef(2, Tier1Targets + [Gold, Silver, Tin], 5.0, 1000.0, 1.18)
    case Drill3 => AutoMinerDef(3, Tier1Targets + [Gold, Silver, Tin, Lithium, Cobalt, Tantalum], 25.0, 50000.0, 1.20)
    case Excavator =>
      AutoMinerDef(4, Tier1Targets + [Gold, Silver, Tin, Lithium, Cobalt, Tantalum, Neodymium, Gallium, Indium],
                   100.0, 10_000_000.0, 1.25)
    case QuantumDrill =>
      AutoMinerDef(5, Tier1Targets + [Gold, Silver, Tin, Lithium, Cobalt, Tantalum, Neodymium, Gallium, Indium,
                                      Germanium, Hafnium],
                   500.0, 10_000_000_000.0, 1.30)
  }

  /** No miner lists a target twice. */
  lemma MinerTargetsAreDistinct(id: AutoMinerId)
    ensures forall i, j :: 0 <= i < j < |Miner(id).targets| ==> Miner(id).targets[i] != Miner(id).targets[j]
  {
  }

  /** `AUTO_MINER_ORDER` */
  const AutoMinerOrder: seq<AutoMinerId> := [Drill1, Drill2, Drill3, Excavator, QuantumDrill]

  /** `AUTO_MINER_ORDER.indexOf(id)`, which is one less than the miner's tier. */
  function AutoMinerIndex(id: AutoMinerId): (i: nat)
    ensures i < |AutoMinerOrder| && AutoMinerOrder[i] == id
    ensures Miner(id).tier == i + 1
  {
    match id
    case Drill1 => 0
    case Drill2 => 1
    case Drill3 => 2
    case Excavator => 3
    case QuantumDrill => 4
  }

  /** `AUTO_MINER_ORDER` lists the five miners once each, in tier order. */
  lemma AutoMinerOrderIsComplete()
    ensures |AutoMinerOrder| == 5
    ensures forall i, j :: 0 <= i < j < |AutoMinerOrder| ==> AutoMinerOrder[i] != AutoMinerOrder[j]
    ensures forall i :: 0 <= i < |AutoMinerOrder| ==> Miner(AutoMinerOrder[i]).tier == i + 1
    ensures forall id :: id in AutoMinerOrder
  {
    forall id: AutoMinerId ensures id in AutoMinerOrder {
      var i := AutoMinerIndex(id);
    }
  }

  /** Each tier's targets extend the previous tier's, and rate and base cost strictly increase. */
  lemma LaterTiersExtendEarlier(i: nat)
    requires i + 1 < |AutoMinerOrder|
    ensures var lo, hi := Miner(AutoMinerOrder[i]), Miner(AutoMinerOrder[i + 1]);
      && lo.targets <= hi.targets
      && lo.ratePerSecond < hi.ratePerSecond
      && lo.baseCost < hi.baseCost
  {
  }

  /** `Math.pow(x, n)` for a whole exponent. */
  function Pow(x: real, n: nat): real
  {
    if n == 0 then 1.0 else x * Pow(x, n - 1)
  }

  /** `getAutoMinerCost(def, owned)`: `baseCost × costMultiplier^owned`. */
  function AutoMinerCost(def: AutoMinerDef, owned: nat): real
  {
    def.baseCost * Pow(def.costMultiplier, owned)
  }

  /** The first unit costs the base cost, and each purchase multiplies the next price by `costMultiplier`. */
  lemma CostIsGeometric(def: AutoMinerDef, owned: nat)
    ensures AutoMinerCost(def, 0) == def.baseCost
    ensures AutoMinerCost(def, owned + 1) == AutoMinerCost(def, owned) * def.costMultiplier
  {
  }

  /** A power of a base at least 1 is at least 1. */
  lemma {:induction false} PowAtLeastOne(x: real, n: nat)
    requires x >= 1.0
    ensures Pow(x, n) >= 1.0
  {
    if n > 0 {
      PowAtLeastOne(x, n - 1);
      assert x * Pow(x, n - 1) - Pow(x, n - 1) == (x - 1.0) * Pow(x, n - 1);
    }
  }

  /** With a positive base cost and a multiplier above 1, the price strictly increases with `owned`. */
  lemma {:induction false} CostStrictlyIncreases(def: AutoMinerDef, a: nat, b: nat)
    requires def.baseCost > 0.0 && def.costMultiplier > 1.0
    requires a < b
    ensures AutoMinerCost(def, a) < AutoMinerCost(def, b)
    decreases b - a
  {
    if b == a + 1 {
      PowAtLeastOne(def.costMultiplier, a);
      var p := Pow(def.costMultiplier, a);
      assert Pow(def.costMultiplier, b) == def.costMultiplier * p;
      assert p < def.costMultiplier * p by {
        assert (def.costMultiplier - 1.0) * p > 0.0;
      }
      var q := def.costMultiplier * p;
      assert def.baseCost * q - def.baseCost * p == def.baseCost * (q - p);
      assert def.baseCost * (q - p) > 0.0;
      assert AutoMinerCost(def, b) == def.baseCost * q;
    } else {
      CostStrictlyIncreases(def, a, b - 1);
      CostStrictlyIncreases(def, b - 1, b);
    }
  }
}
