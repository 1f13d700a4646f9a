/** The wafer table (src/data/wafers.ts). */
module Wafers {
  import opened Types
  import opened Minerals

  /**
   * The part of `WaferDef` the simulation reads. `recipe` maps each mineral
   * to the quantity one wafer consumes; `craftTime` is in milliseconds.
   */
  datatype WaferDef = WaferDef(tier: int, recipe: map<MineralId, nat>, craftTime: nat)

  /** `WAFERS[id]`: every recipe needs silicon, every recipe cost and craft time is positive. */
  function Wafer(id: WaferId): (d: WaferDef)
    ensures Silicon in d.recipe
    ensures forall m :: m in d.recipe ==> d.recipe[m] > 0
    ensures d.craftTime > 0
  {
    match id
    case BasicWafer =>
      WaferDef(1, map[Silicon := 100, Copper := 20, Aluminum := 10], 2000)
    case RefinedWafer =>
      WaferDef(2, map[Silicon := 500, Copper := 100, Gold := 10, Silver := 20], 5000)
    case PureWafer =>
      WaferDef(3, map[Silicon := 2000, Gold := 50, Lithium := 20, Cobalt := 10], 10000)
    case QuantumWafer =>
      WaferDef(4, map[Silicon := 10000, Gold := 200, Neodymium := 50, Gallium := 30, Germanium := 10], 30000)
  }

  /** `WAFER_ORDER` */
  const WaferOrder: seq<WaferId> := [BasicWafer, RefinedWafer, PureWafer, QuantumWafer]

  /** The position of a wafer in `WAFER_ORDER`, which is also one less than its tier. */
  function WaferIndex(w: WaferId): (i: nat)
    ensures i < |WaferOrder| && WaferOrder[i] == w
    ensures Wafer(w).tier == i + 1
  {
    match w
    case BasicWafer => 0
    case RefinedWafer => 1
    case PureWafer => 2
    case QuantumWafer => 3
  }

  /** `WAFER_ORDER` lists the four wafers once each. */
  lemma WaferOrderIsComplete()
    ensures |WaferOrder| == 4
    ensures forall i, j :: 0 <= i < j < |WaferOrder| ==> WaferOrder[i] != WaferOrder[j]
    ensures forall w :: w in WaferOrder
  {
    forall w: WaferId ensures w in WaferOrder {
      var i := WaferIndex(w);
    }
  }

  /** A higher-tier wafer takes longer to craft and needs more silicon. */
  lemma HigherTierCostsMore(a: WaferId, b: WaferId)
    requires Wafer(a).tier < Wafer(b).tier
    ensures Wafer(a).craftTime < Wafer(b).craftTime
    ensures Wafer(a).recipe[Silicon] < Wafer(b).recipe[Silicon]
  {
  }

  /** The basic wafer is made of tier-1 minerals only, which a new game has unlocked. */
  lemma BasicWaferUsesTier1(m: MineralId)
    requires m in Wafer(BasicWafer).recipe
    ensures m in Tier1Minerals && Mineral(m).tier == 1
  {
  }
}
