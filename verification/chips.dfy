/** The chip table (src/data/chips.ts). */
module Chips {
  import opened Types
  import opened Nodes

  /**
   * The part of `ChipDef` the simulation reads. A chip consumes `waferAmount`
   * wafers of type `waferType` and the minerals of `extraCosts` (empty where the
   * source has no `extraCosts`); `craftTime` is in milliseconds and
   * `flopsPerSecond` is the FLOPS one chip yields at node efficiency 1.
   */
  datatype ChipDef = ChipDef(
    category: ChipCategory,
    tier: int,
    node: NodeId,
    waferType: WaferId,
    waferAmount: nat,
    extraCosts: map<MineralId, nat>,
    craftTime: nat,
    flopsPerSecond: real)

  /** The `flopsPerSecond` column of `CHIPS`: the FLOPS one chip yields at node efficiency 1. */
  function FlopsPerChip(id: ChipId): (r: real)
    ensures r > 0.0
  {
    match id
    case CpuBasic => 1_000_000.0
    case CpuCore => 100_000_000.0
    case CpuServer => 10_000_000_000.0
    case GpuBasic => 10_000_000.0
    case GpuGaming => 1_000_000_000.0
    case GpuCompute => 1_000_000_000_000.0
    case RamBasic => 100_000.0
    case RamDdr5 => 10_000_000.0
    case RamHbm => 100_000_000_000.0
    case AsicMiner => 100_000_000_000.0
    case AsicAi => 100_000_000_000_000.0
    case QpuBasic => 1_000_000_000_000_000_000.0
  }

  /** `CHIPS[id]`: positive craft time, FLOPS rate and costs. */
  function Chip(id: ChipId): (d: ChipDef)
    ensures d.craftTime > 0 && d.waferAmount >= 1 && d.flopsPerSecond > 0.0
    ensures forall m :: m in d.extraCosts ==> d.extraCosts[m] > 0
  {
    match id
    case CpuBasic =>
      ChipDef(Cpu, 1, Nm90, BasicWafer, 1, map[], 3000, FlopsPerChip(CpuBasic))
    case CpuCore =>
      ChipDef(Cpu, 2, Nm65, RefinedWafer, 1, map[Gold := 5], 5000, FlopsPerChip(CpuCore))
    case CpuServer =>
      ChipDef(Cpu, 3, Nm28, PureWafer, 2, map[Gold := 20, Cobalt := 5], 10000, FlopsPerChip(CpuServer))
    case GpuBasic =>
      ChipDef(Gpu, 1, Nm90, BasicWafer, 2, map[Copper := 50], 4000, FlopsPerChip(GpuBasic))
    case GpuGaming =>
      ChipDef(Gpu, 2, Nm45, RefinedWafer, 2, map[Gold := 15, Tin := 10], 8000, FlopsPerChip(GpuGaming))
    case GpuCompute =>
      ChipDef(Gpu, 3, Nm14, PureWafer, 3, map[Gold := 50, Neodymium := 10], 15000, FlopsPerChip(GpuCompute))
    case RamBasic =>
      ChipDef(Memory, 1, Nm90, BasicWafer, 1, map[], 2000, FlopsPerChip(RamBasic))
    case RamDdr5 =>
      ChipDef(Memory, 2, Nm45, RefinedWafer, 1, map[Silver := 10], 4000, FlopsPerChip(RamDdr5))
    case RamHbm =>
      ChipDef(Memory, 3, Nm7, QuantumWafer, 1, map[Indium := 5], 20000, FlopsPerChip(RamHbm))
    case AsicMiner =>
      ChipDef(Asic, 2, Nm28, PureWafer, 1, map[Copper := 100, Tantalum := 5], 8000, FlopsPerChip(AsicMiner))
    case AsicAi =>
      ChipDef(Asic, 3, Nm5, QuantumWafer, 2, map[Hafnium := 5, Germanium := 3], 25000, FlopsPerChip(AsicAi))
    case QpuBasic =>
      ChipDef(Quantum, 4, Nm3, QuantumWafer, 5, map[Hafnium := 20, Germanium := 10, Neodymium := 15], 60000, FlopsPerChip(QpuBasic))
  }

  /** `CHIP_ORDER` */
  const ChipOrder: seq<ChipId> := [
    CpuBasic, GpuBasic, RamBasic,
    CpuCore, GpuGaming, RamDdr5,
    CpuServer, GpuCompute, AsicMiner,
    RamHbm, AsicAi,
    QpuBasic
  ]

  /** `STARTER_CHIPS`, the chips unlocked in a new game. */
  const StarterChips: seq<ChipId> := [CpuBasic, GpuBasic, RamBasic]

  /** The position of a chip in `CHIP_ORDER`: every chip is listed. */
  function ChipIndex(c: ChipId): (i: nat)
    ensures i < |ChipOrder| && ChipOrder[i] == c
  {
    match c
    case CpuBasic => 0
    case GpuBasic => 1
    case RamBasic => 2
    case CpuCore => 3
    case GpuGaming => 4
    case RamDdr5 => 5
    case CpuServer => 6
    case GpuCompute => 7
    case AsicMiner => 8
    case RamHbm => 9
    case AsicAi => 10
    case QpuBasic => 11
  }

  /** `CHIP_ORDER` lists the twelve chips once each. */
  lemma ChipOrderIsComplete()
    ensures |ChipOrder| == 12
    ensures forall i, j :: 0 <= i < j < |ChipOrder| ==> ChipOrder[i] != ChipOrder[j]
    ensures forall c :: c in ChipOrder
  {
    forall c: ChipId ensures c in ChipOrder {
      var i := ChipIndex(c);
    }
  }

  /** The starter chips are exactly the chips of the 90nm node. */
  lemma StarterChipsAreThe90nmChips(c: ChipId)
    ensures c in StarterChips <==> Chip(c).node == Nm90
  {
  }

  /** A chip is unlocked by its own node, and the wafer it consumes by a node no later than that. */
  lemma ChipNodesAreConsistent(id: ChipId)
    ensures id in Node(Chip(id).node).unlocksChips
    ensures NodeIndex(WaferNode(Chip(id).waferType)) <= NodeIndex(Chip(id).node)
  {
  }

  /** Exactly one node lists a chip in `unlocksChips`, and it is the chip's own node. */
  lemma ChipUnlockedOnlyByItsNode(c: ChipId, n: NodeId)
    ensures c in Node(n).unlocksChips <==> n == Chip(c).node
  {
  }

  /** Within a category, a higher tier yields strictly more FLOPS. */
  lemma HigherTierYieldsMore(a: ChipId, b: ChipId)
    requires Chip(a).category == Chip(b).category && Chip(a).tier < Chip(b).tier
    ensures Chip(a).flopsPerSecond < Chip(b).flopsPerSecond
  {
  }
}
