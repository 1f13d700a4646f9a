/**
 * The identifiers and state records of the game (the files under src/types).
 * The string unions of the source become enumerated datatypes; break_eternity
 * `Decimal` quantities become `real`; wall-clock timestamps (milliseconds since
 * the epoch) become `int`.
 */
module Types {

  datatype Option<T> = None | Some(value: T)

  /** `MineralId` (src/types/game.ts) */
  datatype MineralId =
    | Silicon | Copper | Aluminum
    | Gold | Silver | Tin
    | Lithium | Cobalt | Tantalum
    | Neodymium | Gallium | Indium
    | Germanium | Hafnium

  /** `ProcessNode` (src/types/fabrication.ts): '90nm' … '3nm' */
  datatype NodeId = Nm90 | Nm65 | Nm45 | Nm28 | Nm14 | Nm7 | Nm5 | Nm3

  /** `WaferId` */
  datatype WaferId = BasicWafer | RefinedWafer | PureWafer | QuantumWafer

  /** `ChipCategory` */
  datatype ChipCategory = Cpu | Gpu | Memory | Asic | Quantum

  /** `ChipId` */
  datatype ChipId =
    | CpuBasic | CpuCore | CpuServer
    | GpuBasic | GpuGaming | GpuCompute
    | RamBasic | RamDdr5 | RamHbm
    | AsicMiner | AsicAi
    | QpuBasic

  /** `ResearchCategory` (src/types/research.ts) */
  datatype ResearchCategory = Nodes | Efficiency | Automation | Exotic

  /** `ResearchId` */
  datatype ResearchId =
    | Node65nm | Node45nm | Node28nm | Node14nm | Node7nm | Node5nm | Node3nm
    | Mining2x | Mining5x | FabSpeed2x | FabSpeed5x
    | FlopsMult2x | FlopsMult5x | FlopsMult10x
    | Tier2Minerals | Tier3Minerals | Tier4Minerals | Tier5Minerals
    | AutoMiner | AutoFab | Datacenter
    | QuantumComputing | Singularity

  /** `AutoMinerId` (src/types/automation.ts) */
  datatype AutoMinerId = Drill1 | Drill2 | Drill3 | Excavator | QuantumDrill

  /**
   * `MineralState`, `WaferState` and `ChipState` have the same shape:
   * spendable `amount`, lifetime `total`, and the `unlocked` gate.
   */
  datatype Stock = Stock(amount: real, total: real, unlocked: bool)

  /** A stock that never went negative and never lost more than it gained. */
  predicate SoundStock(s: Stock)
  {
    0.0 <= s.amount <= s.total
  }

  /** `ResearchEffect`, the tagged union of what a research node does. */
  datatype Effect =
    | UnlockNode(node: NodeId)
    | UnlockMinerals(tier: int)
    | MiningMultiplier(value: real)
    | FabSpeedMultiplier(value: real)
    | FlopsMultiplier(value: real)
    | UnlockFeature(feature: string)

  /** `ResearchState`: completed ids in purchase order and the FLOPS spent. */
  datatype ResearchState = ResearchState(completed: seq<ResearchId>, totalSpent: real)

  /** The `type` and `itemId` of a `CraftingJob`. */
  datatype CraftTarget = WaferItem(wafer: WaferId) | ChipItem(chip: ChipId)

  /** `CraftingJob`: `startedAt` in ms, `duration` in ms. */
  datatype CraftingJob = CraftingJob(target: CraftTarget, startedAt: int, duration: real, amount: nat)

  /** `AutoMinerState` */
  datatype MinerState = MinerState(owned: nat, unlocked: bool)

  /** `OfflineProgress`: per-mineral gains, FLOPS gained, seconds away. */
  datatype OfflineProgress = OfflineProgress(minerals: map<MineralId, real>, flops: real, duration: real)
}
