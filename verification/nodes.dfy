/** The process-node table (src/data/nodes.ts). */
module Nodes {
  import opened Types

  /**
   * The part of `ProcessNodeDef` the simulation reads: the chips and wafers a
   * node unlocks, its FLOPS unlock cost and its FLOPS efficiency multiplier.
   */
  datatype NodeDef = NodeDef(unlocksChips: seq<ChipId>, unlocksWafers: seq<WaferId>, unlockCost: real, efficiency: real)

  /** `PROCESS_NODES[id]` */
  function Node(id: NodeId): (d: NodeDef)
    ensures d.efficiency >= 1.0
    ensures d.unlockCost >= 0.0
  {
    match id
    case Nm90 => NodeDef([CpuBasic, GpuBasic, RamBasic], [BasicWafer], 0.0, 1.0)
    case Nm65 => NodeDef([CpuCore], [RefinedWafer], 1_000_000_000.0, 1.5)
    case Nm45 => NodeDef([GpuGaming, RamDdr5], [], 100_000_000_000.0, 2.0)
    case Nm28 => NodeDef([CpuServer, AsicMiner], [PureWafer], 10_000_000_000_000.0, 3.0)
    case Nm14 => NodeDef([GpuCompute], [], 1_000_000_000_000_000.0, 5.0)
    case Nm7  => NodeDef([RamHbm], [QuantumWafer], 100_000_000_000_000_000.0, 10.0)
    case Nm5  => NodeDef([AsicAi], [], 10_000_000_000_000_000_000.0, 20.0)
    case Nm3  => NodeDef([QpuBasic], [], 1_000_000_000_000_000_000_000.0, 50.0)
  }

  /** `NODE_ORDER`, the sequence in which nodes are meant to be reached. */
  const NodeOrder: seq<NodeId> := [Nm90, Nm65, Nm45, Nm28, Nm14, Nm7, Nm5, Nm3]

  /** `NODE_ORDER.indexOf(n)`; every node is listed, so it is never -1. */
  function NodeIndex(n: NodeId): (i: nat)
    ensures i < |NodeOrder| && NodeOrder[i] == n
  {
    match n
    case Nm90 => 0
    case Nm65 => 1
    case Nm45 => 2
    case Nm28 => 3
    case Nm14 => 4
    case Nm7 => 5
    case Nm5 => 6
    case Nm3 => 7
  }

  /** `NODE_ORDER` lists the eight nodes once each. */
  lemma NodeOrderIsComplete()
    ensures |NodeOrder| == 8
    ensures forall i, j :: 0 <= i < j < |NodeOrder| ==> NodeOrder[i] != NodeOrder[j]
    ensures forall n :: n in NodeOrder
  {
    forall n: NodeId ensures n in NodeOrder {
      var i := NodeIndex(n);
    }
  }

  /** The starting node is first, is free and has efficiency 1. */
  lemma StartingNode()
    ensures NodeOrder[0] == Nm90
    ensures Node(Nm90).unlockCost == 0.0 && Node(Nm90).efficiency == 1.0
  {
  }

  /** Efficiency and unlock cost both strictly increase along `NODE_ORDER`. */
  lemma LaterNodesCostMoreAndYieldMore(a: NodeId, b: NodeId)
    requires NodeIndex(a) < NodeIndex(b)
    ensures Node(a).efficiency < Node(b).efficiency
    ensures Node(a).unlockCost < Node(b).unlockCost
  {
  }

  /** The node whose `unlocksWafers` lists a wafer. */
  function WaferNode(w: WaferId): (n: NodeId)
    ensures w in Node(n).unlocksWafers
    ensures forall k :: w in Node(k).unlocksWafers ==> k == n
  {
    match w
    case BasicWafer => Nm90
    case RefinedWafer => Nm65
    case PureWafer => Nm28
    case QuantumWafer => Nm7
  }
}
