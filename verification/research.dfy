/** The research tree (src/data/research.ts). */
module ResearchTree {
  import opened Types
  import opened Nodes

  /** The part of `ResearchDef` the simulation reads. `prerequisites` (the source's `requires`) is empty where the source omits it. */
  datatype ResearchDef = ResearchDef(category: ResearchCategory, cost: real, prerequisites: seq<ResearchId>, effects: seq<Effect>)

  /**
   * `RESEARCH[id]`, assembled from the columns below: category, cost, the
   * prerequisites (the source's `requires`, empty where the source omits it)
   * and the one effect every research has.
   */
  function Research(id: ResearchId): (d: ResearchDef)
    ensures d.cost > 0.0 && |d.effects| == 1
  {
    ResearchDef(ResearchCategoryOf(id), ResearchCost(id), Prerequisites(id), [ResearchEffect(id)])
  }

  /** The `category` column of `RESEARCH`. */
  function ResearchCategoryOf(id: ResearchId): ResearchCategory
  {
    match id
    // node unlocks
    case Node65nm => Nodes
    case Node45nm => Nodes
    case Node28nm => Nodes
    case Node14nm => Nodes
    case Node7nm => Nodes
    case Node5nm => Nodes
    case Node3nm => Nodes
    // mineral unlocks
    case Tier2Minerals => Exotic
    case Tier3Minerals => Exotic
    case Tier4Minerals => Exotic
    case Tier5Minerals => Exotic
    // efficiency upgrades
    case Mining2x => Efficiency
    case Mining5x => Efficiency
    case FabSpeed2x => Efficiency
    case FabSpeed5x => Efficiency
    case FlopsMult2x => Efficiency
    case FlopsMult5x => Efficiency
    case FlopsMult10x => Efficiency
    // automation
    case AutoMiner => Automation
    case AutoFab => Automation
    case Datacenter => Automation
    // exotic
    case QuantumComputing => Exotic
    case Singularity => Exotic
  }

  /** The `cost` column of `RESEARCH`, in FLOPS: always positive. */
  function ResearchCost(id: ResearchId): (c: real)
    ensures c > 0.0
  {
    match id
    // node unlocks
    case Node65nm => 1_000_000_000.0
    case Node45nm => 100_000_000_000.0
    case Node28nm => 10_000_000_000_000.0
    case Node14nm => 1_000_000_000_000_000.0
    case Node7nm => 100_000_000_000_000_000.0
    case Node5nm => 10_000_000_000_000_000_000.0
    case Node3nm => 1_000_000_000_000_000_000_000.0
    // mineral unlocks
    case Tier2Minerals => 100_000_000.0
    case Tier3Minerals => 1_000_000_000_000.0
    case Tier4Minerals => 10_000_000_000_000_000.0
    case Tier5Minerals => 100_000_000_000_000_000_000.0
    // efficiency upgrades
    case Mining2x => 10_000_000.0
    case Mining5x => 100_000_000_000.0
    case FabSpeed2x => 500_000_000.0
    case FabSpeed5x => 10_000_000_000_000.0
    case FlopsMult2x => 10_000_000_000.0
    case FlopsMult5x => 100_000_000_000_000.0
    case FlopsMult10x => 1_000_000_000_000_000_000.0
    // automation
    case AutoMiner => 1_000_000_000.0
    case AutoFab => 1_000_000_000_000.0
    case Datacenter => 1_000_000_000_000_000.0
    // exotic
    case QuantumComputing => 100_000_000_000_000_000_000.0
    case Singularity => 1_000_000_000_000_000_000_000_000.0
  }

  /** The `requires` column of `RESEARCH`. */
  function Prerequisites(id: ResearchId): seq<ResearchId>
  {
    match id
    // node unlocks
    case Node65nm => []
    case Node45nm => [Node65nm]
    case Node28nm => [Node45nm]
    case Node14nm => [Node28nm]
    case Node7nm => [Node14nm]
    case Node5nm => [Node7nm]
    case Node3nm => [Node5nm]
    // mineral unlocks
    case Tier2Minerals => []
    case Tier3Minerals => [Tier2Minerals, Node45nm]
    case Tier4Minerals => [Tier3Minerals, Node14nm]
    case Tier5Minerals => [Tier4Minerals, Node5nm]
    // efficiency upgrades
    case Mining2x => []
    case Mining5x => [Mining2x]
    case FabSpeed2x => []
    case FabSpeed5x => [FabSpeed2x]
    case FlopsMult2x => []
    case FlopsMult5x => [FlopsMult2x]
    case FlopsMult10x => [FlopsMult5x]
    // automation
    case AutoMiner => []
    case AutoFab => [AutoMiner]
    case Datacenter => [AutoFab]
    // exotic
    case QuantumComputing => [Node3nm, Tier5Minerals]
    case Singularity => [QuantumComputing]
  }

  /** The `effects` column of `RESEARCH`: each research has exactly one effect. */
  function ResearchEffect(id: ResearchId): Effect
  {
    match id
    // node unlocks
    case Node65nm => UnlockNode(Nm65)
    case Node45nm => UnlockNode(Nm45)
    case Node28nm => UnlockNode(Nm28)
    case Node14nm => UnlockNode(Nm14)
    case Node7nm => UnlockNode(Nm7)
    case Node5nm => UnlockNode(Nm5)
    case Node3nm => UnlockNode(Nm3)
    // mineral unlocks
    case Tier2Minerals => UnlockMinerals(2)
    case Tier3Minerals => UnlockMinerals(3)
    case Tier4Minerals => UnlockMinerals(4)
    case Tier5Minerals => UnlockMinerals(5)
    // efficiency upgrades
    case Mining2x => MiningMultiplier(2.0)
    case Mining5x => MiningMultiplier(5.0)
    case FabSpeed2x => FabSpeedMultiplier(2.0)
    case FabSpeed5x => FabSpeedMultiplier(5.0)
    case FlopsMult2x => FlopsMultiplier(2.0)
    case FlopsMult5x => FlopsMultiplier(5.0)
    case FlopsMult10x => FlopsMultiplier(10.0)
    // automation
    case AutoMiner => UnlockFeature("auto_miner")
    case AutoFab => UnlockFeature("auto_fab")
    case Datacenter => UnlockFeature("datacenter")
    // exotic
    case QuantumComputing => UnlockFeature("quantum")
    case Singularity => UnlockFeature("singularity")
  }

  /**
   * Every prerequisite comes earlier in `RESEARCH_ORDER` than the research that
   * needs it, which is what makes the prerequisite relation acyclic.
   */
  lemma PrerequisitesComeEarlier(id: ResearchId)
    ensures forall r :: r in Research(id).prerequisites ==> ResearchIndex(r) < ResearchIndex(id)
  {
  }

  /** Every multiplier effect multiplies by more than 1. */
  lemma MultipliersExceedOne(id: ResearchId)
    ensures var e := Research(id).effects[0];
      e.MiningMultiplier? || e.FabSpeedMultiplier? || e.FlopsMultiplier? ==> e.value > 1.0
  {
  }

  /** `RESEARCH_ORDER`, the display order. */
  const ResearchOrder: seq<ResearchId> := [
    Mining2x, FabSpeed2x, FlopsMult2x,
    Tier2Minerals,
    Node65nm, Node45nm,
    Mining5x, FabSpeed5x, FlopsMult5x,
    Tier3Minerals, Node28nm, Node14nm,
    AutoMiner, AutoFab,
    Tier4Minerals, Node7nm, Node5nm,
    Datacenter, FlopsMult10x,
    Tier5Minerals, Node3nm,
    QuantumComputing, Singularity
  ]

  /** The position of a research id in `RESEARCH_ORDER`: every id is listed. */
  function ResearchIndex(r: ResearchId): (i: nat)
    ensures i < |ResearchOrder| && ResearchOrder[i] == r
  {
    match r
    case Mining2x => 0
    case FabSpeed2x => 1
    case FlopsMult2x => 2
    case Tier2Minerals => 3
    case Node65nm => 4
    case Node45nm => 5
    case Mining5x => 6
    case FabSpeed5x => 7
    case FlopsMult5x => 8
    case Tier3Minerals => 9
    case Node28nm => 10
    case Node14nm => 11
    case AutoMiner => 12
    case AutoFab => 13
    case Tier4Minerals => 14
    case Node7nm => 15
    case Node5nm => 16
    case Datacenter => 17
    case FlopsMult10x => 18
    case Tier5Minerals => 19
    case Node3nm => 20
    case QuantumComputing => 21
    case Singularity => 22
  }

  /** `RESEARCH_ORDER` lists all 23 research ids once each. */
  lemma ResearchOrderIsComplete()
    ensures |ResearchOrder| == 23
    ensures forall i, j :: 0 <= i < j < |ResearchOrder| ==> ResearchOrder[i] != ResearchOrder[j]
    ensures forall r :: r in ResearchOrder
  {
    forall r: ResearchId ensures r in ResearchOrder {
      var i := ResearchIndex(r);
    }
  }

  /** A chain `c[0] → c[1] → …` in which each element is a prerequisite of the one before. */
  ghost predicate PrerequisiteChain(c: seq<ResearchId>)
  {
    forall i :: 0 <= i < |c| - 1 ==> c[i + 1] in Research(c[i]).prerequisites
  }

  /** Following prerequisites strictly descends `RESEARCH_ORDER`, one step per link at least. */
  lemma {:induction false} PrerequisiteChainDescends(c: seq<ResearchId>)
    requires |c| >= 1 && PrerequisiteChain(c)
    ensures ResearchIndex(c[|c| - 1]) + (|c| - 1) <= ResearchIndex(c[0])
  {
    if |c| > 1 {
      var tail := c[1..];
      assert PrerequisiteChain(tail) by {
        forall i | 0 <= i < |tail| - 1 ensures tail[i + 1] in Research(tail[i]).prerequisites {
          assert tail[i] == c[i + 1] && tail[i + 1] == c[i + 2];
        }
      }
      PrerequisiteChainDescends(tail);
      assert c[1] in Research(c[0]).prerequisites;
      PrerequisitesComeEarlier(c[0]);
    }
  }

  /** The prerequisite relation is acyclic: no chain of prerequisites leads back to where it started. */
  lemma PrerequisitesAreAcyclic(c: seq<ResearchId>)
    requires |c| >= 2 && PrerequisiteChain(c)
    ensures c[|c| - 1] != c[0]
  {
    PrerequisiteChainDescends(c);
  }

  /** The research that unlocks a node other than the starting one. */
  function NodeResearch(n: NodeId): (r: ResearchId)
    requires n != Nm90
    ensures Research(r).category == Nodes
    ensures Research(r).effects == [UnlockNode(n)]
    ensures Research(r).cost == Node(n).unlockCost
    ensures n == Nm65 ==> Research(r).prerequisites == []
  {
    match n
    case Nm65 => Node65nm
    case Nm45 => Node45nm
    case Nm28 => Node28nm
    case Nm14 => Node14nm
    case Nm7 => Node7nm
    case Nm5 => Node5nm
    case Nm3 => Node3nm
  }

  /** Each node research after 65nm requires exactly the research of the preceding node in `NODE_ORDER`. */
  lemma NodeResearchFollowsNodeOrder(n: NodeId)
    requires NodeIndex(n) >= 2
    ensures Research(NodeResearch(n)).prerequisites == [NodeResearch(NodeOrder[NodeIndex(n) - 1])]
  {
  }

  /** Node unlocks happen only through the node researches. */
  lemma OnlyNodeResearchUnlocksNodes(id: ResearchId, e: Effect)
    requires e in Research(id).effects && e.UnlockNode?
    ensures e.node != Nm90 && id == NodeResearch(e.node)
  {
  }

  /** `RESEARCH_BY_CATEGORY[c]` */
  function ResearchByCategory(c: ResearchCategory): seq<ResearchId>
  {
    match c
    case Nodes => [Node65nm, Node45nm, Node28nm, Node14nm, Node7nm, Node5nm, Node3nm]
    case Efficiency => [Mining2x, Mining5x, FabSpeed2x, FabSpeed5x, FlopsMult2x, FlopsMult5x, FlopsMult10x]
    case Automation => [AutoMiner, AutoFab, Datacenter]
    case Exotic => [Tier2Minerals, Tier3Minerals, Tier4Minerals, Tier5Minerals, QuantumComputing, Singularity]
  }

  /** Every id listed under a category has that category, and none is listed twice. */
  lemma ResearchByCategoryIsSound(c: ResearchCategory)
    ensures forall i :: 0 <= i < |ResearchByCategory(c)| ==> Research(ResearchByCategory(c)[i]).category == c
    ensures forall i, j :: 0 <= i < j < |ResearchByCategory(c)| ==> ResearchByCategory(c)[i] != ResearchByCategory(c)[j]
  {
  }

  /** Every id is listed under its own category. */
  lemma ResearchIsFiled(id: ResearchId)
    ensures id in ResearchByCategory(Research(id).category)
  {
  }

  /** `RESEARCH_BY_CATEGORY` files every id under its own category and under no other. */
  lemma ResearchByCategoryPartitions(id: ResearchId, c: ResearchCategory)
    ensures id in ResearchByCategory(c) <==> Research(id).category == c
  {
    ResearchIsFiled(id);
    ResearchByCategoryIsSound(c);
  }
}
