/** The mineral table (src/data/minerals.ts). */
module Minerals {
  import opened Types

  /** The part of `MineralDef` the simulation reads; names, symbols and colours are display data. */
  datatype MineralDef = MineralDef(tier: int, baseRate: real)

  /** `MINERALS[id]`: every tier lies in 1..5 and every base rate in (0, 1]. */
  function Mineral(id: MineralId): (d: MineralDef)
    ensures 1 <= d.tier <= 5
    ensures 0.0 < d.baseRate <= 1.0
    ensures d.baseRate == 1.0 <==> id == Silicon
  {
    match id
    case Silicon   => MineralDef(1, 1.0)
    case Copper    => MineralDef(1, 0.8)
    case Aluminum  => MineralDef(1, 0.6)
    case Gold      => MineralDef(2, 0.3)
    case Silver    => MineralDef(2, 0.4)
    case Tin       => MineralDef(2, 0.5)
    case Lithium   => MineralDef(3, 0.15)
    case Cobalt    => MineralDef(3, 0.12)
    case Tantalum  => MineralDef(3, 0.1)
    case Neodymium => MineralDef(4, 0.05)
    case Gallium   => MineralDef(4, 0.04)
    case Indium    => MineralDef(4, 0.03)
    case Germanium => MineralDef(5, 0.01)
    case Hafnium   => MineralDef(5, 0.005)
  }

  /** The tier of a mineral. */
  function MineralTier(id: MineralId): int
  {
    Mineral(id).tier
  }

  /** `MINERAL_ORDER`, the display order. */
  const MineralOrder: seq<MineralId> := [
    Silicon, Copper, Aluminum,
    Gold, Silver, Tin,
    Lithium, Cobalt, Tantalum,
    Neodymium, Gallium, Indium,
    Germanium, Hafnium
  ]

  /** `TIER_1_MINERALS`, the minerals unlocked in a new game. */
  const Tier1Minerals: seq<MineralId> := [Silicon, Copper, Aluminum]

  /** The position of a mineral in `MINERAL_ORDER`: every mineral is listed. */
  function MineralIndex(m: MineralId): (i: nat)
    ensures i < |MineralOrder| && MineralOrder[i] == m
  {
    match m
    case Silicon   => 0
    case Copper    => 1
    case Aluminum  => 2
    case Gold      => 3
    case Silver    => 4
    case Tin       => 5
    case Lithium   => 6
    case Cobalt    => 7
    case Tantalum  => 8
    case Neodymium => 9
    case Gallium   => 10
    case Indium    => 11
    case Germanium => 12
    case Hafnium   => 13
  }

  /** The display order lists every mineral. */
  lemma MineralOrderListsAll()
    ensures forall m :: m in MineralOrder
  {
    forall m: MineralId ensures m in MineralOrder {
      var i := MineralIndex(m);
    }
  }

  /** The display order lists all fourteen minerals once each, by non-decreasing tier. */
  lemma MineralOrderIsComplete()
    ensures |MineralOrder| == 14
    ensures forall m :: m in MineralOrder
    ensures forall i, j :: 0 <= i < j < |MineralOrder| ==> MineralOrder[i] != MineralOrder[j]
    ensures forall i, j :: 0 <= i <= j < |MineralOrder| ==>
      Mineral(MineralOrder[i]).tier <= Mineral(MineralOrder[j]).tier
  {
    MineralOrderListsAll();
  }

  /** `TIER_1_MINERALS` is exactly the set of tier-1 minerals. */
  lemma Tier1MineralsAreTierOne(m: MineralId)
    ensures m in Tier1Minerals <==> Mineral(m).tier == 1
  {
  }

  /** Silicon has the largest base rate of all minerals. */
  lemma SiliconMinesFastest(m: MineralId)
    ensures Mineral(m).baseRate <= Mineral(Silicon).baseRate
  {
  }
}
