# chip-empire: a verified model of the game core

chip-empire is an idle game. The player mines minerals and fabricates wafers and chips from them. Chips produce FLOPS. FLOPS pay for research, which unlocks process nodes and mineral tiers, raises multipliers and enables auto-miners. While the game is closed, a catch-up summary is computed and credited when the player comes back.

This project models the game core in Dafny:

- **The content tables** (`src/data/*.ts`): minerals, wafers, chips, process nodes, research and auto-miners. Each is a total function over an enumerated id, with its display order as a constant. The modules are `Minerals`, `Wafers`, `Chips`, `Nodes`, `ResearchTree` and `Automations`.
- **The resource engine** (`src/engine/resources.ts`), in module `Resources`. It covers mineral stocks, the mining yield and the unit choice of `formatNumber`.
- **The fabrication engine** (`src/engine/fabrication.ts`), in module `Fabrication`. It covers:
  - affordability;
  - cost deduction (loop methods proved against `Deduct`);
  - crediting crafted items;
  - the FLOPS rate (a loop method proved against `FlopsRate`);
  - job timing;
  - the sequential node-unlock rule.
- **The store** (`src/store/gameStore.ts`), in two layers:
  - Module `Game` holds the game record as a value, `GameState`, and every store action as a transition function on it. The loops of the store are methods proved equal to those functions:
    - auto-mining in `tick`;
    - `calculateOfflineProgress`;
    - the crediting loop of `dismissOfflineProgress`;
    - the unlock loops of the research effects.
  - Module `GameStore` holds class `Store`:
    - The class has one field per store field.
    - Its methods are the store's actions. Each replaces the record through `Set`, which plays the role of zustand's `set`.
    - Each method's postcondition ties the new record to the matching `Game` function of the old record.
    - Each method keeps the store invariant `Valid()`.
    - `BuyResearch` folds the research effects in a loop (`FoldEffects`).
- **Module `GameInvariant`** states the invariant every reachable store keeps and proves each action preserves it. The invariant says:
  - every mineral, wafer, chip and miner of the tables has its entry;
  - every stock has `0 <= amount <= total`;
  - mining power, FLOPS and the FLOPS rate are non-negative;
  - every multiplier is at least 1;
  - each research is completed once, and `totalSpent` is their summed cost;
  - the unlocked nodes are a prefix of `NODE_ORDER` that ends at the current node and matches the completed node researches;
  - a pending offline summary credits nothing negative.
- **Module `GameProperties`** holds the behaviour of each action:
  - guards stated as if-and-only-if;
  - exact charges and credits;
  - frames ("nothing else changes");
  - the additivity of ticks;
  - the agreement between the offline summary and a live tick.

`Decimal` (break_eternity.js) is modelled as an exact `real`. `Date.now()` becomes a parameter `now`, in milliseconds. Ids are enumerated datatypes. A stock is `Stock(amount, total, unlocked)`. Recipes and extra costs are maps from id to count.

Where the code differs from what its documentation suggests, the model follows the code:

- There is no crafting queue. A craft start is refused while any job is active.
- An `unlock_node` effect leaves `flopsPerSecond` as it was. It is not recomputed at the new node's efficiency until the next chip completes or a FLOPS multiplier is bought.
- When `tick` finds a finished job, it only completes the job. It does no production and does not move `lastTick`.
- The resume rule replaces a pending offline summary with the new one. It does not add to it.
- `getCraftingProgress` clamps only from above. Before `startedAt` it is negative.
- `canCraft*` does not look at the unlocked flags of wafers and chips.
- `unlock_feature` acts only for `auto_miner`.

## Model

| member | source | states |
|---|---|---|
| Minerals.Mineral | src/data/minerals.ts:3-27 | every tier lies in 1..5; every base rate lies in (0, 1]; the rate is 1 exactly for silicon |
| Minerals.MineralIndex | src/data/minerals.ts:29-35 | every mineral has a position in `MINERAL_ORDER` |
| Minerals.MineralOrderListsAll | src/data/minerals.ts:29-35 | every mineral is listed in `MINERAL_ORDER` |
| Minerals.MineralOrderIsComplete | src/data/minerals.ts:29-35 | `MINERAL_ORDER` lists all 14 minerals exactly once, in non-decreasing tier |
| Minerals.Tier1MineralsAreTierOne | src/data/minerals.ts:37 | `TIER_1_MINERALS` is exactly the set of tier-1 minerals |
| Minerals.SiliconMinesFastest | src/data/minerals.ts:5-26 | no mineral has a higher base rate than silicon |
| Wafers.Wafer | src/data/wafers.ts:3-59 | every recipe needs silicon; every recipe cost and craft time is positive |
| Wafers.WaferIndex | src/data/wafers.ts:61 | a wafer's position in `WAFER_ORDER` is its tier minus one |
| Wafers.WaferOrderIsComplete | src/data/wafers.ts:61 | `WAFER_ORDER` lists the four wafers exactly once |
| Wafers.HigherTierCostsMore | src/data/wafers.ts:3-59 | a higher-tier wafer takes strictly longer and needs strictly more silicon |
| Wafers.BasicWaferUsesTier1 | src/data/wafers.ts:4-15 | the basic wafer uses only tier-1 minerals, which a new game has unlocked |
| Nodes.Node | src/data/nodes.ts:4-77 | every node has efficiency at least 1 and a non-negative unlock cost |
| Nodes.NodeIndex | src/data/nodes.ts:79 | every node has a position in `NODE_ORDER` |
| Nodes.NodeOrderIsComplete | src/data/nodes.ts:79 | `NODE_ORDER` lists the 8 nodes exactly once |
| Nodes.StartingNode | src/data/nodes.ts:5-13 | the first node is 90nm; it costs 0 and has efficiency 1 |
| Nodes.LaterNodesCostMoreAndYieldMore | src/data/nodes.ts:4-79 | along `NODE_ORDER`, efficiency and unlock cost strictly increase |
| Nodes.WaferNode | src/data/nodes.ts:10-73 | every wafer is listed by exactly one node's `unlocksWafers` |
| Chips.FlopsPerChip | src/data/chips.ts:4-167 | every chip's FLOPS rate is positive |
| Chips.Chip | src/data/chips.ts:4-167 | every chip has a positive craft time and FLOPS rate, a wafer cost of at least 1, and positive extra costs |
| Chips.ChipIndex | src/data/chips.ts:170-176 | every chip has a position in `CHIP_ORDER` |
| Chips.ChipOrderIsComplete | src/data/chips.ts:170-176 | `CHIP_ORDER` lists all 12 chips exactly once |
| Chips.StarterChipsAreThe90nmChips | src/data/chips.ts:178 | `STARTER_CHIPS` is exactly the set of 90nm chips |
| Chips.ChipNodesAreConsistent | src/data/chips.ts:4-167 | a chip's own node unlocks it, and its wafer is unlocked by a node no later than the chip's |
| Chips.ChipUnlockedOnlyByItsNode | src/data/nodes.ts:9-72 | a node lists a chip in `unlocksChips` exactly when it is the chip's own node |
| Chips.HigherTierYieldsMore | src/data/chips.ts:4-167 | within a category, a higher tier yields strictly more FLOPS |
| ResearchTree.Research | src/data/research.ts:4-238 | every research has a positive cost and exactly one effect |
| ResearchTree.ResearchCost | src/data/research.ts:4-238 | every research cost is positive |
| ResearchTree.PrerequisitesComeEarlier | src/data/research.ts:241-260 | every prerequisite comes before its dependent in `RESEARCH_ORDER` |
| ResearchTree.MultipliersExceedOne | src/data/research.ts:118-184 | every multiplier effect's value exceeds 1 |
| ResearchTree.ResearchIndex | src/data/research.ts:241-260 | every research has a position in `RESEARCH_ORDER` |
| ResearchTree.ResearchOrderIsComplete | src/data/research.ts:241-260 | `RESEARCH_ORDER` lists all 23 researches exactly once |
| ResearchTree.PrerequisiteChainDescends | src/data/research.ts:4-260 | following prerequisites moves at least one place earlier in `RESEARCH_ORDER` per link |
| ResearchTree.PrerequisitesAreAcyclic | src/data/research.ts:4-238 | no chain of prerequisites returns to where it started |
| ResearchTree.NodeResearch | src/data/research.ts:5-73 | each node's research is filed under nodes, has the single effect of unlocking that node and costs that node's unlock cost; the 65nm research needs nothing |
| ResearchTree.NodeResearchFollowsNodeOrder | src/data/research.ts:15-73 | each later node's research requires exactly the previous node's research |
| ResearchTree.OnlyNodeResearchUnlocksNodes | src/data/research.ts:4-238 | an `unlock_node` effect appears only in that node's research, and never for 90nm |
| ResearchTree.ResearchByCategoryIsSound | src/data/research.ts:262-267 | each category list holds only researches of that category, each once |
| ResearchTree.ResearchIsFiled | src/data/research.ts:262-267 | every research is filed under its own category |
| ResearchTree.ResearchByCategoryPartitions | src/data/research.ts:262-267 | a research is in a category's list exactly when it has that category |
| Automations.Miner | src/data/automations.ts:4-55 | every miner has a positive rate and base cost, and a cost multiplier above 1 |
| Automations.MinerTargetsAreDistinct | src/data/automations.ts:10-50 | no miner lists a target twice |
| Automations.AutoMinerIndex | src/data/automations.ts:57 | a miner's position in `AUTO_MINER_ORDER` is its tier minus one |
| Automations.AutoMinerOrderIsComplete | src/data/automations.ts:57 | `AUTO_MINER_ORDER` lists the five miners exactly once, in tier order 1..5 |
| Automations.LaterTiersExtendEarlier | src/data/automations.ts:4-57 | each tier's targets extend the previous tier's; rate and base cost strictly increase |
| Automations.CostIsGeometric | src/data/automations.ts:60-62 | the cost of the first unit is the base cost, and each further unit multiplies it by the cost multiplier |
| Automations.PowAtLeastOne | src/data/automations.ts:61 | a power of a base at least 1 is at least 1 |
| Automations.CostStrictlyIncreases | src/data/automations.ts:60-62 | owning more makes the next unit strictly dearer |
| Resources.CreateMineralState | src/engine/resources.ts:5-11 | a new stock is 0/0 with the given gate, and sound |
| Resources.AddMineral | src/engine/resources.ts:13-19 | the gain lands in `amount` and `total`; the gate and the spent part are unchanged; a non-negative gain keeps a stock sound |
| Resources.AddMineralTwice | src/engine/resources.ts:13-19 | two credits in a row are one credit of their sum |
| Resources.MineMineral | src/engine/resources.ts:21-25 | a tap yields between 0 and the power, is positive for a positive power, and equals the power for silicon |
| Resources.MiningSiliconYieldsOne | src/engine/resources.ts:21-25 | with power 1, mining silicon yields exactly 1 |
| Resources.Thousands | src/engine/resources.ts:29-33 | every power of 1000 is at least 1 |
| Resources.NumberNotation | src/engine/resources.ts:27-35 | plain below 1000 (one fraction digit below 10); suffix rank r exactly when 1000^r <= n < 1000^(r+1); exponential from 10^18 |
| Fabrication.ChipNeedsItsNode | src/engine/fabrication.ts:37-40 | a chip whose node comes later in `NODE_ORDER` than the current node cannot be crafted, whatever is held |
| Fabrication.Deduct | src/engine/fabrication.ts:62-83 | deducting costs keeps the same keys |
| Fabrication.DeductKeepsStocksSound | src/engine/fabrication.ts:62-83 | when the stocks afford the costs, each stock stays sound; costed amounts drop by exactly cost × n; totals, gates and uncosted stocks are unchanged |
| Fabrication.SubtractCosts | src/engine/fabrication.ts:70-80 | the deduction loop computes `Deduct` |
| Fabrication.DeductWaferCosts | src/engine/fabrication.ts:62-83 | charges exactly the wafer's recipe × amount |
| Fabrication.DeductChipCosts | src/engine/fabrication.ts:86-121 | charges exactly the chip's wafers and extra minerals × amount, and nothing else |
| Fabrication.CraftChipKeepsStocksSound | src/engine/fabrication.ts:86-121 | after a passing `canCraftChip`, no mineral or wafer amount becomes negative |
| Fabrication.CreateWaferState | src/engine/fabrication.ts:124-130 | a new wafer stock is 0/0 with the given gate |
| Fabrication.CreateChipState | src/engine/fabrication.ts:133-139 | a new chip stock is 0/0 with the given gate |
| Fabrication.AddWafer | src/engine/fabrication.ts:142-149 | `amount` and `total` rise by exactly n; the gate is kept; soundness is kept |
| Fabrication.AddChip | src/engine/fabrication.ts:152-159 | `amount` and `total` rise by exactly n; the gate is kept; soundness is kept |
| Fabrication.FlopsOverExtend | src/engine/fabrication.ts:168-173 | one more chip in the sum adds that chip's contribution |
| Fabrication.CalculateFlopsPerSecond | src/engine/fabrication.ts:162-176 | the accumulation loop computes `FlopsRate`, the sum of FLOPS rate × amount × efficiency over the chips held |
| Fabrication.FlopsOverNothingHeld | src/engine/fabrication.ts:168-173 | a sum over chips none of which is held is 0 |
| Fabrication.FlopsOverIsLinear | src/engine/fabrication.ts:168-173 | the sum is linear in the efficiency |
| Fabrication.FlopsOverNonNegative | src/engine/fabrication.ts:168-173 | the sum is non-negative for a non-negative efficiency |
| Fabrication.FlopsRateShape | src/engine/fabrication.ts:162-176 | the rate is 0 when no chip is held, linear in efficiency, and non-negative |
| Fabrication.FlopsRateMonotone | src/engine/fabrication.ts:162-176 | a higher efficiency never lowers the rate |
| Fabrication.FlopsOverAfterCredit | src/engine/fabrication.ts:168-173 | crediting n chips of one kind adds n × that chip's FLOPS × efficiency to a sum that lists it once |
| Fabrication.CreditedChipFlops | src/engine/fabrication.ts:169-172 | the credited chip's contribution grows by n × its FLOPS × efficiency |
| Fabrication.FlopsRateAfterCredit | src/engine/fabrication.ts:162-176 | crediting n chips raises the rate by exactly n × that chip's FLOPS × efficiency |
| Fabrication.GetCraftingProgress | src/engine/fabrication.ts:184-187 | progress never exceeds 1; it is 1 exactly when the job is complete; it is non-negative exactly from `startedAt` |
| Fabrication.CanUnlockOnlyNextNode | src/engine/fabrication.ts:190-209 | when the first k nodes are unlocked, the only node that can be unlocked is the (k+1)-th |
| Fabrication.FlopsUnitRank | src/engine/fabrication.ts:212-221 | the unit rank shows the value in [1, 1000), except that FLOPS has no lower bound and ZFLOPS no upper bound |
| Game.OrElse | src/store/gameStore.ts:418 | JavaScript's `x \|\| fallback`: the fallback replaces exactly 0 |
| Game.InitialState | src/store/gameStore.ts:58-96 | every mineral, wafer, chip and miner has its entry and starts at 0/0 (0 owned); only tier-1 minerals, the basic wafer, the starter chips and the first drill are unlocked; mining power and every multiplier are 1, FLOPS and the FLOPS rate are 0, no research is completed and nothing is spent; only 90nm is unlocked and current; `lastTick` is `now`; no job, no summary, no automation |
| Game.UnlockAll | src/store/gameStore.ts:380-392 | sets exactly the gates of the listed entries present |
| Game.UnlockTier | src/store/gameStore.ts:404-414 | sets exactly the gates of the present minerals of the tier |
| Game.Credited | src/store/gameStore.ts:503-511 | crediting keeps the mineral keys |
| Game.OverExtend | src/store/gameStore.ts:534-549 | one more miner in the fold adds its feed and its yield |
| Game.UnfedYieldsNothing | src/store/gameStore.ts:534-549 | miners that feed none of a mineral yield none of it |
| Game.CreditTargets | src/store/gameStore.ts:540-548 | the inner tick loop credits the production to every unlocked target and to nothing else |
| Game.AutoMine | src/store/gameStore.ts:531-550 | the auto-mining loop of `tick` credits exactly `Gains`, the yield of every owned miner to every unlocked mineral it targets |
| Game.SumTargets | src/store/gameStore.ts:124-129 | the inner offline loop adds the production to the entry of every unlocked target and creates entries only for them |
| Game.OfflineGains | src/store/gameStore.ts:115-131 | the offline loop computes exactly `Gains` |
| Game.CalculateOfflineProgress | src/store/gameStore.ts:114-135 | the summary is the gains of the miners (when automation is on), the FLOPS rate × seconds, and the duration |
| Game.CreditOffline | src/store/gameStore.ts:502-511 | the dismiss loop computes exactly `Credited` |
| Game.UnlockListed | src/store/gameStore.ts:383-392 | the unlock loop of `unlock_node` computes exactly `UnlockAll` |
| Game.UnlockMineralTier | src/store/gameStore.ts:404-414 | the unlock loop of `unlock_minerals` computes exactly `UnlockTier` |
| Game.UnlockTierAlong | src/store/gameStore.ts:407-411 | walking an id list sets the gate of the listed minerals of the tier and changes nothing else |
| GameInvariant.InitialStateSatisfiesInv | src/store/gameStore.ts:79-96 | a new game satisfies the invariant |
| GameInvariant.MinePreservesInv | src/store/gameStore.ts:245-257 | `mine` keeps the invariant |
| GameInvariant.UnlockMineralPreservesInv | src/store/gameStore.ts:259-268 | `unlockMineral` keeps the invariant |
| GameInvariant.StartCraftWaferPreservesInv | src/store/gameStore.ts:270-289 | `startCraftWafer` keeps the invariant; in particular no amount becomes negative |
| GameInvariant.StartCraftChipPreservesInv | src/store/gameStore.ts:291-311 | `startCraftChip` keeps the invariant; in particular no amount becomes negative |
| GameInvariant.CompleteCraftingPreservesInv | src/store/gameStore.ts:313-341 | `completeCrafting` keeps the invariant, including a non-negative FLOPS rate |
| GameInvariant.CancelCraftingPreservesInv | src/store/gameStore.ts:343 | `cancelCrafting` keeps the invariant |
| GameInvariant.BuyResearchIsOneEffect | src/store/gameStore.ts:358-452 | buying a research is paying and then applying its single effect |
| GameInvariant.NodeResearchMeetsCanUnlockNode | src/engine/fabrication.ts:190-209 | when the invariant holds, a purchasable node research satisfies `canUnlockNode` for its node |
| GameInvariant.NodeEffectPreservesInv | src/store/gameStore.ts:375-403 | a purchasable node research's `unlock_node` effect, applied after payment, keeps the invariant |
| GameInvariant.EffectKeepsInv | src/store/gameStore.ts:373-449 | every effect other than `unlock_node`, with any multiplier above 1, applied to a valid record keeps the invariant |
| GameInvariant.BuyResearchPreservesInv | src/store/gameStore.ts:358-452 | `buyResearch` keeps the invariant: each research is completed once, `totalSpent` is their summed cost, FLOPS stay non-negative, multipliers stay at least 1, nodes unlock in order |
| GameInvariant.AutoMinerCostPositive | src/store/gameStore.ts:463-468 | the next miner always costs something |
| GameInvariant.BuyAutoMinerPreservesInv | src/store/gameStore.ts:470-497 | `buyAutoMiner` keeps the invariant; silicon never goes negative |
| GameInvariant.TickPreservesInv | src/store/gameStore.ts:520-559 | `tick` keeps the invariant |
| GameInvariant.ResumePreservesInv | src/store/gameStore.ts:576-588 | the resume rule keeps the invariant; a stored summary credits nothing negative |
| GameInvariant.DismissPreservesInv | src/store/gameStore.ts:499-518 | `dismissOfflineProgress` keeps the invariant |
| GameProperties.MineCreditsOneTap | src/store/gameStore.ts:245-257 | a locked mineral is left alone; otherwise exactly power × base rate × multiplier is added to its amount and total, and nothing else changes |
| GameProperties.UnlockMineralSetsGate | src/store/gameStore.ts:259-268 | only the gate of that mineral changes |
| GameProperties.DurationTimesSpeed | src/store/gameStore.ts:277 | the job duration times the fab speed is the craft time × amount |
| GameProperties.StartCraftWaferRefusedIff | src/store/gameStore.ts:270-274 | the state is unchanged exactly when a job is active or the recipe is unaffordable |
| GameProperties.StartCraftWaferCharges | src/store/gameStore.ts:276-288 | an accepted start lowers each recipe mineral by exactly cost × amount, keeps totals, gates and soundness, and starts the job at `now` with the scaled duration; nothing else changes |
| GameProperties.StartCraftChipRefusedIff | src/store/gameStore.ts:291-295 | the state is unchanged exactly when a job is active or `canCraftChip` fails |
| GameProperties.StartCraftChipCharges | src/store/gameStore.ts:297-310 | an accepted start charges exactly the chip's wafers and extra minerals, keeps totals and soundness, and starts the job; nothing else changes |
| GameProperties.CompleteCraftingWaits | src/store/gameStore.ts:314 | with no job, or one not yet finished, nothing changes |
| GameProperties.CompleteWaferCredits | src/store/gameStore.ts:318-325 | a finished wafer job adds its amount to that wafer's amount and total and clears the job; nothing else changes |
| GameProperties.CompleteChipCredits | src/store/gameStore.ts:326-340 | a finished chip job adds its amount to that chip, clears the job and recomputes the FLOPS rate at the current node; nothing else changes |
| GameProperties.CancelRefundsNothing | src/store/gameStore.ts:343 | cancelling clears the job and refunds nothing |
| GameProperties.EffectFrame | src/store/gameStore.ts:373-449 | no effect touches FLOPS, research, the clock, the job, the miners, the summary or the mining power |
| GameProperties.BuyResearchRefusedIff | src/store/gameStore.ts:345-362 | the state is unchanged exactly when `canBuyResearch` fails |
| GameProperties.BuyResearchPays | src/store/gameStore.ts:364-371 | FLOPS fall by the cost, the id is appended exactly once, `totalSpent` rises by the cost, FLOPS plus `totalSpent` is conserved, and the clock, job, miners, summary and power are unchanged |
| GameProperties.EffectCompounds | src/store/gameStore.ts:415-441 | a multiplier effect multiplies its multiplier and leaves the others; a FLOPS multiplier recomputes the rate |
| GameProperties.BuyResearchCompounds | src/store/gameStore.ts:358-452 | buying a multiplier research multiplies exactly its multiplier by the effect value, and a FLOPS multiplier recomputes the rate |
| GameProperties.ScalingUpNeverLowers | src/data/research.ts:118-184 | scaling a non-negative value by at least 1 never lowers it |
| GameProperties.MultipliersOnlyGrow | src/store/gameStore.ts:415-441 | under the invariant, buying research never lowers a multiplier |
| GameProperties.UnlockNodeEffect | src/store/gameStore.ts:375-403 | an unlocked node is a no-op; otherwise the node is appended and made current, and exactly the listed wafers and chips gain their gate, with amounts unchanged |
| GameProperties.NodeResearchUnlocksNextNode | src/store/gameStore.ts:375-403 | under the invariant, buying a node's research unlocks exactly the next node of `NODE_ORDER` and makes it current |
| GameProperties.CanBuyAutoMinerWhenComplete | src/store/gameStore.ts:454-461 | on a valid state `CanBuyAutoMiner` is exactly the source's check (automation researched, miner unlocked, silicon covering the price), and the next tier always has its entry |
| GameProperties.BuyAutoMinerRefusedIff | src/store/gameStore.ts:454-471 | the state is unchanged exactly when `canBuyAutoMiner` fails |
| GameProperties.BuyAutoMinerPays | src/store/gameStore.ts:473-477 | silicon's amount falls by the price, its total and gate stay, and no other mineral or field but the miners changes |
| GameProperties.BuyAutoMinerEffect | src/store/gameStore.ts:479-496 | one more unit is owned; the next tier unlocks exactly when ten or more are owned; no tier is ever re-locked |
| GameProperties.NextPriceRises | src/store/gameStore.ts:463-497 | after a purchase, the next unit costs exactly the cost multiplier times more |
| GameProperties.TickGuards | src/store/gameStore.ts:522-529 | under 0.1 s nothing changes; a finished job is only completed |
| GameProperties.TickProduces | src/store/gameStore.ts:531-558 | each mineral gains exactly the yield of the owned miners that target it (when automation is on and it is unlocked); FLOPS grow by rate × seconds; `lastTick` moves to `now`; nothing else changes |
| GameProperties.YieldOverIsAdditive | src/store/gameStore.ts:538 | the yield over two stretches is the yield over their sum |
| GameProperties.GainsFollowGates | src/store/gameStore.ts:540-542 | the gains depend only on which minerals are unlocked |
| GameProperties.GainsAdd | src/store/gameStore.ts:534-549 | the gains of two stretches add up to the gains of one |
| GameProperties.CreditedTwice | src/store/gameStore.ts:543-547 | crediting two gain maps in turn is crediting their sum |
| GameProperties.CreditedKeepsGates | src/store/gameStore.ts:503-511 | crediting keeps every key and gate |
| GameProperties.CreditedNothing | src/store/gameStore.ts:503-511 | crediting no gains changes nothing |
| GameProperties.StretchesAdd | src/store/gameStore.ts:538-552 | FLOPS earned and the mining factor are additive in time |
| GameProperties.MiningTwice | src/store/gameStore.ts:531-550 | two mining stretches in a row equal one stretch of their summed length |
| GameProperties.TickMiningTwice | src/store/gameStore.ts:531-550 | two ticks' mining equals one tick's over the summed time, with or without automation |
| GameProperties.TickTwiceIsOneTick | src/store/gameStore.ts:520-559 | with each stretch at least 0.1 s and no job finishing, two ticks equal one tick to the later time |
| GameProperties.OfflineMatchesTick | src/store/gameStore.ts:114-135 | resuming after more than 60 s and dismissing the summary gives the same state as one live tick over the same time |
| GameProperties.TickCreditsSummary | src/store/gameStore.ts:520-559 | a live tick credits exactly what the offline summary for that time would |
| GameProperties.DismissCreditsSummary | src/store/gameStore.ts:499-518 | resuming and dismissing credits the summary's minerals and FLOPS and moves `lastTick` to `now` |
| GameProperties.DismissShownSummary | src/store/gameStore.ts:581-582 | a non-empty summary is stored and then credited in full by dismissing |
| GameProperties.DismissEmptySummary | src/store/gameStore.ts:581-587 | an empty summary is not stored, and crediting it would change nothing |
| GameProperties.DismissCredits | src/store/gameStore.ts:499-518 | with no summary nothing changes; otherwise each mineral gains its summary amount, FLOPS gain the summary's, and the summary is cleared; nothing else changes |
| GameProperties.ResumeRule | src/store/gameStore.ts:576-588 | within 60 s or with no `lastTick` nothing changes; otherwise `lastTick` moves to `now` and a non-empty summary replaces the pending one |
| GameStore.Store.Set | src/store/gameStore.ts:245-562 | zustand's `set`: afterwards the store holds exactly the given record |
| GameStore.Store.constructor | src/store/gameStore.ts:240-243 | a new store holds `createInitialState()` and is valid |
| GameStore.Store.Reset | src/store/gameStore.ts:562 | `reset` restores the initial state and keeps the store valid |
| GameStore.Store.Mine | src/store/gameStore.ts:245-257 | the store moves to `Mine` of the old record and stays valid |
| GameStore.Store.UnlockMineral | src/store/gameStore.ts:259-268 | the store moves to `UnlockMineral` of the old record and stays valid |
| GameStore.Store.StartCraftWafer | src/store/gameStore.ts:270-289 | the store moves to `StartCraftWafer` of the old record and stays valid |
| GameStore.Store.StartCraftChip | src/store/gameStore.ts:291-311 | the store moves to `StartCraftChip` of the old record and stays valid |
| GameStore.Store.CompleteCrafting | src/store/gameStore.ts:313-341 | the store moves to `CompleteCrafting` of the old record and stays valid |
| GameStore.Store.CancelCrafting | src/store/gameStore.ts:343 | the store moves to `CancelCrafting` of the old record and stays valid |
| GameStore.Store.BuyResearch | src/store/gameStore.ts:358-452 | the store moves to `BuyResearch` of the old record and stays valid |
| GameStore.Store.GetAutoMinerCost | src/store/gameStore.ts:463-468 | the next unit never costs less than the base cost |
| GameStore.Store.BuyAutoMiner | src/store/gameStore.ts:470-497 | the store moves to `BuyAutoMiner` of the old record and stays valid |
| GameStore.Store.DismissOfflineProgress | src/store/gameStore.ts:499-518 | the store moves to `Dismiss` of the old record and stays valid |
| GameStore.Store.Tick | src/store/gameStore.ts:520-559 | the store moves to `Tick` of the old record and stays valid |
| GameStore.Store.Resume | src/store/gameStore.ts:576-588 | the store moves to `Resume` of the old record and stays valid |
| GameStore.FinishJob | src/store/gameStore.ts:313-341 | the record built for a finished job is `CompleteCrafting` of the old one: the job is cleared and the item credited, and for a chip the rate is recomputed at the current node |
| GameStore.FoldEffects | src/store/gameStore.ts:373-449 | the effect loop computes `ApplyEffects`, the effects applied in order to the paid draft |
| GameStore.ApplyResearchEffect | src/store/gameStore.ts:374-448 | one pass of the effect switch computes `ApplyEffect` |

## Left out

- `mergeState` and the persisted-save plumbing are not modelled. This covers `serialize`/`deserialize`, `localStorage`, the save name and version, and `ensureDecimal`. They depend on JSON and on the dynamic type checks of the Decimal library. The invariant `GameInvariant.Inv` states that every table entry is present, so on a valid record the model's presence tests always pass (`GameProperties.CanBuyAutoMinerWhenComplete`).
- The `setInterval` ticker is not modelled; `Tick(now)` is driven by the caller. `Date.now()` is the parameter `now`.
- `activeTab`/`setActiveTab` (UI state), the React components and the selectors are not modelled.
- Unknown ids are not modelled. Ids are enumerated types, so the "unknown id" branches (`if (!wafer)`, `if (!chip)`, `if (!research)`, `if (!def)`) cannot arise. A missing map entry is still handled wherever the store tests for one.
- Object iteration order is modelled as the order constants (`MINERAL_ORDER`, `CHIP_ORDER`, `AUTO_MINER_ORDER`). Every fold involved is a commutative sum or a per-entry update, so the order does not change the result.
- `Decimal` is an exact real. The rounding of `Math.pow` in the miner cost and of float arithmetic is not modelled, and neither are the digits `toFixed`/`toExponential` render.
- `Resources.NumberNotation`: covers only the unit choice of `formatNumber`, not the rendered digits.
- `Fabrication.FlopsUnitRank`: covers only the unit choice of `formatFlops`, not the rendered digits.
- The `unlock_minerals` effect does not create an entry for a mineral missing from the map (the source would create a partial one). Every mineral is always present in the model.
- Presence tests the source lacks: `Game.CanBuyAutoMiner` requires silicon to be present, and `Game.BuyAutoMiner` unlocks the next tier only when it has an entry; where an entry is missing the source would throw (`gameStore.ts:461`, `:488`). The invariant makes both tests always pass, so they change nothing on valid states.
- A fab speed multiplier of 0 is excluded: `Game.StartCraftWafer` and `Game.StartCraftChip` require it to be positive, which the invariant guarantees (it stays at least 1).
- `Fabrication.GetCraftingProgress`: requires a positive duration. A job of amount 0 has duration 0, and the source would divide by zero on it; every job of amount at least 1 started with a positive multiplier has a positive duration.
- Craft amounts are `nat`: the source's `amount` is a `number` defaulting to 1, so negative and fractional amounts are not modelled. The only callers, `src/components/FabPanel.tsx:56` and `:129`, pass the default.
- The truthiness test on offline amounts in `dismissOfflineProgress` always passes, since Decimal values are objects. The model credits every entry.
- The `unlock_feature` values other than `auto_miner`, the crafting queue (`QueuedCraft`), auto-fab, the datacenter, quantum and singularity have no logic in the store, so the model has none either.
- `unlockedAt` in the wafer table is never read by the store and is not modelled.
- `Fabrication.ChipNeedsItsNode`: states only the node case of `canCraftChip` as a lemma. The wafer and extra-cost cases are the predicate's own conjuncts, used through `GameProperties.StartCraftChipRefusedIff`.
- `GameProperties.CompleteChipCredits`: states the new FLOPS rate as the recomputed rate of the new chips (`RecomputedRate`). The additive form, the old rate plus the new chips' share, is `Fabrication.FlopsRateAfterCredit`.
- `GameProperties.OfflineMatchesTick`: holds only when no summary is pending, `lastTick` is non-zero (the resume rule's own guard, `gameStore.ts:577`), the FLOPS rate is non-negative (which the invariant guarantees), no job finishes in between and the mining multiplier is non-zero. A pending summary is replaced, not added to. A zero multiplier counts as 1 offline (`|| 1`) but as 0 in `tick`.
