# NuclearCraft processor engine in Dafny

This project models the core of NuclearCraft's machine logic and proves
properties of it:

- **The processor cycle** (`IProcessor`). Each tick a processor either
  advances its progress by the speed multiplier and finishes as many cycles
  as the progress covers, or decays or resets its progress. Finishing a cycle
  checks whether every output slot and tank can take its product (VOID
  outputs are emptied and never block), consumes the inputs, produces the
  outputs, re-matches the recipe and carries the surplus time over. A
  processor that consumes inputs up front moves them into staging slots and
  tanks first. Slot changes, `clearAllSlots`, `clearAllTanks` and the
  processor's NBT record are modelled too.
  - Module `ProcessorSpec` gives each operation as a function of a
    `ProcState` value.
  - Class `ProcessorTile.Processor` holds the same state in fields. Its
    methods make the source's in-place edits with loops. Each method is
    proved to leave exactly the state the matching `ProcessorSpec` function
    gives.
- **The recipe handler** (`BasicRecipeHandler`), in module
  `BasicRecipeHandler`. It covers:
  - splitting `addRecipe` arguments into the four ingredient groups plus
    extras;
  - building ingredients and the arity check;
  - the extras fixer;
  - fluid-only factoring by the common factor;
  - the hash cache with shapeless permutation expansion (`PermutationHelper`);
  - the plain and "smart" input checks.
- **Tank selection** (`ITileFluid`), in module `TileFluid`. It covers:
  - first-eligible fill and drain;
  - the duplicate-avoiding `isNextToFill`;
  - clearing tanks;
  - the six-face connections and sorption toggling;
  - the tank settings written to and read from NBT, including the legacy
    `voidExcessFluidOutput` key.
- **Encoders and layout:**
  - block-state/metadata packing of the salt fission controller and of
    fission ports;
  - upgradable processors' slot and sorption-button arithmetic.
- **Recipe tables:** the decay generator's nine decay chains and the
  assembler's per-element TRISO recipes, registered through `addRecipe`.

Collaborators the code only calls are parameters of the model:
- the recipe lookup `getRecipeInfoFromInputs`;
- `RecipeHelper.hashMaterials` and `prepareMaterialListTuples`;
- `NCMath.hcf`;
- the ingredient builders;
- a recipe's own time and power;
- `OreDictHelper.oreExists`;
- the `NCConfig` settings.

Ingredients are values with a set of accepted resources, per-variant sizes
and a product stack. Item stacks are (item, count). Tanks are (fluid stack
option, capacity, filter). NBT compounds are maps from typed keys to tags.
Times and multipliers are exact reals.

## Model

| member | source | states |
|---|---|---|
| `ProcessorSpec.ProcessTime` | src/main/java/nc/tile/processor/IProcessor.java:118-120 | the process time is at least 1 and is the least such integer not below baseProcessTime / speedMultiplier (max(1, ceil(...))) |
| `ProcessorSpec.ProcessPower` | src/main/java/nc/tile/processor/IProcessor.java:122-124 | the process power is the ceiling of basePower x powerMultiplier: not below it and less than one above it |
| `ProcessorSpec.ProcessEnergyIsTimeTimesPower` | src/main/java/nc/tile/processor/IProcessor.java:118-128 | getProcessEnergy equals getProcessTime times getProcessPower for every time, speed, power and multiplier |
| `ProcessorSpec.Ceil` | src/main/java/nc/tile/processor/IProcessor.java:119 | Math.ceil on exact reals: the least integer not below x |
| `ProcessorSpec.WithRecipeStats` | src/main/java/nc/tile/processor/IProcessor.java:36-52 | setRecipeStats: without a recipe the base time and power become the kind's defaults; only those two fields change; the base time is at least 1 |
| `ProcessorTile.Processor.SetRecipeStats` | src/main/java/nc/tile/processor/IProcessor.java:36-40 | the processor's new state is WithRecipeStats of the old one and the answer is whether a recipe is set |
| `ProcessorSpec.ItemAdmission` | src/main/java/nc/tile/processor/IProcessor.java:219-249 | the item output scan changes nothing but the inventory |
| `ProcessorSpec.ItemAdmissionCorrect` | src/main/java/nc/tile/processor/IProcessor.java:219-249 | the item scan answers true iff every item output from k on admits its product (ItemAdmits), and on true exactly the VOID output slots from k on have been emptied |
| `ProcessorSpec.ItemAdmissionEmptiesOnlyVoid` | src/main/java/nc/tile/processor/IProcessor.java:219-249 | whatever its answer, the item scan only ever empties VOID output slots and never fills a slot |
| `ProcessorSpec.FluidAdmission` | src/main/java/nc/tile/processor/IProcessor.java:255-285 | the fluid output scan changes nothing but the tanks |
| `ProcessorSpec.FluidAdmissionCorrect` | src/main/java/nc/tile/processor/IProcessor.java:255-285 | the fluid scan answers true iff every fluid output from k on admits its product (FluidAdmits), and on true exactly the VOID output tanks from k on have been cleared |
| `ProcessorSpec.FluidAdmissionClearsOnlyVoid` | src/main/java/nc/tile/processor/IProcessor.java:255-285 | whatever its answer, the fluid scan only ever clears VOID output tanks, keeping capacity and filter |
| `ProcessorSpec.CanProduceProducts` | src/main/java/nc/tile/processor/IProcessor.java:213-287 | canProduceProducts changes only the inventory and the tanks |
| `ProcessorSpec.CanProduceProductsCorrect` | src/main/java/nc/tile/processor/IProcessor.java:213-287 | canProduceProducts is true iff every item output and every fluid output admits its product, and it never fills an output slot |
| `ProcessorSpec.DifferentItemBlocks` | src/main/java/nc/tile/processor/IProcessor.java:239-243 | a non-VOID output slot that holds a different item than a sized product blocks production |
| `ProcessorSpec.FullSlotBlocksOnlyUnderDefault` | src/main/java/nc/tile/processor/IProcessor.java:244-245 | a slot holding the product whose count plus the product size exceeds the stack's capacity blocks exactly under the DEFAULT setting |
| `ProcessorTile.Processor.ScanItemOutputs` | src/main/java/nc/tile/processor/IProcessor.java:218-249 | the in-place item loop leaves the state and answer of ItemAdmission from output 0 |
| `ProcessorTile.Processor.ScanFluidOutputs` | src/main/java/nc/tile/processor/IProcessor.java:254-285 | the in-place fluid loop leaves the state and answer of FluidAdmission from output 0 |
| `ProcessorTile.Processor.CanProduceProducts` | src/main/java/nc/tile/processor/IProcessor.java:213-287 | the state and answer are those of ProcessorSpec.CanProduceProducts |
| `ProcessorSpec.ShrunkStack` | src/main/java/nc/tile/processor/IProcessor.java:339-348 | an input stack shrunk by a positive ingredient size loses exactly that many items, becoming EMPTY at zero or below; a non-positive size leaves the count |
| `ProcessorSpec.DrainedInputTank` | src/main/java/nc/tile/processor/IProcessor.java:355-363 | an input tank loses exactly a positive ingredient amount when it holds more, is emptied when it holds no more than that, and keeps capacity and filter |
| `ProcessorSpec.ConsumeInputs` | src/main/java/nc/tile/processor/IProcessor.java:297-369 | consumeInputs keeps the recipe, the times and the activity flags and the number of slots and tanks |
| `ProcessorSpec.ConsumedItems` | src/main/java/nc/tile/processor/IProcessor.java:334-349 | the item part of consumeInputs changes only the inventory and the staging stacks |
| `ProcessorSpec.ConsumedFluids` | src/main/java/nc/tile/processor/IProcessor.java:351-364 | the fluid part of consumeInputs changes only the tanks and the staging tanks |
| `ProcessorSpec.ConsumeInputsNoOp` | src/main/java/nc/tile/processor/IProcessor.java:299-311 | with hasConsumed set, no recipe, or an INVALID item or fluid input order, consumeInputs changes nothing |
| `ProcessorSpec.ConsumeInputsConserves` | src/main/java/nc/tile/processor/IProcessor.java:313-368 | otherwise input slot i loses exactly its ingredient's size and a consuming processor stages exactly that many; input tank t loses exactly its ingredient's amount (staged likewise) or is emptied; hasConsumed becomes consumesInputs |
| `ProcessorTile.Processor.EmptyStagingStacks` | src/main/java/nc/tile/processor/IProcessor.java:321-326 | a consuming processor's staging slots are emptied, one by one |
| `ProcessorTile.Processor.EmptyStagingTanks` | src/main/java/nc/tile/processor/IProcessor.java:327-331 | a consuming processor's staging tanks are emptied, one by one |
| `ProcessorTile.Processor.ConsumeItemInputs` | src/main/java/nc/tile/processor/IProcessor.java:334-349 | each input slot becomes its shrunk stack and, for a consuming processor, each staging slot receives the ingredient's item and size |
| `ProcessorTile.Processor.ConsumeFluidInputs` | src/main/java/nc/tile/processor/IProcessor.java:351-364 | each input tank is drained by its ingredient's amount and, for a consuming processor, each staging tank receives that fluid and amount |
| `ProcessorTile.Processor.ConsumeItems` | src/main/java/nc/tile/processor/IProcessor.java:334-349 | the state after the item loop is ConsumedItems of the old state |
| `ProcessorTile.Processor.ConsumeFluids` | src/main/java/nc/tile/processor/IProcessor.java:351-364 | the state after the fluid loop is ConsumedFluids of the old state |
| `ProcessorTile.Processor.ConsumeInputs` | src/main/java/nc/tile/processor/IProcessor.java:297-369 | the processor's new state is ProcessorSpec.ConsumeInputs of the old one |
| `ProcessorSpec.ProduceOutputs` | src/main/java/nc/tile/processor/IProcessor.java:397-452 | the output loops change only the inventory and the tanks |
| `ProcessorSpec.ClearedStaging` | src/main/java/nc/tile/processor/IProcessor.java:380-387 | every staging slot and staging tank is empty and nothing else changes |
| `ProcessorSpec.ProduceProducts` | src/main/java/nc/tile/processor/IProcessor.java:371-457 | produceProducts keeps recipe, times and activity flags; a consuming processor with a recipe ends with hasConsumed false; a consuming processor always ends with empty staging slots |
| `ProcessorSpec.ProducedItemSlotCases` | src/main/java/nc/tile/processor/IProcessor.java:400-424 | a VOID output slot is emptied; a sized product fills an empty slot with the next stack or raises a matching slot to min(stack limit, count + next count); an unsized product leaves the slot |
| `ProcessorSpec.ProducedTankCases` | src/main/java/nc/tile/processor/IProcessor.java:429-452 | a VOID output tank is cleared; a sized product fills an empty tank with the next stack or grows a matching tank by the next amount; an unsized product leaves the tank |
| `ProcessorSpec.ProduceProductsNoOp` | src/main/java/nc/tile/processor/IProcessor.java:389-391 | a consuming processor that has not consumed, or a processor without a recipe, produces nothing and keeps hasConsumed |
| `ProcessorTile.Processor.ClearStaging` | src/main/java/nc/tile/processor/IProcessor.java:380-387 | every staging slot is EMPTY and every staging tank is cleared |
| `ProcessorTile.Processor.ClearConsumedTanks` | src/main/java/nc/tile/processor/IProcessor.java:620-622 | every staging tank is cleared |
| `ProcessorTile.Processor.ProduceItemOutputs` | src/main/java/nc/tile/processor/IProcessor.java:399-424 | each item output slot becomes its produced slot and no other slot changes |
| `ProcessorTile.Processor.ProduceFluidOutputs` | src/main/java/nc/tile/processor/IProcessor.java:428-452 | each fluid output tank becomes its produced tank and no other tank changes |
| `ProcessorTile.Processor.ProduceOutputs` | src/main/java/nc/tile/processor/IProcessor.java:397-452 | the state after both output loops is ProcessorSpec.ProduceOutputs of the old one |
| `ProcessorTile.Processor.ProduceProducts` | src/main/java/nc/tile/processor/IProcessor.java:371-457 | the processor's new state is ProcessorSpec.ProduceProducts of the old one |
| `ProcessorSpec.CanProcessInputs` | src/main/java/nc/tile/processor/IProcessor.java:142-161 | with a stale consumption (hasConsumed and no recipe) the staging buffers are emptied and hasConsumed cleared, otherwise kept; true only with a recipe, keeping currentTime; false clamps currentTime to [0, baseProcessTime - 1]; only VOID output slots are emptied |
| `ProcessorSpec.DiscardStale` | src/main/java/nc/tile/processor/IProcessor.java:144-154 | only the staging buffers and hasConsumed can change |
| `ProcessorSpec.CheckProducts` | src/main/java/nc/tile/processor/IProcessor.java:156 | without a recipe the answer is false; with one only the inventory and tanks change and only VOID output slots are emptied |
| `ProcessorSpec.RefreshActivity` | src/main/java/nc/tile/processor/IProcessor.java:524-526 | canProcessInputs becomes the answer of canProcessInputs and the rest of the state is what it left |
| `ProcessorSpec.RefreshRecipe` | src/main/java/nc/tile/processor/IProcessor.java:516-522 | the recipe becomes the lookup of the staged inputs when hasConsumed, of the input slots and tanks otherwise; times and activity flags are kept |
| `ProcessorTile.Processor.CanProcessInputs` | src/main/java/nc/tile/processor/IProcessor.java:142-161 | the state and answer are those of ProcessorSpec.CanProcessInputs |
| `ProcessorTile.Processor.DiscardStaging` | src/main/java/nc/tile/processor/IProcessor.java:144-154 | the state is DiscardStale of the old one |
| `ProcessorTile.Processor.RefreshActivity` | src/main/java/nc/tile/processor/IProcessor.java:524-526 | the processor's new state is ProcessorSpec.RefreshActivity of the old one |
| `ProcessorTile.Processor.RefreshRecipe` | src/main/java/nc/tile/processor/IProcessor.java:516-522 | the processor's new state is ProcessorSpec.RefreshRecipe of the old one |
| `ProcessorSpec.VoidUnusableInputs` | src/main/java/nc/tile/processor/IProcessor.java:181-187 | only the tanks change |
| `ProcessorTile.Processor.VoidUnusableInputs` | src/main/java/nc/tile/processor/IProcessor.java:181-187 | each input tank marked voidUnusableFluidInput is cleared; no other tank changes |
| `ProcessorSpec.CarryOver` | src/main/java/nc/tile/processor/IProcessor.java:171-177 | when the inputs can still be processed, currentTime and resetTime both become max(0, currentTime - old base time); time never goes negative |
| `ProcessorSpec.VoidIfStalled` | src/main/java/nc/tile/processor/IProcessor.java:178-188 | when the inputs can still be processed nothing changes; otherwise currentTime and resetTime become 0 |
| `ProcessorSpec.FinishProcess` | src/main/java/nc/tile/processor/IProcessor.java:170-189 | after a cycle currentTime == resetTime, equal to max(0, currentTime - old base time) if the inputs can still be processed and 0 otherwise |
| `ProcessorSpec.CompleteCycles` | src/main/java/nc/tile/processor/IProcessor.java:165-167 | the while loop ends with currentTime < baseProcessTime for any starting time (a negative one read from NBT included), changes nothing when no cycle is due, and after a covered cycle leaves 0 <= currentTime == resetTime |
| `ProcessorSpec.CompleteCyclesStep` | src/main/java/nc/tile/processor/IProcessor.java:165-167 | each finished cycle lowers currentTime by at least one, and the loop from the state after it ends where the loop from before it does |
| `ProcessorSpec.Advanced` | src/main/java/nc/tile/processor/IProcessor.java:164 | process adds the speed multiplier to currentTime and changes nothing else |
| `ProcessorSpec.Process` | src/main/java/nc/tile/processor/IProcessor.java:163-168 | after process currentTime < baseProcessTime, and not below 0 when it started at 0 or above; when the advance covers no cycle, process only adds the speed multiplier |
| `ProcessorSpec.ExactCycleEndsAtZero` | src/main/java/nc/tile/processor/IProcessor.java:163-189 | at speed 1 with currentTime one tick short of the base time, process completes exactly one cycle and both times end at 0 |
| `ProcessorSpec.LoseProgress` | src/main/java/nc/tile/processor/IProcessor.java:497-503 | currentTime becomes clamp(currentTime - 1.5 x speed, 0, baseProcessTime) and resetTime is lowered to it only if it was higher |
| `ProcessorSpec.IdleTick` | src/main/java/nc/tile/processor/IProcessor.java:469-480 | an idle tick changes only currentTime and resetTime |
| `ProcessorSpec.IdleTickResets` | src/main/java/nc/tile/processor/IProcessor.java:471-479 | with progress, a processor that does not lose progress (or is halted) and cannot process resets both times to 0; one that loses progress never gains time |
| `ProcessorSpec.OnTick` | src/main/java/nc/tile/processor/IProcessor.java:461-495 | onTick sets isProcessing to isProcessing(), reports a change exactly when it differs from before, and when not processing is the idle tick |
| `ProcessorSpec.OnTickProgress` | src/main/java/nc/tile/processor/IProcessor.java:461-480 | a tick that is not processing changes only the two times and never raises currentTime; a processing tick stays processing and leaves currentTime short of a whole cycle, and not negative when it started non-negative |
| `ProcessorTile.Processor.FinishProcess` | src/main/java/nc/tile/processor/IProcessor.java:170-189 | the processor's new state is ProcessorSpec.FinishProcess of the old one |
| `ProcessorTile.Processor.ProduceAndRematch` | src/main/java/nc/tile/processor/IProcessor.java:172-173 | the state is refreshRecipe after produceProducts |
| `ProcessorTile.Processor.CarryOver` | src/main/java/nc/tile/processor/IProcessor.java:174-177 | the state is ProcessorSpec.CarryOver of the old one |
| `ProcessorTile.Processor.VoidIfStalled` | src/main/java/nc/tile/processor/IProcessor.java:178-188 | the state is ProcessorSpec.VoidIfStalled of the old one |
| `ProcessorTile.Processor.Process` | src/main/java/nc/tile/processor/IProcessor.java:163-168 | the processor's new state is ProcessorSpec.Process of the old one |
| `ProcessorTile.Processor.Advance` | src/main/java/nc/tile/processor/IProcessor.java:164 | the state is ProcessorSpec.Advanced of the old one |
| `ProcessorTile.Processor.CompleteCycles` | src/main/java/nc/tile/processor/IProcessor.java:165-167 | the while loop leaves ProcessorSpec.CompleteCycles of the state it started from |
| `ProcessorTile.Processor.FinishCoveredCycle` | src/main/java/nc/tile/processor/IProcessor.java:165-167 | one loop iteration lowers currentTime by at least one and keeps the loop's final state |
| `ProcessorTile.Processor.LoseProgress` | src/main/java/nc/tile/processor/IProcessor.java:497-503 | the state is ProcessorSpec.LoseProgress of the old one |
| `ProcessorTile.Processor.IdleTick` | src/main/java/nc/tile/processor/IProcessor.java:469-480 | the state is ProcessorSpec.IdleTick of the old one |
| `ProcessorTile.Processor.OnTick` | src/main/java/nc/tile/processor/IProcessor.java:461-495 | the new state and the change report are those of ProcessorSpec.OnTick |
| `ProcessorTile.Processor.HasConsumed` | src/main/java/nc/tile/processor/IProcessor.java:191-211 | the scan answers true iff the processor consumes up front and some staging slot or staging tank is not empty |
| `ProcessorSpec.RefreshFlags` | src/main/java/nc/tile/processor/IProcessor.java:507-508 | isProcessing becomes isProcessing() of the state before, then hasConsumed becomes hasConsumed() of the result |
| `ProcessorSpec.RefreshAll` | src/main/java/nc/tile/processor/IProcessor.java:505-509 | after refreshAll, isProcessing is that of the refreshed state, hasConsumed agrees with the staging buffers, and a non-consuming processor never has consumed |
| `ProcessorSpec.EmptiedSlots` | src/main/java/nc/tile/processor/IProcessor.java:593-595 | every inventory slot and staging slot is EMPTY and nothing else changes |
| `ProcessorSpec.ClearAllSlots` | src/main/java/nc/tile/processor/IProcessor.java:592-597 | after clearAllSlots every inventory and staging slot is empty and hasConsumed holds iff the processor consumes up front and a staging tank holds fluid |
| `ProcessorSpec.ClearedStacksStayEmpty` | src/main/java/nc/tile/processor/IProcessor.java:592-597 | refreshAll never puts items back into an empty inventory or staging slot |
| `ProcessorSpec.EmptiedTanks` | src/main/java/nc/tile/processor/IProcessor.java:619-622 | every tank and staging tank is cleared, keeping capacity and filter, and nothing else changes |
| `ProcessorSpec.ClearAllTanks` | src/main/java/nc/tile/processor/IProcessor.java:618-624 | after clearAllTanks every tank and staging tank is empty and hasConsumed holds iff the processor consumes up front and a staging slot holds items |
| `ProcessorSpec.ClearedTanksStayEmpty` | src/main/java/nc/tile/processor/IProcessor.java:618-624 | refreshAll never puts fluid back into an empty tank or staging tank |
| `ProcessorTile.Processor.RefreshAll` | src/main/java/nc/tile/processor/IProcessor.java:505-509 | the processor's new state is ProcessorSpec.RefreshAll of the old one |
| `ProcessorTile.Processor.RefreshFlags` | src/main/java/nc/tile/processor/IProcessor.java:507-508 | the state is ProcessorSpec.RefreshFlags of the old one |
| `ProcessorTile.Processor.ClearAllSlots` | src/main/java/nc/tile/processor/IProcessor.java:592-597 | the processor's new state is ProcessorSpec.ClearAllSlots of the old one |
| `ProcessorTile.Processor.EmptySlots` | src/main/java/nc/tile/processor/IProcessor.java:593-595 | the state is ProcessorSpec.EmptiedSlots of the old one |
| `ProcessorTile.Processor.ClearAllTanks` | src/main/java/nc/tile/processor/IProcessor.java:618-624 | the processor's new state is ProcessorSpec.ClearAllTanks of the old one |
| `ProcessorSpec.SlotChanged` | src/main/java/nc/tile/processor/IProcessor.java:539-545 | a change to an input slot re-matches the recipe and then re-checks activity, to an output slot only re-checks activity (recipe kept), to any other slot changes nothing |
| `ProcessorSpec.SetInventorySlotContents` | src/main/java/nc/tile/processor/IProcessor.java:551-563 | a slot outside the I/O slots just takes the stack; an output slot holds the stack or, emptied by a VOID setting during the re-check, EMPTY |
| `ProcessorSpec.DecrStackSize` | src/main/java/nc/tile/processor/IProcessor.java:535-548 | the returned stack has the slot's item and min(amount, count) items, or is EMPTY for a bad slot, empty slot or non-positive amount; for a non-input slot what is taken plus what stays is what was there, unless the slot was voided |
| `ProcessorSpec.SplitOff` | src/main/java/nc/tile/processor/IProcessor.java:536 | splitting off changes only the inventory and keeps its size |
| `ProcessorSpec.InputItemStacksExcludingSlot` | src/main/java/nc/tile/processor/IProcessor.java:580-584 | the other input stacks: one fewer than the input slots, and putting slot's stack back at its place gives the input slots |
| `ProcessorSpec.IsItemValidForSlot` | src/main/java/nc/tile/processor/IProcessor.java:566-578 | false for an empty stack and for an output slot; without smart input, true exactly when some recipe takes the stack at that slot |
| `ProcessorTile.Processor.SetInventorySlotContents` | src/main/java/nc/tile/processor/IProcessor.java:551-563 | the processor's new state is ProcessorSpec.SetInventorySlotContents of the old one |
| `ProcessorTile.Processor.DecrStackSize` | src/main/java/nc/tile/processor/IProcessor.java:535-548 | the new state and the taken stack are those of ProcessorSpec.DecrStackSize |
| `ProcessorTile.Processor.SplitOff` | src/main/java/nc/tile/processor/IProcessor.java:536 | the new state and the taken stack are those of ProcessorSpec.SplitOff |
| `ProcessorTile.Processor.SlotChanged` | src/main/java/nc/tile/processor/IProcessor.java:537-546 | the processor's new state is ProcessorSpec.SlotChanged of the old one |
| `ProcessorSpec.WriteProcessorNBT` | src/main/java/nc/tile/processor/IProcessor.java:657-664 | writing adds exactly the five keys time, resetTime, isProcessing, canProcessInputs and hasConsumed |
| `ProcessorSpec.ReadProcessorNBT` | src/main/java/nc/tile/processor/IProcessor.java:666-672 | reading sets only the five fields; a missing time reads as 0 and a missing hasConsumed as false |
| `ProcessorSpec.ProcessorNBTRoundTrip` | src/main/java/nc/tile/processor/IProcessor.java:657-672 | reading back what was written restores the five fields of the written state and keeps everything else of the reader |
| `ProcessorTile.Processor.WriteProcessorNBT` | src/main/java/nc/tile/processor/IProcessor.java:657-664 | the written compound is ProcessorSpec.WriteProcessorNBT of the processor's state |
| `ProcessorTile.Processor.ReadProcessorNBT` | src/main/java/nc/tile/processor/IProcessor.java:666-672 | the processor's new state is ProcessorSpec.ReadProcessorNBT of the old one |
| `BasicRecipeHandler.SplitPartitions` | src/main/java/nc/recipe/BasicRecipeHandler.java:56-75 | the five groups concatenate back to the arguments; with enough arguments each group has its declared size and extras are everything past the last threshold; with too few, extras are empty |
| `BasicRecipeHandler.SplitArguments` | src/main/java/nc/recipe/BasicRecipeHandler.java:56-75 | the index loop builds exactly the groups of Split |
| `BasicRecipeHandler.BuildIngredients` | src/main/java/nc/recipe/BasicRecipeHandler.java:185-196 | the build loop returns the built list, or none as soon as an element is null, of the wrong type or fails to build |
| `BasicRecipeHandler.BuildRecipe` | src/main/java/nc/recipe/BasicRecipeHandler.java:182-237 | buildRecipe returns RecipeFrom of the groups |
| `BasicRecipeHandler.RecipeFromNoneIff` | src/main/java/nc/recipe/BasicRecipeHandler.java:185-232 | buildRecipe returns null iff some element of some group fails to build into an ingredient |
| `BasicRecipeHandler.BuiltRecipeArity` | src/main/java/nc/recipe/BasicRecipeHandler.java:233-241 | a built recipe carries the fixed extras, and it is a valid recipe (all four sizes as declared) iff the argument list reached the last threshold; a size mismatch is still returned |
| `BasicRecipeHandler.FixedExtras` | src/main/java/nc/recipe/BasicRecipeHandler.java:107-111 | one fixed extra per request; position k holds the caller's extra when there is one of the requested class and the default otherwise |
| `BasicRecipeHandler.ExtrasFixer.constructor` | src/main/java/nc/recipe/BasicRecipeHandler.java:102-105 | a fixer starts from the caller's extras with nothing fixed |
| `BasicRecipeHandler.ExtrasFixer.Add` | src/main/java/nc/recipe/BasicRecipeHandler.java:107-111 | each add appends exactly one element, the caller's extra at the current index if it has the class and the default otherwise |
| `BasicRecipeHandler.FactorRecipe` | src/main/java/nc/recipe/BasicRecipeHandler.java:114-146 | null gives null; a recipe with any item ingredient or product, or whose factors have hcf 1, is returned unchanged; otherwise every fluid ingredient and product is divided by the hcf while items, extras and shapelessness are kept |
| `BasicRecipeHandler.MixingRecipeFactors` | src/main/java/nc/recipe/BasicRecipeHandler.java:122-128 | the factors of a 1000 + 1000 -> 2000 mixing recipe are its three amounts |
| `BasicRecipeHandler.FactorRecipeExample` | src/main/java/nc/recipe/BasicRecipeHandler.java:131-145 | with hcf 1000 that recipe factors to 1 + 1 -> 2 |
| `BasicRecipeHandler.AddKeys` | src/main/java/nc/recipe/BasicRecipeHandler.java:309-319 | adding a recipe under a set of hashes puts it into exactly those buckets (created if missing) and leaves every other bucket unchanged |
| `BasicRecipeHandler.AddKeysUnion` | src/main/java/nc/recipe/BasicRecipeHandler.java:309-319 | adding under two hash sets in turn is adding under their union |
| `BasicRecipeHandler.AddKeysSingle` | src/main/java/nc/recipe/BasicRecipeHandler.java:309-319 | adding under one hash adds the recipe to that bucket only |
| `BasicRecipeHandler.FilledCacheBucket` | src/main/java/nc/recipe/BasicRecipeHandler.java:286-307 | after fillHashCache a recipe is in a bucket iff it was before or it is registered and the bucket's hash is one of its material arrangements |
| `BasicRecipeHandler.ShapelessLookupIgnoresOrder` | src/main/java/nc/recipe/BasicRecipeHandler.java:294-301 | in a shapeless handler any reordering of a registered recipe's items and fluids hashes to a bucket that holds the recipe |
| `BasicRecipeHandler.ShapedLookup` | src/main/java/nc/recipe/BasicRecipeHandler.java:302-304 | in a shaped handler each material tuple as given hashes to a bucket that holds the recipe |
| `BasicRecipeHandler.TupleKeysInTuplesKeys` | src/main/java/nc/recipe/BasicRecipeHandler.java:294-305 | every material tuple's hashes are among the recipe's hashes |
| `BasicRecipeHandler.ArrangementKeysStep` | src/main/java/nc/recipe/BasicRecipeHandler.java:296-300 | the permutation loops add one item arrangement's row of hashes per outer step |
| `BasicRecipeHandler.RecipeHandler.constructor` | src/main/java/nc/recipe/BasicRecipeHandler.java:45-51 | a handler starts with its name, sizes and shapelessness and no recipes or cache |
| `BasicRecipeHandler.RecipeHandler.AddRecipe` | src/main/java/nc/recipe/BasicRecipeHandler.java:56-78 | addRecipe appends the split, built and (when enabled) factored recipe, and nothing when it built to null |
| `BasicRecipeHandler.RecipeHandler.RecipesOfAllBuilt` | src/main/java/nc/recipe/BasicRecipeHandler.java:56-78 | when every argument list builds, the recipes registered are one per list, in order |
| `BasicRecipeHandler.RecipeHandler.RecipesOfAppend` | src/main/java/nc/recipe/BasicRecipeHandler.java:56-78 | registering two batches in turn registers their concatenation |
| `BasicRecipeHandler.RecipeHandler.RecipesOfShapeless` | src/main/java/nc/recipe/BasicRecipeHandler.java:76 | every recipe built from argument lists carries the handler's shapelessness, factoring included |
| `BasicRecipeHandler.RecipeHandler.RecipesOfBatchesShapeless` | src/main/java/nc/recipe/BasicRecipeHandler.java:76 | the same for recipes registered batch after batch |
| `BasicRecipeHandler.RecipeHandler.AddToHashCache` | src/main/java/nc/recipe/BasicRecipeHandler.java:309-319 | the cache becomes AddKeys of the old one under hashMaterials(items, fluids) |
| `BasicRecipeHandler.RecipeHandler.AddRowToHashCache` | src/main/java/nc/recipe/BasicRecipeHandler.java:297-299 | the inner fluid-permutation loop adds the recipe under the row's hashes |
| `BasicRecipeHandler.RecipeHandler.AddTupleToHashCache` | src/main/java/nc/recipe/BasicRecipeHandler.java:294-305 | one material tuple adds the recipe under all its permutations (shapeless) or as given (shaped) |
| `BasicRecipeHandler.RecipeHandler.AddRecipeToHashCache` | src/main/java/nc/recipe/BasicRecipeHandler.java:287-306 | one recipe adds itself under all its tuples' hashes, and under none when preparation fails |
| `BasicRecipeHandler.RecipeHandler.FillHashCache` | src/main/java/nc/recipe/BasicRecipeHandler.java:286-307 | the cache becomes FilledCache of the old one over the registered recipes |
| `BasicRecipeHandler.AnyItemIngredientMatches` | src/main/java/nc/recipe/BasicRecipeHandler.java:324-328 | true iff some item ingredient matches the stack |
| `BasicRecipeHandler.AnyFluidIngredientMatches` | src/main/java/nc/recipe/BasicRecipeHandler.java:342-346 | true iff some fluid ingredient matches the stack |
| `BasicRecipeHandler.IsValidItemInput` | src/main/java/nc/recipe/BasicRecipeHandler.java:321-337 | true iff some recipe takes the stack: at any ingredient if shapeless, at the same slot if shaped |
| `BasicRecipeHandler.IsValidFluidInput` | src/main/java/nc/recipe/BasicRecipeHandler.java:339-355 | true iff some recipe takes the fluid: at any ingredient if shapeless, at the same tank if shaped |
| `BasicRecipeHandler.FirstMatching` | src/main/java/nc/recipe/BasicRecipeHandler.java:416-417 | the index of the first ingredient that matches the stack, or none iff none does |
| `BasicRecipeHandler.SmartCheckFallsBack` | src/main/java/nc/recipe/BasicRecipeHandler.java:358-373 | when the other inputs are all empty (or none) or the stack equals the slot's stack, the smart check is the plain check |
| `BasicRecipeHandler.ShapelessSmartCheckRejectsDuplicate` | src/main/java/nc/recipe/BasicRecipeHandler.java:414-427 | shapeless: if the first ingredient matching the stack also matches a non-empty other input, the stack is rejected |
| `BasicRecipeHandler.ShapelessSmartCheckAccepts` | src/main/java/nc/recipe/BasicRecipeHandler.java:414-427 | shapeless: if some ingredient matches the stack and no ingredient matches a non-empty other input, the stack is accepted |
| `Recipes.FactoredIngredient` | src/main/java/nc/recipe/BasicRecipeHandler.java:139-142 | a factored fluid ingredient has every size divided by the factor (Java division) and keeps what it accepts |
| `PermutationHelper.PermutationsExactly` | src/main/java/nc/recipe/BasicRecipeHandler.java:296-297 | a sequence is among the permutations of s iff it has the same multiset of elements |
| `PermutationHelper.PermutationsSound` | src/main/java/nc/recipe/BasicRecipeHandler.java:296-297 | every listed permutation is a rearrangement of s |
| `PermutationHelper.PermutationsComplete` | src/main/java/nc/recipe/BasicRecipeHandler.java:296-297 | every rearrangement of s is listed |
| `DecayGeneratorRecipes.DecayFixedExtrasShape` | src/main/java/nc/recipe/generator/DecayGeneratorRecipes.java:47-53 | fixedExtras always has three entries: the caller's extra where it is a Double, otherwise 1200, 0 and 0 |
| `DecayGeneratorRecipes.FixExtras` | src/main/java/nc/recipe/generator/DecayGeneratorRecipes.java:47-53 | the fixer-based computation returns DecayFixedExtras |
| `DecayGeneratorRecipes.DecayArgsShape` | src/main/java/nc/recipe/generator/DecayGeneratorRecipes.java:34-44 | a non-fissile product gives one recipe (block, Oxide, Nitride alternatives to the block product); otherwise five, one per suffix on both sides; each splits into one item input, one item output and the three extras |
| `DecayGeneratorRecipes.AddDecayRecipes` | src/main/java/nc/recipe/generator/DecayGeneratorRecipes.java:34-44 | addDecayRecipes registers the recipes of DecayArgs, in order |
| `DecayGeneratorRecipes.AddNonFissileRecipe` | src/main/java/nc/recipe/generator/DecayGeneratorRecipes.java:36-38 | the non-fissile branch registers its single recipe |
| `DecayGeneratorRecipes.AddFuelFormRecipes` | src/main/java/nc/recipe/generator/DecayGeneratorRecipes.java:39-43 | the suffix loop registers the five fuel-form recipes |
| `DecayGeneratorRecipes.DecayRecipeCount` | src/main/java/nc/recipe/generator/DecayGeneratorRecipes.java:19-30 | the nine chains make 29 addRecipe calls when Radium exists and 25 otherwise |
| `DecayGeneratorRecipes.AddRecipes` | src/main/java/nc/recipe/generator/DecayGeneratorRecipes.java:19-30 | addRecipes registers the nine chains' recipes in order |
| `DecayGeneratorRecipes.NewDecayGeneratorRecipes` | src/main/java/nc/recipe/generator/DecayGeneratorRecipes.java:14-16 | the handler is decay_generator with sizes 1, 0, 1, 0, shapeless (the five-size constructor defaults shapelessness to true), with the decay extras fixer and the nine chains registered, every registered recipe shapeless |
| `AssemblerRecipes.AssemblerArgsSplit` | src/main/java/nc/recipe/processor/AssemblerRecipes.java:19 | the seven arguments split into the four item inputs, one item output and the extras 1.0 and 1.0 |
| `AssemblerRecipes.AddRecipes` | src/main/java/nc/recipe/processor/AssemblerRecipes.java:13-21 | with the global flag or the assembler flag off nothing is added; otherwise the recipes of the elements are added in list order |
| `AssemblerRecipes.OneRecipePerElement` | src/main/java/nc/recipe/processor/AssemblerRecipes.java:18-20 | when every element's recipe builds there is exactly one recipe per element, in order |
| `TileFluid.FirstFrom` | src/main/java/nc/tile/fluid/ITileFluid.java:38-47 | the first index from k on that satisfies p, or none iff no such index |
| `TileFluid.FluidTile.IsNextToFill` | src/main/java/nc/tile/fluid/ITileFluid.java:32-48 | true when input tanks are not separated; otherwise false iff another tank fillable from the side holds an equal fluid |
| `TileFluid.FluidTile.ClearTank` | src/main/java/nc/tile/fluid/ITileFluid.java:50-52 | only tank n is cleared |
| `TileFluid.FluidTile.ClearAllTanks` | src/main/java/nc/tile/fluid/ITileFluid.java:54-58 | every tank is cleared and empty, keeping capacity and filter |
| `TileFluid.FluidTile.SideSorptions` | src/main/java/nc/tile/fluid/ITileFluid.java:71-73 | one sorption per tank on each side |
| `TileFluid.FluidTile.ToggleTankSorption` | src/main/java/nc/tile/fluid/ITileFluid.java:79-85 | a no-op without configurable connections; otherwise only that side's sorption of that tank is toggled |
| `TileFluid.FluidConnectionAll` | src/main/java/nc/tile/fluid/ITileFluid.java:91-97 | exactly six connections, each built from the same sorption list |
| `TileFluid.FluidConnectionAllOf` | src/main/java/nc/tile/fluid/ITileFluid.java:99-101 | six connections, each with the single sorption |
| `TileFluid.FluidTile.HasFluidSideCapability` | src/main/java/nc/tile/fluid/ITileFluid.java:351-353 | true for no side; for a side, iff some tank can connect on it |
| `TileFluid.FillTargetIsFirstEligible` | src/main/java/nc/tile/fluid/ITileFluid.java:121-135 | fill picks the lowest tank that can fill from the side, accepts the fluid, is next to fill, is not full and is empty or holds that fluid; none iff no tank does |
| `TileFluid.FluidTile.Fill` | src/main/java/nc/tile/fluid/ITileFluid.java:121-135 | fill changes at most the chosen tank, only when doFill, and returns its fill amount, 0 with no target |
| `TileFluid.TankFillAmount` | src/main/java/nc/tile/fluid/ITileFluid.java:129 | the amount filled is 0 for a non-positive or unacceptable resource, never above the room left, and positive when an eligible tank has room |
| `TileFluid.TankAfterFill` | src/main/java/nc/tile/fluid/ITileFluid.java:129 | the tank gains exactly the filled amount, keeping capacity and filter |
| `TileFluid.DrainResourceTargetIsFirstEligible` | src/main/java/nc/tile/fluid/ITileFluid.java:137-150 | drain by resource picks the first drainable tank on the side holding that fluid; none for a non-positive amount |
| `TileFluid.FluidTile.DrainResource` | src/main/java/nc/tile/fluid/ITileFluid.java:137-150 | drain by resource changes at most the chosen tank, only when doDrain, and returns its drained stack, null with no target |
| `TileFluid.DrainAmountTargetIsFirstEligible` | src/main/java/nc/tile/fluid/ITileFluid.java:152-165 | drain by amount picks the first drainable tank on the side holding fluid, and there is one whenever such a tank exists and the amount is positive |
| `TileFluid.FluidTile.DrainAmount` | src/main/java/nc/tile/fluid/ITileFluid.java:152-165 | drain by amount changes at most the chosen tank, only when doDrain, and returns its drained stack, null with no target |
| `TileFluid.TankDrainResource` | src/main/java/nc/tile/fluid/ITileFluid.java:144 | a tank drained of a matching resource gives min(amount, held) of that fluid |
| `TileFluid.TankDrainAmount` | src/main/java/nc/tile/fluid/ITileFluid.java:159 | a tank holding fluid drained by a positive amount gives min(amount, held) of its fluid |
| `TileFluid.TankAfterDrain` | src/main/java/nc/tile/fluid/ITileFluid.java:159 | the tank loses what was drained (or is emptied), keeping capacity and filter |
| `TileFluid.DrainConserves` | src/main/java/nc/tile/fluid/ITileFluid.java:159 | what is drained plus what stays is what was held, and a drain takes a positive amount no larger than held |
| `TileFluid.OnWrapperFill` | src/main/java/nc/tile/fluid/ITileFluid.java:180-190 | a non-zero fill of a processor triggers refreshRecipe then refreshActivity, of a port the refresh-targets flag, and nothing otherwise |
| `TileFluid.OnWrapperDrain` | src/main/java/nc/tile/fluid/ITileFluid.java:192-201 | a non-zero drain of a processor triggers only refreshActivity, of a port the refresh-targets flag |
| `TileFluid.SettingOrdinal` | src/main/java/nc/tile/fluid/ITileFluid.java:330 | the legacy voidExcessFluidOutput key, when present, gives 1 for true and 0 for false; otherwise the stored tankOutputSetting |
| `TileFluid.LegacySettingWins` | src/main/java/nc/tile/fluid/ITileFluid.java:330 | with the legacy key present the setting is VOID_EXCESS for true and DEFAULT for false |
| `TileFluid.WrittenTanksHolds` | src/main/java/nc/tile/fluid/ITileFluid.java:318-321 | after the write loop each tank's void flag and setting ordinal are stored under its keys |
| `TileFluid.WrittenTanksFrame` | src/main/java/nc/tile/fluid/ITileFluid.java:318-321 | the write loop touches no key other than the per-tank ones |
| `TileFluid.WrittenTankSettingsHold` | src/main/java/nc/tile/fluid/ITileFluid.java:315-323 | reading the written compound gives back the separation flag, each void flag and each setting ordinal |
| `TileFluid.TankSettingsRoundTrip` | src/main/java/nc/tile/fluid/ITileFluid.java:315-333 | writeTankSettings then readTankSettings restores the separation flag, every void flag and every output setting, with no bad ordinal |
| `TileFluid.FluidTile.WriteTankSettings` | src/main/java/nc/tile/fluid/ITileFluid.java:315-323 | the written compound is WrittenTankSettings of the tile's settings |
| `TileFluid.FluidTile.ReadTankSettings` | src/main/java/nc/tile/fluid/ITileFluid.java:325-333 | the separation flag is read; the tanks are read in order up to the first bad ordinal, which stops the read (ok is false) after that tank's void flag |
| `Nbt.SetThenGet` | src/main/java/nc/tile/fluid/ITileFluid.java:316-320 | a value set under a key is read back and every other key keeps its value |
| `Nbt.GetBoolean` | src/main/java/nc/tile/fluid/ITileFluid.java:326 | a missing key reads as false |
| `Nbt.GetInteger` | src/main/java/nc/tile/fluid/ITileFluid.java:330 | a missing key reads as 0 |
| `Nbt.GetDouble` | src/main/java/nc/tile/processor/IProcessor.java:667 | a missing key reads as 0 |
| `Materials.OutputSettingOrdinal` | src/main/java/nc/tile/fluid/ITileFluid.java:320 | the ordinal of a tank output setting is below 3 |
| `Materials.OutputSettingOf` | src/main/java/nc/tile/fluid/ITileFluid.java:331 | TankOutputSetting.values()[ordinal]: defined exactly for 0, 1 and 2, and inverse to the ordinal |
| `Materials.OutputSettingOrdinalRoundTrip` | src/main/java/nc/tile/fluid/ITileFluid.java:320-331 | the setting of a setting's ordinal is that setting |
| `Materials.Cleared` | src/main/java/nc/tile/fluid/ITileFluid.java:51 | a cleared tank holds nothing and keeps capacity and filter |
| `SaltFissionController.StateFromMeta` | src/main/java/nc/block/fission/BlockSaltFissionController.java:30-33 | active iff bit 8 is set; the facing index is meta & 7 when that is below 6 |
| `SaltFissionController.MetaFromState` | src/main/java/nc/block/fission/BlockSaltFissionController.java:36-42 | the meta is below 16, its low three bits are the facing index and bit 8 is set iff active |
| `SaltFissionController.StateMetaRoundTrip` | src/main/java/nc/block/fission/BlockSaltFissionController.java:30-42 | unpacking a packed state gives the state back |
| `SaltFissionController.MetaFromStateInjective` | src/main/java/nc/block/fission/BlockSaltFissionController.java:30-42 | different states pack to different metas |
| `SaltFissionController.PlacementStoredInactive` | src/main/java/nc/block/fission/BlockSaltFissionController.java:36-52 | a placed controller is stored as just the placer's facing index with the active bit clear, and reads back as that facing, inactive |
| `EnumFacing.FacingByIndex` | src/main/java/nc/block/fission/BlockSaltFissionController.java:31 | byIndex of 0..5 is the facing with that index |
| `FissionPort.StateForPlacement` | src/main/java/nc/block/fission/port/BlockFissionPort.java:53-55 | a placed port takes the placer's axis and stays inactive |
| `FissionPort.StateFromMeta` | src/main/java/nc/block/fission/port/BlockFissionPort.java:32-35 | defined iff meta & 3 is not 3; the axis ordinal is meta & 3 and active iff bit 4 is set |
| `FissionPort.MetaFromState` | src/main/java/nc/block/fission/port/BlockFissionPort.java:38-44 | the meta is below 8, its low two bits are the axis ordinal and bit 4 is set iff active |
| `FissionPort.StateMetaRoundTrip` | src/main/java/nc/block/fission/port/BlockFissionPort.java:32-44 | unpacking a packed state gives the state back |
| `FissionPort.MetaFromStateNeverOutOfRange` | src/main/java/nc/block/fission/port/BlockFissionPort.java:32-44 | no packed state indexes past the three axes |
| `FissionPort.PlacementStoredInactive` | src/main/java/nc/block/fission/port/BlockFissionPort.java:38-55 | a placed port is stored as just its axis ordinal with the active bit clear, and reads back as that axis, inactive |
| `UpgradableContainerInfo.UpgradeSlotsAreLastTwo` | src/main/java/nc/tile/processor/info/UpgradableProcessorContainerInfo.java:32-48 | the two upgrade slots are exactly the last two inventory indices and lie past every I/O slot |
| `UpgradableContainerInfo.SorptionButtonsDistinct` | src/main/java/nc/tile/processor/info/UpgradableProcessorContainerInfo.java:41-42 | the two upgrade buttons are distinct, consecutive, and come after one button per I/O slot and tank |
| `UpgradableContainerInfo.DefaultItemSorptions` | src/main/java/nc/tile/processor/info/UpgradableProcessorContainerInfo.java:51-56 | the parent list with exactly two IN entries appended |
| `UpgradableContainerInfo.DefaultSorptionsCoverInventory` | src/main/java/nc/tile/processor/info/UpgradableProcessorContainerInfo.java:51-56 | with one parent entry per I/O slot there is one entry per inventory slot and both upgrade slots are IN |

## Left out

- Networking, GUI and world side effects of the processor are not modelled:
  - update packets and `onTileUpdatePacket`;
  - `markDirty` and `setActivity`;
  - the radiation source;
  - the client (`isRemote`) branches. The model is the server side, so
    `hasConsumed()` always scans the staging buffers.
- `onTick` returns whether `isProcessing` changed instead of sending packets.
- Minecraft and Forge library behaviour is assumed, not modelled:
  - `ItemStack` counts and equality;
  - `FluidTank.fill` and `drain`;
  - `TankSorption.canFill`/`canDrain`;
  - `FluidConnection.canConnect` and its toggle;
  - `EnumFacing.byIndex`;
  - `PosHelper.AXES`, taken to list the axes in ordinal order.
  These are small functions or function parameters whose stated behaviour
  is that library's documented behaviour.
- Item and tank NBT serialisation (`NBTHelper`, `Tank.writeToNBT`/`readFromNBT`)
  is out. Only the five-field processor record and the tank-setting keys
  are modelled.
- `pushFluid`, the gas wrappers and GTCE integration are not modelled. They
  depend on world lookups and foreign capabilities
  (BasicRecipeHandler.java:84-90, 156-179).
- `init`/`validFluids`, `getRecipeString` and the log message of an
  invalid recipe are out. The invalid recipe is still built and returned,
  and the model does that.
- `getExtraFactors` and `getFactoredExtras` are modelled as their defaults:
  no extra factors, and extras kept.
- Times are exact reals, not IEEE doubles. No rounding artefact of
  `currentTime` or the multipliers is modelled.
- Every processor kind is assumed to meet these conditions (`EnvOk` and
  `Valid`):
  - the base process time is at least 1;
  - the speed multiplier is positive;
  - a lookup result's orders and sizes fit the processor.
  The source never checks them. Where they fail it would loop forever in
  `process` or index out of range.
- `NCMath.hcf` is assumed to be at least 1.
- The settings the processor only reads are assumed fixed during a tick:
  - the environment (output settings, multipliers, lookup);
  - the inventory stack limit;
  - halting.
- Paths of the source that dereference null are not modelled, for example a null
  fluid in a staged tank.
- `DecayGeneratorRecipes.AddRecipes` walks a table of the nine chains with a
  loop instead of making nine literal calls. The table holds the same chains
  in the same order.
- `BasicRecipeHandler.RecipeHandler.constructor`: the source constructor
  calls `addRecipes()`. The model registers recipes through each handler's
  own `AddRecipes`, called by `NewDecayGeneratorRecipes` for the decay
  generator.
- `TileFluid.FluidTile.ReadTankSettings`: in the source an out-of-range
  ordinal throws from `values()[ordinal]`. The model stops at that tank,
  keeps what was already read and reports `ok == false`.
- `FissionPort.StateFromMeta`: `meta & 3 == 3` indexes past `AXES` and
  throws in the source. The model answers `None`.
- `ProcessorSpec.IsItemValidForSlot`: with `smart_processor_input` on, the
  contract only states the empty-stack and output-slot rejection. The smart
  check itself is stated by the `BasicRecipeHandler` smart-check lemmas.
- The `isValidItemInput` smart overload's pre-filtering of candidate recipes
  (BasicRecipeHandler.java:375-407) is modelled but has no lemma of its own.
- Upgrade-slot validation and the upgrade items' effect on the multipliers
  are out. The multipliers are inputs.
- GUI coordinates in `UpgradableProcessorContainerInfo` are out. They only
  position widgets.
