/**
 * A processor tile (IProcessor) as an object: the inventory, the staging
 * buffers, the matched recipe, the progress and the flags are fields that
 * the cycle updates in place, and the tanks live in the tile's fluid part
 * (ITileFluid). Every method is proved to leave the object in the state
 * the corresponding function of ProcessorSpec computes from the old state.
 */
module ProcessorTile {
  import opened Wrappers
  import opened Materials
  import opened Recipes
  import Nbt
  import TileFluid
  import S = ProcessorSpec

  class Processor {
    const info: S.Info
    /** getInventoryStackLimit */
    const stackLimit: int
    /** The tile's tanks and their settings. */
    const fluid: TileFluid.FluidTile
    /** The handler's recipe lookup and the recipe's time and power (see S.Env). */
    const lookup: (seq<ItemStack>, seq<Tank>) -> Option<RecipeInfo>
    const recipeTime: (Recipe, real) -> real
    const recipePower: (Recipe, real) -> real
    /** isHalted */
    const halted: bool

    var stacks: seq<ItemStack>
    var consumedStacks: seq<ItemStack>
    var consumedTanks: seq<Tank>
    var recipeInfo: Option<RecipeInfo>
    var baseProcessTime: real
    var baseProcessPower: real
    var currentTime: real
    var resetTime: real
    var isProcessing: bool
    var canProcessInputs: bool
    var hasConsumed: bool
    /** getItemOutputSetting, by slot */
    var itemOutputSettings: seq<OutputSetting>
    var speedMultiplier: real
    var powerMultiplier: real

    /** What the cycle reads and never writes. */
    function Environment(): S.Env
      reads this`itemOutputSettings, this`speedMultiplier, this`powerMultiplier
      reads fluid`tankOutputSettings, fluid`voidUnusableFluidInput
    {
      S.Env(info, stackLimit, itemOutputSettings, fluid.tankOutputSettings, fluid.voidUnusableFluidInput,
            speedMultiplier, powerMultiplier, halted, lookup, recipeTime, recipePower)
    }

    /** The abstract state the cycle changes. */
    function State(): S.ProcState
      reads this, fluid
    {
      S.ProcState(stacks, consumedStacks, fluid.tanks, consumedTanks, recipeInfo, baseProcessTime, baseProcessPower,
                  currentTime, resetTime, isProcessing, canProcessInputs, hasConsumed)
    }

    /** What the environment promises about the fixed parts of the processor (see S.EnvOk). */
    ghost predicate ConstsOk() {
      && info.defaultProcessTime >= 1.0
      && (forall r :: recipeTime(r, info.defaultProcessTime) >= 1.0)
      && (forall items, fluids :: lookup(items, fluids).Some? ==>
            InfoFits(lookup(items, fluids).value, info.itemInputSize, info.fluidInputSize,
                     info.itemOutputSize, info.fluidOutputSize))
    }

    ghost predicate Valid()
      reads this, fluid
    {
      && fluid.Valid()
      && ConstsOk()
      && speedMultiplier > 0.0
      && S.Fits(Environment(), State())
    }

    constructor (info: S.Info, stackLimit: int, fluid: TileFluid.FluidTile, inventorySize: nat,
                 lookup: (seq<ItemStack>, seq<Tank>) -> Option<RecipeInfo>,
                 recipeTime: (Recipe, real) -> real, recipePower: (Recipe, real) -> real, halted: bool)
      requires fluid.Valid() && |fluid.tanks| >= info.fluidInputSize + info.fluidOutputSize
      requires inventorySize >= info.itemInputSize + info.itemOutputSize
      requires info.defaultProcessTime >= 1.0 && forall r :: recipeTime(r, info.defaultProcessTime) >= 1.0
      requires forall items, fluids :: lookup(items, fluids).Some? ==>
                 InfoFits(lookup(items, fluids).value, info.itemInputSize, info.fluidInputSize,
                          info.itemOutputSize, info.fluidOutputSize)
      ensures Valid()
      ensures this.fluid == fluid && this.info == info && this.stackLimit == stackLimit
      ensures this.lookup == lookup && this.recipeTime == recipeTime && this.recipePower == recipePower
      ensures this.halted == halted
      ensures stacks == seq(inventorySize, _ => EmptyStack)
      ensures consumedStacks == seq(info.itemInputSize, _ => EmptyStack)
      ensures |consumedTanks| == info.fluidInputSize && forall j :: 0 <= j < |consumedTanks| ==> consumedTanks[j].IsEmpty()
      ensures recipeInfo.None? && currentTime == 0.0 && resetTime == 0.0
      ensures baseProcessTime == info.defaultProcessTime && baseProcessPower == info.defaultProcessPower
      ensures !isProcessing && !canProcessInputs && !hasConsumed
      ensures speedMultiplier == 1.0 && powerMultiplier == 1.0
      ensures itemOutputSettings == seq(inventorySize, _ => Default)
    {
      this.info := info;
      this.stackLimit := stackLimit;
      this.fluid := fluid;
      this.lookup := lookup;
      this.recipeTime := recipeTime;
      this.recipePower := recipePower;
      this.halted := halted;
      stacks := seq(inventorySize, _ => EmptyStack);
      consumedStacks := seq(info.itemInputSize, _ => EmptyStack);
      consumedTanks := seq(info.fluidInputSize, _ => Tank(None, 1000, None));
      recipeInfo := None;
      baseProcessTime := info.defaultProcessTime;
      baseProcessPower := info.defaultProcessPower;
      currentTime := 0.0;
      resetTime := 0.0;
      isProcessing := false;
      canProcessInputs := false;
      hasConsumed := false;
      itemOutputSettings := seq(inventorySize, _ => Default);
      speedMultiplier := 1.0;
      powerMultiplier := 1.0;
    }

    /** setRecipeStats: the matched recipe's base time and power, or the defaults. */
    method SetRecipeStats() returns (valid: bool)
      requires ConstsOk() && speedMultiplier > 0.0
      modifies this`baseProcessTime, this`baseProcessPower
      ensures State() == S.WithRecipeStats(Environment(), old(State()))
      ensures valid == recipeInfo.Some?
    {
      if recipeInfo.None? {
        baseProcessTime := info.defaultProcessTime;
        baseProcessPower := info.defaultProcessPower;
      } else {
        baseProcessTime := recipeTime(recipeInfo.value.recipe, info.defaultProcessTime);
        baseProcessPower := recipePower(recipeInfo.value.recipe, info.defaultProcessPower);
      }
      valid := recipeInfo.Some?;
    }

    /**
     * canProduceProducts: scan the item outputs, then the fluid outputs,
     * emptying VOID outputs on the way and stopping at the first one that
     * blocks.
     */
    method CanProduceProducts() returns (b: bool)
      requires S.Fits(Environment(), State()) && recipeInfo.Some?
      modifies this`stacks, fluid`tanks
      ensures (State(), b) == S.CanProduceProducts(Environment(), old(State()))
    {
      b := ScanItemOutputs();
      if b {
        b := ScanFluidOutputs();
      }
    }

    /** The item loop of canProduceProducts. */
    method ScanItemOutputs() returns (b: bool)
      requires S.Fits(Environment(), State()) && recipeInfo.Some?
      modifies this`stacks
      ensures (State(), b) == S.ItemAdmission(Environment(), old(State()), 0)
    {
      ghost var env := Environment();
      ghost var s0 := State();
      ghost var st := s0;
      var recipe := recipeInfo.value.recipe;
      var i := 0;
      while i < info.itemOutputSize
        invariant 0 <= i <= info.itemOutputSize
        invariant S.Fits(env, st) && st == s0.(stacks := stacks)
        invariant S.ItemAdmission(env, s0, 0) == S.ItemAdmission(env, st, i)
      {
        var slot := i + info.itemInputSize;
        var setting := itemOutputSettings[slot];
        if setting == Void {
          stacks := stacks[slot := EmptyStack];
          st := st.(stacks := stacks);
        } else {
          var product := recipe.itemProducts[i];
          var size := product.MaxStackSize(0);
          var productStack := ItemProductStack(product);
          if size > 0 {
            if productStack.None? || productStack.value.IsEmpty() {
              return false;
            }
            var stack := stacks[slot];
            if !stack.IsEmpty() {
              if !IsItemEqual(stack, productStack.value) {
                return false;
              } else if setting == Default && stack.count + size > StackMaxSize(stack) {
                return false;
              }
            }
          }
        }
        i := i + 1;
      }
      return true;
    }

    /** The fluid loop of canProduceProducts. */
    method ScanFluidOutputs() returns (b: bool)
      requires S.Fits(Environment(), State()) && recipeInfo.Some?
      modifies fluid`tanks
      ensures (State(), b) == S.FluidAdmission(Environment(), old(State()), 0)
    {
      ghost var env := Environment();
      ghost var s0 := State();
      ghost var st := s0;
      var recipe := recipeInfo.value.recipe;
      var i := 0;
      while i < info.fluidOutputSize
        invariant 0 <= i <= info.fluidOutputSize
        invariant S.Fits(env, st) && st == s0.(tanks := fluid.tanks)
        invariant S.FluidAdmission(env, s0, 0) == S.FluidAdmission(env, st, i)
      {
        var t := i + info.fluidInputSize;
        var setting := fluid.tankOutputSettings[t];
        if setting == Void {
          fluid.ClearTank(t);
          st := st.(tanks := fluid.tanks);
        } else {
          var product := recipe.fluidProducts[i];
          var size := product.MaxStackSize(0);
          var productStack := FluidProductStack(product);
          if size > 0 {
            if productStack.None? {
              return false;
            }
            var tank := fluid.tanks[t];
            if !tank.IsEmpty() {
              if !IsFluidEqual(tank.stored.value, productStack) {
                return false;
              } else if setting == Default && tank.FluidAmount() + size > tank.capacity {
                return false;
              }
            }
          }
        }
        i := i + 1;
      }
      return true;
    }
    /** The first loop of consumeInputs: every staging slot that holds something is emptied. */
    method EmptyStagingStacks()
      modifies this`consumedStacks
      ensures |consumedStacks| == |old(consumedStacks)|
      ensures forall j :: 0 <= j < |consumedStacks| ==> consumedStacks[j] == S.EmptiedStack(old(consumedStacks)[j])
    {
      var i := 0;
      while i < |consumedStacks|
        invariant 0 <= i <= |consumedStacks| == |old(consumedStacks)|
        invariant forall j :: 0 <= j < i ==> consumedStacks[j] == S.EmptiedStack(old(consumedStacks)[j])
        invariant forall j :: i <= j < |consumedStacks| ==> consumedStacks[j] == old(consumedStacks)[j]
      {
        if !consumedStacks[i].IsEmpty() {
          consumedStacks := consumedStacks[i := EmptyStack];
        }
        i := i + 1;
      }
    }

    /** The second loop of consumeInputs: every staging tank that holds something is emptied. */
    method EmptyStagingTanks()
      modifies this`consumedTanks
      ensures |consumedTanks| == |old(consumedTanks)|
      ensures forall j :: 0 <= j < |consumedTanks| ==> consumedTanks[j] == S.EmptiedTank(old(consumedTanks)[j])
    {
      var i := 0;
      while i < |consumedTanks|
        invariant 0 <= i <= |consumedTanks| == |old(consumedTanks)|
        invariant forall j :: 0 <= j < i ==> consumedTanks[j] == S.EmptiedTank(old(consumedTanks)[j])
        invariant forall j :: i <= j < |consumedTanks| ==> consumedTanks[j] == old(consumedTanks)[j]
      {
        if !consumedTanks[i].IsEmpty() {
          consumedTanks := consumedTanks[i := consumedTanks[i].WithFluid(None)];
        }
        i := i + 1;
      }
    }

    /**
     * The item loop of consumeInputs: each input slot gives up its matched
     * ingredient size, staged first when the processor consumes up front.
     */
    method ConsumeItemInputs(ri: RecipeInfo, consumes: bool)
      requires ri.itemInputOrder.Some? && InfoFits(ri, info.itemInputSize, 0, 0, 0)
      requires |stacks| >= info.itemInputSize && |consumedStacks| == info.itemInputSize
      modifies this`stacks, this`consumedStacks
      ensures |stacks| == |old(stacks)| && |consumedStacks| == |old(consumedStacks)|
      ensures forall j :: 0 <= j < |stacks| ==>
        stacks[j] == if j < info.itemInputSize then S.ShrunkStack(old(stacks)[j], S.ItemIngredientSize(ri, info.itemInputSize, j))
                     else old(stacks)[j]
      ensures forall j :: 0 <= j < |consumedStacks| ==>
        consumedStacks[j] == if consumes && S.ItemIngredientSize(ri, info.itemInputSize, j) > 0
                             then ItemStack(GetItem(old(stacks)[j]), S.ItemIngredientSize(ri, info.itemInputSize, j))
                             else old(consumedStacks)[j]
    {
      var itemIn := info.itemInputSize;
      var i := 0;
      while i < itemIn
        invariant 0 <= i <= itemIn
        invariant |stacks| == |old(stacks)| && |consumedStacks| == |old(consumedStacks)|
        invariant forall j :: 0 <= j < |stacks| ==>
          stacks[j] == if j < i then S.ShrunkStack(old(stacks)[j], S.ItemIngredientSize(ri, itemIn, j)) else old(stacks)[j]
        invariant forall j :: 0 <= j < |consumedStacks| ==>
          consumedStacks[j] == if j < i && consumes && S.ItemIngredientSize(ri, itemIn, j) > 0
                               then ItemStack(GetItem(old(stacks)[j]), S.ItemIngredientSize(ri, itemIn, j))
                               else old(consumedStacks)[j]
      {
        var size := S.ItemIngredientSize(ri, itemIn, i);
        var stack := stacks[i];
        if size > 0 {
          if consumes {
            consumedStacks := consumedStacks[i := ItemStack(GetItem(stack), size)];
          }
          stack := stack.(count := stack.count - size);
        }
        if GetCount(stack) <= 0 {
          stack := EmptyStack;
        }
        stacks := stacks[i := stack];
        i := i + 1;
      }
    }

    /**
     * The tank loop of consumeInputs: each input tank gives up its matched
     * ingredient amount, staged first when the processor consumes up front.
     */
    method ConsumeFluidInputs(ri: RecipeInfo, consumes: bool)
      requires ri.fluidInputOrder.Some? && InfoFits(ri, 0, info.fluidInputSize, 0, 0)
      requires |fluid.tanks| >= info.fluidInputSize && |consumedTanks| == info.fluidInputSize
      modifies fluid`tanks, this`consumedTanks
      ensures |fluid.tanks| == |old(fluid.tanks)| && |consumedTanks| == |old(consumedTanks)|
      ensures forall j :: 0 <= j < |fluid.tanks| ==>
        fluid.tanks[j] == if j < info.fluidInputSize
                          then S.DrainedInputTank(old(fluid.tanks)[j], S.FluidIngredientSize(ri, info.fluidInputSize, j))
                          else old(fluid.tanks)[j]
      ensures forall j :: 0 <= j < |consumedTanks| ==>
        consumedTanks[j] == if consumes && S.FluidIngredientSize(ri, info.fluidInputSize, j) > 0
                            then old(consumedTanks)[j].WithFluid(
                                   S.StagedFluid(old(fluid.tanks)[j], S.FluidIngredientSize(ri, info.fluidInputSize, j)))
                            else old(consumedTanks)[j]
    {
      var fluidIn := info.fluidInputSize;
      var i := 0;
      while i < fluidIn
        invariant 0 <= i <= fluidIn
        invariant |fluid.tanks| == |old(fluid.tanks)| && |consumedTanks| == |old(consumedTanks)|
        invariant forall j :: 0 <= j < |fluid.tanks| ==>
          fluid.tanks[j] == if j < i then S.DrainedInputTank(old(fluid.tanks)[j], S.FluidIngredientSize(ri, fluidIn, j))
                            else old(fluid.tanks)[j]
        invariant forall j :: 0 <= j < |consumedTanks| ==>
          consumedTanks[j] == if j < i && consumes && S.FluidIngredientSize(ri, fluidIn, j) > 0
                              then old(consumedTanks)[j].WithFluid(S.StagedFluid(old(fluid.tanks)[j], S.FluidIngredientSize(ri, fluidIn, j)))
                              else old(consumedTanks)[j]
      {
        var size := S.FluidIngredientSize(ri, fluidIn, i);
        var tank := fluid.tanks[i];
        if size > 0 {
          if consumes {
            consumedTanks := consumedTanks[i := consumedTanks[i].WithFluid(S.StagedFluid(tank, size))];
          }
          tank := tank.ChangeAmount(-size);
        }
        if tank.FluidAmount() <= 0 {
          tank := tank.WithFluid(None);
        }
        fluid.tanks := fluid.tanks[i := tank];
        i := i + 1;
      }
    }

    /**
     * consumeInputs: nothing when already consumed, without a recipe or with
     * an INVALID input order; otherwise every input gives up what its
     * ingredient needs, staged when the processor consumes up front.
     */
    method ConsumeInputs()
      requires Valid()
      modifies this`stacks, this`consumedStacks, fluid`tanks, this`consumedTanks, this`hasConsumed
      ensures Valid() && Environment() == old(Environment())
      ensures State() == S.ConsumeInputs(Environment(), old(State()))
    {
      if hasConsumed || recipeInfo.None? {
        return;
      }
      var ri := recipeInfo.value;
      if ri.itemInputOrder.None? || ri.fluidInputOrder.None? {
        return;
      }
      ConsumeItems(ri);
      ConsumeFluids(ri);
      if info.consumesInputs {
        hasConsumed := true;
      }
    }

    /** The item half of consumeInputs: staging slots emptied when consuming up front, then the item loop. */
    method ConsumeItems(ri: RecipeInfo)
      requires S.Fits(Environment(), State()) && ri.itemInputOrder.Some? && InfoFits(ri, info.itemInputSize, 0, 0, 0)
      modifies this`stacks, this`consumedStacks
      ensures State() == S.ConsumedItems(Environment(), old(State()), ri)
    {
      ghost var env, s0 := Environment(), State();
      var consumes := info.consumesInputs;
      if consumes {
        EmptyStagingStacks();
      }
      ConsumeItemInputs(ri, consumes);
      assert stacks == S.ConsumedItems(env, s0, ri).stacks;
      assert consumedStacks == S.ConsumedItems(env, s0, ri).consumedStacks;
    }

    /** The tank half of consumeInputs. */
    method ConsumeFluids(ri: RecipeInfo)
      requires S.Fits(Environment(), State()) && ri.fluidInputOrder.Some? && InfoFits(ri, 0, info.fluidInputSize, 0, 0)
      modifies fluid`tanks, this`consumedTanks
      ensures State() == S.ConsumedFluids(Environment(), old(State()), ri)
    {
      ghost var env, s0 := Environment(), State();
      var consumes := info.consumesInputs;
      if consumes {
        EmptyStagingTanks();
      }
      ConsumeFluidInputs(ri, consumes);
      assert fluid.tanks == S.ConsumedFluids(env, s0, ri).tanks;
      assert consumedTanks == S.ConsumedFluids(env, s0, ri).consumedTanks;
    }

    /** The staging buffers emptied, as produceProducts and canProcessInputs do. */
    method ClearStaging()
      requires |consumedStacks| == info.itemInputSize
      modifies this`consumedStacks, this`consumedTanks
      ensures |consumedStacks| == |old(consumedStacks)| && |consumedTanks| == |old(consumedTanks)|
      ensures forall j :: 0 <= j < |consumedStacks| ==> consumedStacks[j] == EmptyStack
      ensures forall j :: 0 <= j < |consumedTanks| ==> consumedTanks[j] == Cleared(old(consumedTanks)[j])
    {
      var i := 0;
      while i < info.itemInputSize
        invariant 0 <= i <= info.itemInputSize && |consumedStacks| == info.itemInputSize
        invariant forall j :: 0 <= j < i ==> consumedStacks[j] == EmptyStack
        invariant consumedTanks == old(consumedTanks)
      {
        consumedStacks := consumedStacks[i := EmptyStack];
        i := i + 1;
      }
      ClearConsumedTanks();
    }

    /** Every staging tank emptied. */
    method ClearConsumedTanks()
      modifies this`consumedTanks
      ensures |consumedTanks| == |old(consumedTanks)|
      ensures forall j :: 0 <= j < |consumedTanks| ==> consumedTanks[j] == Cleared(old(consumedTanks)[j])
    {
      var i := 0;
      while i < |consumedTanks|
        invariant 0 <= i <= |consumedTanks| == |old(consumedTanks)|
        invariant forall j :: 0 <= j < |consumedTanks| ==>
          consumedTanks[j] == if j < i then Cleared(old(consumedTanks)[j]) else old(consumedTanks)[j]
      {
        consumedTanks := consumedTanks[i := consumedTanks[i].WithFluid(None)];
        i := i + 1;
      }
    }

    /** The item loop of produceProducts: every output slot receives one cycle's product. */
    method ProduceItemOutputs(recipe: Recipe)
      requires |stacks| >= info.itemInputSize + info.itemOutputSize && |itemOutputSettings| == |stacks|
      requires |recipe.itemProducts| >= info.itemOutputSize
      requires forall k :: 0 <= k < |recipe.itemProducts| ==> recipe.itemProducts[k].Ok()
      modifies this`stacks
      ensures |stacks| == |old(stacks)|
      ensures forall j :: 0 <= j < |stacks| ==>
        stacks[j] == if info.itemInputSize <= j < info.itemInputSize + info.itemOutputSize
                     then S.ProducedItemSlot(Environment(), recipe, old(stacks)[j], j - info.itemInputSize)
                     else old(stacks)[j]
    {
      ghost var env := Environment();
      var i := 0;
      while i < info.itemOutputSize
        invariant 0 <= i <= info.itemOutputSize && |stacks| == |old(stacks)|
        invariant forall j :: 0 <= j < |stacks| ==>
          stacks[j] == if info.itemInputSize <= j < info.itemInputSize + i
                       then S.ProducedItemSlot(env, recipe, old(stacks)[j], j - info.itemInputSize)
                       else old(stacks)[j]
      {
        var slot := i + info.itemInputSize;
        if itemOutputSettings[slot] == Void {
          stacks := stacks[slot := EmptyStack];
        } else {
          var product := recipe.itemProducts[i];
          if product.MaxStackSize(0) > 0 {
            var current := stacks[slot];
            var next := NextItemStack(product);
            if current.IsEmpty() {
              stacks := stacks[slot := next];
            } else if S.SameItem(current, ItemProductStack(product)) {
              stacks := stacks[slot := current.(count := S.Min(stackLimit, current.count + GetCount(next)))];
            }
          }
        }
        i := i + 1;
      }
    }

    /** The fluid loop of produceProducts: every output tank receives one cycle's product. */
    method ProduceFluidOutputs(recipe: Recipe)
      requires |fluid.tanks| >= info.fluidInputSize + info.fluidOutputSize && |fluid.tankOutputSettings| == |fluid.tanks|
      requires |recipe.fluidProducts| >= info.fluidOutputSize
      requires forall k :: 0 <= k < |recipe.fluidProducts| ==> recipe.fluidProducts[k].Ok()
      modifies fluid`tanks
      ensures |fluid.tanks| == |old(fluid.tanks)|
      ensures forall j :: 0 <= j < |fluid.tanks| ==>
        fluid.tanks[j] == if info.fluidInputSize <= j < info.fluidInputSize + info.fluidOutputSize
                          then S.ProducedTank(Environment(), recipe, old(fluid.tanks)[j], j - info.fluidInputSize)
                          else old(fluid.tanks)[j]
    {
      ghost var env := Environment();
      var i := 0;
      while i < info.fluidOutputSize
        invariant 0 <= i <= info.fluidOutputSize && |fluid.tanks| == |old(fluid.tanks)|
        invariant forall j :: 0 <= j < |fluid.tanks| ==>
          fluid.tanks[j] == if info.fluidInputSize <= j < info.fluidInputSize + i
                            then S.ProducedTank(env, recipe, old(fluid.tanks)[j], j - info.fluidInputSize)
                            else old(fluid.tanks)[j]
      {
        var t := i + info.fluidInputSize;
        if fluid.tankOutputSettings[t] == Void {
          fluid.ClearTank(t);
        } else {
          var product := recipe.fluidProducts[i];
          if product.MaxStackSize(0) > 0 {
            var tank := fluid.tanks[t];
            var next := NextFluidStack(product);
            if tank.IsEmpty() {
              fluid.tanks := fluid.tanks[t := tank.WithFluid(next)];
            } else if IsFluidEqual(tank.stored.value, FluidProductStack(product)) {
              fluid.tanks := fluid.tanks[t := tank.ChangeAmount(if next.Some? then next.value.amount else 0)];
            }
          }
        }
        i := i + 1;
      }
    }

    /** The two output loops of produceProducts together. */
    method ProduceOutputs()
      requires S.Fits(Environment(), State()) && recipeInfo.Some?
      modifies this`stacks, fluid`tanks
      ensures State() == S.ProduceOutputs(Environment(), old(State()))
    {
      ghost var env, s0 := Environment(), State();
      var recipe := recipeInfo.value.recipe;
      ProduceItemOutputs(recipe);
      ProduceFluidOutputs(recipe);
      ghost var r := S.ProduceOutputs(env, s0);
      assert stacks == r.stacks;
      assert fluid.tanks == r.tanks;
    }

    /**
     * produceProducts: a consuming processor empties its staging buffers and
     * produces only if it had consumed; one that does not consume up front
     * consumes now; then every output receives one cycle's product.
     */
    method ProduceProducts()
      requires Valid()
      modifies this`stacks, this`consumedStacks, fluid`tanks, this`consumedTanks, this`hasConsumed
      ensures Valid() && Environment() == old(Environment())
      ensures State() == S.ProduceProducts(Environment(), old(State()))
    {
      ghost var env, s0 := Environment(), State();
      var consumes := info.consumesInputs;
      if consumes {
        ClearStaging();
        assert State() == S.ClearedStaging(env, s0);
      }
      if (consumes && !hasConsumed) || recipeInfo.None? {
        return;
      }
      if !consumes {
        ConsumeInputs();
      }
      ProduceOutputs();
      if consumes {
        hasConsumed := false;
      }
    }

    /**
     * canProcessInputs: set the recipe stats; with inputs consumed for a
     * recipe that no longer exists, discard the staged inputs; the answer is
     * whether there is a recipe whose products fit, and on a false answer
     * the progress is clamped below the base process time.
     */
    method CanProcessInputs() returns (b: bool)
      requires Valid()
      modifies this`baseProcessTime, this`baseProcessPower, this`consumedStacks, this`consumedTanks, this`hasConsumed
      modifies this`stacks, fluid`tanks, this`currentTime
      ensures Valid() && Environment() == old(Environment())
      ensures (State(), b) == S.CanProcessInputs(Environment(), old(State()))
    {
      var validRecipe := SetRecipeStats();
      if hasConsumed && !validRecipe {
        DiscardStaging();
      }
      b := false;
      if validRecipe {
        b := CanProduceProducts();
      }
      if !b {
        currentTime := S.Clamp(currentTime, 0.0, baseProcessTime - 1.0);
      }
    }

    /** Inputs staged for a recipe that no longer exists are discarded. */
    method DiscardStaging()
      requires S.Fits(Environment(), State()) && hasConsumed && recipeInfo.None?
      modifies this`consumedStacks, this`consumedTanks, this`hasConsumed
      ensures State() == S.DiscardStale(Environment(), old(State()))
    {
      ClearStaging();
      hasConsumed := false;
    }

    /** refreshActivity (and refreshActivityOnProduction): record whether the inputs can be processed. */
    method RefreshActivity()
      requires Valid()
      modifies this`baseProcessTime, this`baseProcessPower, this`consumedStacks, this`consumedTanks, this`hasConsumed
      modifies this`stacks, fluid`tanks, this`currentTime, this`canProcessInputs
      ensures Valid() && Environment() == old(Environment())
      ensures State() == S.RefreshActivity(Environment(), old(State()))
    {
      canProcessInputs := CanProcessInputs();
    }

    /** refreshRecipe: look the recipe up from the current inputs, and consume up front if the processor does. */
    method RefreshRecipe()
      requires Valid()
      modifies this`recipeInfo, this`stacks, this`consumedStacks, fluid`tanks, this`consumedTanks, this`hasConsumed
      ensures Valid() && Environment() == old(Environment())
      ensures State() == S.RefreshRecipe(Environment(), old(State()))
    {
      var consumed := hasConsumed;
      var items := if consumed then consumedStacks else stacks[..info.itemInputSize];
      var fluids := if consumed then consumedTanks else fluid.tanks[..info.fluidInputSize];
      recipeInfo := lookup(items, fluids);
      if info.consumesInputs {
        ConsumeInputs();
      }
    }

    /** The loop at the end of finishProcess: input tanks set to void unusable input are emptied. */
    method VoidUnusableInputs()
      requires |fluid.tanks| >= info.fluidInputSize && |fluid.voidUnusableFluidInput| == |fluid.tanks|
      modifies fluid`tanks
      ensures |fluid.tanks| == |old(fluid.tanks)|
      ensures forall j :: 0 <= j < |fluid.tanks| ==>
        fluid.tanks[j] == if j < info.fluidInputSize && fluid.voidUnusableFluidInput[j] then Cleared(old(fluid.tanks)[j])
                          else old(fluid.tanks)[j]
    {
      var i := 0;
      while i < info.fluidInputSize
        invariant 0 <= i <= info.fluidInputSize && |fluid.tanks| == |old(fluid.tanks)|
        invariant forall j :: 0 <= j < |fluid.tanks| ==>
          fluid.tanks[j] == if j < i && fluid.voidUnusableFluidInput[j] then Cleared(old(fluid.tanks)[j])
                            else old(fluid.tanks)[j]
      {
        if fluid.voidUnusableFluidInput[i] {
          fluid.tanks := fluid.tanks[i := fluid.tanks[i].WithFluid(None)];
        }
        i := i + 1;
      }
    }

    /**
     * finishProcess: produce, re-match, carry the excess progress into the
     * next cycle, re-check activity, and when the inputs can no longer be
     * processed zero both times and void the unusable inputs.
     */
    method FinishProcess()
      requires Valid()
      modifies this`stacks, this`consumedStacks, fluid`tanks, this`consumedTanks, this`hasConsumed, this`recipeInfo
      modifies this`baseProcessTime, this`baseProcessPower, this`currentTime, this`resetTime, this`canProcessInputs
      ensures Valid() && Environment() == old(Environment())
      ensures State() == S.FinishProcess(Environment(), old(State()))
    {
      var oldProcessTime := baseProcessTime;
      ProduceAndRematch();
      CarryOver(oldProcessTime);
      VoidIfStalled();
    }

    /** The first half of finishProcess: produce, then match the inputs against the recipes again. */
    method ProduceAndRematch()
      requires Valid()
      modifies this`stacks, this`consumedStacks, fluid`tanks, this`consumedTanks, this`hasConsumed, this`recipeInfo
      ensures Valid() && Environment() == old(Environment())
      ensures State() == S.RefreshRecipe(Environment(), S.ProduceProducts(Environment(), old(State())))
    {
      ProduceProducts();
      RefreshRecipe();
    }

    /** Carry the progress beyond `processTime` into the next cycle and re-check activity. */
    method CarryOver(processTime: real)
      requires Valid()
      modifies this`baseProcessTime, this`baseProcessPower, this`consumedStacks, this`consumedTanks, this`hasConsumed
      modifies this`stacks, fluid`tanks, this`currentTime, this`resetTime, this`canProcessInputs
      ensures Valid() && Environment() == old(Environment())
      ensures State() == S.CarryOver(Environment(), old(State()), processTime)
    {
      ghost var s0 := State();
      var newTime := S.MaxReal(0.0, currentTime - processTime);
      currentTime, resetTime := newTime, newTime;
      assert State() == s0.(currentTime := newTime, resetTime := newTime);
      RefreshActivity();
    }

    /** When the inputs can no longer be processed: zero both times and void the unusable inputs. */
    method VoidIfStalled()
      requires Valid()
      modifies this`currentTime, this`resetTime, fluid`tanks
      ensures Valid() && Environment() == old(Environment())
      ensures State() == S.VoidIfStalled(Environment(), old(State()))
    {
      if !canProcessInputs {
        currentTime := 0.0;
        resetTime := 0.0;
        VoidUnusableInputs();
      }
    }

    /** process: advance by the speed multiplier, then finish every cycle the progress covers. */
    method Process()
      requires Valid()
      modifies this`stacks, this`consumedStacks, fluid`tanks, this`consumedTanks, this`hasConsumed, this`recipeInfo
      modifies this`baseProcessTime, this`baseProcessPower, this`currentTime, this`resetTime, this`canProcessInputs
      ensures Valid() && Environment() == old(Environment())
      ensures State() == S.Process(Environment(), old(State()))
    {
      Advance();
      CompleteCycles();
    }

    /** The first step of process: progress advances by the speed multiplier. */
    method Advance()
      modifies this`currentTime
      ensures State() == S.Advanced(Environment(), old(State()))
    {
      currentTime := currentTime + speedMultiplier;
    }

    /** The loop of process: finish a cycle while the progress covers a whole one. */
    method CompleteCycles()
      requires Valid()
      modifies this`stacks, this`consumedStacks, fluid`tanks, this`consumedTanks, this`hasConsumed, this`recipeInfo
      modifies this`baseProcessTime, this`baseProcessPower, this`currentTime, this`resetTime, this`canProcessInputs
      ensures Valid() && Environment() == old(Environment())
      ensures State() == S.CompleteCycles(Environment(), old(State()))
    {
      ghost var env, s0 := Environment(), State();
      while currentTime >= baseProcessTime
        invariant Valid() && Environment() == env
        invariant S.CompleteCycles(env, State()) == S.CompleteCycles(env, s0)
        decreases currentTime.Floor
      {
        FinishCoveredCycle();
      }
    }

    /** One turn of the loop of process: a cycle the progress covers is finished. */
    method FinishCoveredCycle()
      requires Valid() && currentTime >= baseProcessTime
      modifies this`stacks, this`consumedStacks, fluid`tanks, this`consumedTanks, this`hasConsumed, this`recipeInfo
      modifies this`baseProcessTime, this`baseProcessPower, this`currentTime, this`resetTime, this`canProcessInputs
      ensures Valid() && 0.0 <= currentTime <= old(currentTime) - 1.0
      ensures Environment() == old(Environment())
      ensures S.CompleteCycles(Environment(), State()) == S.CompleteCycles(Environment(), old(State()))
    {
      S.CompleteCyclesStep(Environment(), State());
      FinishProcess();
    }

    /** loseProgress: progress falls by 1.5 times the speed, within [0, base]; resetTime only follows it down. */
    method LoseProgress()
      modifies this`currentTime, this`resetTime
      ensures State() == S.LoseProgress(Environment(), old(State()))
    {
      var newTime := S.Clamp(currentTime - 1.5 * speedMultiplier, 0.0, baseProcessTime);
      currentTime := newTime;
      if newTime < resetTime {
        resetTime := newTime;
      }
    }

    /**
     * onTick: record whether the processor is processing, then process or
     * let idle progress decay or reset; `changed` says whether the activity
     * flipped.
     */
    method OnTick() returns (changed: bool)
      requires Valid()
      modifies this`stacks, this`consumedStacks, fluid`tanks, this`consumedTanks, this`hasConsumed, this`recipeInfo
      modifies this`baseProcessTime, this`baseProcessPower, this`currentTime, this`resetTime, this`canProcessInputs
      modifies this`isProcessing
      ensures Valid() && Environment() == old(Environment())
      ensures (State(), changed) == S.OnTick(Environment(), old(State()))
    {
      var wasProcessing := isProcessing;
      isProcessing := canProcessInputs && (!info.consumesInputs || hasConsumed) && !halted;
      if isProcessing {
        Process();
      } else {
        IdleTick();
      }
      changed := wasProcessing != isProcessing;
    }

    /** An idle tick: progress decays or, when the inputs cannot be processed, resets. */
    method IdleTick()
      modifies this`currentTime, this`resetTime
      ensures State() == S.IdleTick(Environment(), old(State()))
    {
      if currentTime > 0.0 {
        if info.losesProgress && !halted {
          LoseProgress();
        } else if !canProcessInputs {
          currentTime := 0.0;
          resetTime := 0.0;
        }
      }
    }

    /** hasConsumed: whether a consuming processor holds anything in a staging slot or tank. */
    method HasConsumed() returns (b: bool)
      ensures b == S.HasConsumed(Environment(), State())
    {
      if !info.consumesInputs {
        return false;
      }
      var i := 0;
      while i < |consumedStacks|
        invariant 0 <= i <= |consumedStacks|
        invariant forall j :: 0 <= j < i ==> consumedStacks[j].IsEmpty()
      {
        if !consumedStacks[i].IsEmpty() {
          return true;
        }
        i := i + 1;
      }
      i := 0;
      while i < |consumedTanks|
        invariant 0 <= i <= |consumedTanks|
        invariant forall j :: 0 <= j < i ==> consumedTanks[j].IsEmpty()
      {
        if !consumedTanks[i].IsEmpty() {
          return true;
        }
        i := i + 1;
      }
      return false;
    }

    /** refreshAll: re-match, re-check activity, then recompute isProcessing and hasConsumed. */
    method RefreshAll()
      requires Valid()
      modifies this`stacks, this`consumedStacks, fluid`tanks, this`consumedTanks, this`hasConsumed, this`recipeInfo
      modifies this`baseProcessTime, this`baseProcessPower, this`currentTime, this`canProcessInputs, this`isProcessing
      ensures Valid() && Environment() == old(Environment())
      ensures State() == S.RefreshAll(Environment(), old(State()))
    {
      RefreshRecipe();
      RefreshActivity();
      RefreshFlags();
    }

    /** The end of refreshAll: isProcessing and then hasConsumed recomputed. */
    method RefreshFlags()
      modifies this`isProcessing, this`hasConsumed
      ensures State() == S.RefreshFlags(Environment(), old(State()))
    {
      isProcessing := canProcessInputs && (!info.consumesInputs || hasConsumed) && !halted;
      hasConsumed := HasConsumed();
    }

    /** clearAllSlots: every inventory slot and every staging slot emptied, then refreshAll. */
    method ClearAllSlots()
      requires Valid()
      modifies this`stacks, this`consumedStacks, fluid`tanks, this`consumedTanks, this`hasConsumed, this`recipeInfo
      modifies this`baseProcessTime, this`baseProcessPower, this`currentTime, this`canProcessInputs, this`isProcessing
      ensures Valid() && Environment() == old(Environment())
      ensures State() == S.ClearAllSlots(Environment(), old(State()))
    {
      EmptySlots();
      RefreshAll();
    }

    /** Every inventory slot and every staging slot emptied. */
    method EmptySlots()
      modifies this`stacks, this`consumedStacks
      ensures State() == S.EmptiedSlots(old(State()))
    {
      stacks := seq(|stacks|, _ => EmptyStack);
      consumedStacks := seq(|consumedStacks|, _ => EmptyStack);
    }

    /** The processor's clearAllTanks: every tank and every staging tank emptied, then refreshAll. */
    method ClearAllTanks()
      requires Valid()
      modifies this`stacks, this`consumedStacks, fluid`tanks, this`consumedTanks, this`hasConsumed, this`recipeInfo
      modifies this`baseProcessTime, this`baseProcessPower, this`currentTime, this`canProcessInputs, this`isProcessing
      ensures Valid() && Environment() == old(Environment())
      ensures State() == S.ClearAllTanks(Environment(), old(State()))
    {
      ghost var env, s0 := Environment(), State();
      fluid.ClearAllTanks();
      ClearConsumedTanks();
      assert State() == S.EmptiedTanks(s0);
      RefreshAll();
    }

    /** setInventorySlotContents: put the stack in the slot, then refresh for that slot. */
    method SetInventorySlotContents(slot: int, stack: ItemStack)
      requires Valid() && 0 <= slot < |stacks|
      modifies this`stacks, this`consumedStacks, fluid`tanks, this`consumedTanks, this`hasConsumed, this`recipeInfo
      modifies this`baseProcessTime, this`baseProcessPower, this`currentTime, this`canProcessInputs
      ensures Valid() && Environment() == old(Environment())
      ensures State() == S.SetInventorySlotContents(Environment(), old(State()), slot, stack)
    {
      stacks := stacks[slot := stack];
      SlotChanged(slot);
    }

    /** decrStackSize: split up to `amount` items off the slot, then refresh for that slot. */
    method DecrStackSize(slot: int, amount: int) returns (taken: ItemStack)
      requires Valid()
      modifies this`stacks, this`consumedStacks, fluid`tanks, this`consumedTanks, this`hasConsumed, this`recipeInfo
      modifies this`baseProcessTime, this`baseProcessPower, this`currentTime, this`canProcessInputs
      ensures Valid() && Environment() == old(Environment())
      ensures (State(), taken) == S.DecrStackSize(Environment(), old(State()), slot, amount)
    {
      taken := SplitOff(slot, amount);
      SlotChanged(slot);
    }

    /** The first half of decrStackSize: up to `amount` items split off the slot. */
    method SplitOff(slot: int, amount: int) returns (taken: ItemStack)
      modifies this`stacks
      ensures (State(), taken) == S.SplitOff(old(State()), slot, amount)
    {
      if 0 <= slot < |stacks| && !stacks[slot].IsEmpty() && amount > 0 {
        var stack := stacks[slot];
        var n := S.Min(amount, stack.count);
        taken := stack.(count := n);
        stacks := stacks[slot := stack.(count := stack.count - n)];
      } else {
        taken := EmptyStack;
      }
    }

    /** The refresh after a slot change: inputs re-match and re-check, outputs only re-check. */
    method SlotChanged(slot: int)
      requires Valid()
      modifies this`stacks, this`consumedStacks, fluid`tanks, this`consumedTanks, this`hasConsumed, this`recipeInfo
      modifies this`baseProcessTime, this`baseProcessPower, this`currentTime, this`canProcessInputs
      ensures Valid() && Environment() == old(Environment())
      ensures State() == S.SlotChanged(Environment(), old(State()), slot)
    {
      if slot < info.itemInputSize {
        RefreshRecipe();
        RefreshActivity();
      } else if slot < info.itemInputSize + info.itemOutputSize {
        RefreshActivity();
      }
    }

    /** writeProcessorNBT */
    method WriteProcessorNBT(nbt: Nbt.Compound) returns (r: Nbt.Compound)
      ensures r == S.WriteProcessorNBT(State(), nbt)
    {
      r := Nbt.SetDouble(nbt, Nbt.Time, currentTime);
      r := Nbt.SetDouble(r, Nbt.ResetTime, resetTime);
      r := Nbt.SetBoolean(r, Nbt.IsProcessing, isProcessing);
      r := Nbt.SetBoolean(r, Nbt.CanProcessInputs, canProcessInputs);
      r := Nbt.SetBoolean(r, Nbt.HasConsumed, hasConsumed);
    }

    /** readProcessorNBT */
    method ReadProcessorNBT(nbt: Nbt.Compound)
      modifies this`currentTime, this`resetTime, this`isProcessing, this`canProcessInputs, this`hasConsumed
      ensures State() == S.ReadProcessorNBT(old(State()), nbt)
    {
      currentTime := Nbt.GetDouble(nbt, Nbt.Time);
      resetTime := Nbt.GetDouble(nbt, Nbt.ResetTime);
      isProcessing := Nbt.GetBoolean(nbt, Nbt.IsProcessing);
      canProcessInputs := Nbt.GetBoolean(nbt, Nbt.CanProcessInputs);
      hasConsumed := Nbt.GetBoolean(nbt, Nbt.HasConsumed);
    }
  }
}
