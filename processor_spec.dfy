/**
 * The processor cycle (IProcessor) as functions of the processor's state.
 *
 * A processor holds an inventory (input slots, then output slots, then any
 * upgrade slots), a tank list (input tanks, then output tanks), two staging
 * buffers for inputs consumed up front ("consumed" stacks and tanks), the
 * matched recipe, the base process time and power, the progress
 * (`currentTime`, `resetTime`) and three flags. Each tick it either advances
 * progress and completes as many cycles as the progress covers, or decays or
 * resets progress.
 *
 * Times and multipliers are exact reals; the source's doubles are not
 * modelled bit for bit.
 */
module ProcessorSpec {
  import opened Wrappers
  import opened Materials
  import opened Recipes
  import Nbt
  import BasicRecipeHandler

  /** The fixed shape of a processor kind (ProcessorContainerInfo). */
  datatype Info = Info(
    itemInputSize: nat,
    fluidInputSize: nat,
    itemOutputSize: nat,
    fluidOutputSize: nat,
    consumesInputs: bool,
    losesProgress: bool,
    defaultProcessTime: real,
    defaultProcessPower: real)

  /**
   * What the cycle reads but never changes: the kind, the inventory stack
   * limit, the per-slot and per-tank settings, the upgrade multipliers, the
   * halt flag, the recipe lookup (getRecipeInfoFromInputs) and the recipe's
   * own time and power (getBaseProcessTime/Power, given the defaults).
   */
  datatype Env = Env(
    info: Info,
    stackLimit: int,
    itemOutputSettings: seq<OutputSetting>,
    tankOutputSettings: seq<OutputSetting>,
    voidUnusable: seq<bool>,
    speedMultiplier: real,
    powerMultiplier: real,
    halted: bool,
    lookup: (seq<ItemStack>, seq<Tank>) -> Option<RecipeInfo>,
    recipeTime: (Recipe, real) -> real,
    recipePower: (Recipe, real) -> real)

  datatype ProcState = ProcState(
    stacks: seq<ItemStack>,
    consumedStacks: seq<ItemStack>,
    tanks: seq<Tank>,
    consumedTanks: seq<Tank>,
    recipeInfo: Option<RecipeInfo>,
    baseProcessTime: real,
    baseProcessPower: real,
    currentTime: real,
    resetTime: real,
    isProcessing: bool,
    canProcessInputs: bool,
    hasConsumed: bool)

  /**
   * What the environment promises: a positive speed, process times of at
   * least one tick, and lookups whose results fit the processor's sizes.
   */
  ghost predicate EnvOk(env: Env) {
    && env.speedMultiplier > 0.0
    && env.info.defaultProcessTime >= 1.0
    && (forall r :: env.recipeTime(r, env.info.defaultProcessTime) >= 1.0)
    && (forall items, fluids :: env.lookup(items, fluids).Some? ==>
          InfoFits(env.lookup(items, fluids).value, env.info.itemInputSize, env.info.fluidInputSize,
                   env.info.itemOutputSize, env.info.fluidOutputSize))
  }

  /** The state fits the processor kind, and the base process time is at least one tick. */
  predicate Fits(env: Env, s: ProcState) {
    var info := env.info;
    && |s.stacks| >= info.itemInputSize + info.itemOutputSize
    && |env.itemOutputSettings| == |s.stacks|
    && |s.consumedStacks| == info.itemInputSize
    && |s.tanks| >= info.fluidInputSize + info.fluidOutputSize
    && |env.tankOutputSettings| == |s.tanks|
    && |env.voidUnusable| == |s.tanks|
    && |s.consumedTanks| == info.fluidInputSize
    && (s.recipeInfo.Some? ==>
          InfoFits(s.recipeInfo.value, info.itemInputSize, info.fluidInputSize, info.itemOutputSize, info.fluidOutputSize))
    && s.baseProcessTime >= 1.0
  }

  // Time, power and energy

  /** Math.ceil */
  function Ceil(x: real): (n: int)
    ensures n as real >= x && (n - 1) as real < x
  {
    -((-x).Floor)
  }

  /** MathHelper.clamp */
  function Clamp(x: real, lo: real, hi: real): real {
    if x < lo then lo else if x > hi then hi else x
  }

  function MaxReal(a: real, b: real): real {
    if a >= b then a else b
  }

  /** getProcessTime: the ticks one cycle takes at this speed, at least one. */
  function ProcessTime(baseProcessTime: real, speedMultiplier: real): (t: int)
    requires speedMultiplier > 0.0
    ensures t >= 1 && t as real >= baseProcessTime / speedMultiplier
    ensures t == 1 || (t - 1) as real < baseProcessTime / speedMultiplier
  {
    var c := Ceil(baseProcessTime / speedMultiplier);
    if c < 1 then 1 else c
  }

  /** getProcessPower: energy per tick, rounded up. */
  function ProcessPower(baseProcessPower: real, powerMultiplier: real): (p: int)
    ensures p as real >= baseProcessPower * powerMultiplier
    ensures (p - 1) as real < baseProcessPower * powerMultiplier
  {
    Ceil(baseProcessPower * powerMultiplier)
  }

  /** getProcessEnergy: the product taken in doubles, then truncated to a long. */
  function ProcessEnergy(baseProcessTime: real, speedMultiplier: real, baseProcessPower: real, powerMultiplier: real): int
    requires speedMultiplier > 0.0
  {
    var time := MaxReal(1.0, Ceil(baseProcessTime / speedMultiplier) as real);
    var product := time * Ceil(baseProcessPower * powerMultiplier) as real;
    if product >= 0.0 then product.Floor else -((-product).Floor)
  }

  /** The energy of one cycle is its time in ticks times its power per tick. */
  lemma ProcessEnergyIsTimeTimesPower(baseProcessTime: real, speedMultiplier: real, baseProcessPower: real, powerMultiplier: real)
    requires speedMultiplier > 0.0
    ensures ProcessEnergy(baseProcessTime, speedMultiplier, baseProcessPower, powerMultiplier)
            == ProcessTime(baseProcessTime, speedMultiplier) * ProcessPower(baseProcessPower, powerMultiplier)
  {
    var t := ProcessTime(baseProcessTime, speedMultiplier);
    var p := ProcessPower(baseProcessPower, powerMultiplier);
    assert MaxReal(1.0, Ceil(baseProcessTime / speedMultiplier) as real) == t as real;
    assert t as real * p as real == (t * p) as real;
  }

  /** readyToProcess */
  predicate ReadyToProcess(env: Env, s: ProcState) {
    s.canProcessInputs && (!env.info.consumesInputs || s.hasConsumed)
  }

  /** isProcessing: ready and not halted. */
  predicate IsProcessing(env: Env, s: ProcState) {
    ReadyToProcess(env, s) && !env.halted
  }

  // setRecipeStats

  /** The base time and power of the matched recipe, or the defaults with no recipe. */
  function WithRecipeStats(env: Env, s: ProcState): (r: ProcState)
    requires EnvOk(env)
    ensures r == s.(baseProcessTime := r.baseProcessTime, baseProcessPower := r.baseProcessPower)
    ensures r.baseProcessTime >= 1.0
    ensures s.recipeInfo.None? ==>
              r.baseProcessTime == env.info.defaultProcessTime && r.baseProcessPower == env.info.defaultProcessPower
    ensures Fits(env, s.(baseProcessTime := 1.0)) ==> Fits(env, r)
  {
    var d := env.info;
    if s.recipeInfo.None? then
      s.(baseProcessTime := d.defaultProcessTime, baseProcessPower := d.defaultProcessPower)
    else
      var recipe := s.recipeInfo.value.recipe;
      s.(baseProcessTime := env.recipeTime(recipe, d.defaultProcessTime),
         baseProcessPower := env.recipePower(recipe, d.defaultProcessPower))
  }

  // canProduceProducts

  /** The stack an item product yields, compared against a slot: null never matches. */
  predicate SameItem(stack: ItemStack, product: Option<ItemStack>) {
    product.Some? && IsItemEqual(stack, product.value)
  }

  /**
   * Item output i does not block production: it is voided, its product has
   * no size, or its product stack is real and the slot is empty or holds the
   * same item with room for it (room is only required under DEFAULT).
   */
  predicate ItemAdmits(env: Env, s: ProcState, i: int)
    requires Fits(env, s) && s.recipeInfo.Some? && 0 <= i < env.info.itemOutputSize
  {
    var slot := env.info.itemInputSize + i;
    var setting := env.itemOutputSettings[slot];
    var product := s.recipeInfo.value.recipe.itemProducts[i];
    var size := product.MaxStackSize(0);
    var ps := ItemProductStack(product);
    var stack := s.stacks[slot];
    || setting == Void
    || size <= 0
    || (&& ps.Some? && !ps.value.IsEmpty()
        && (stack.IsEmpty()
            || (IsItemEqual(stack, ps.value) && !(setting == Default && stack.count + size > StackMaxSize(stack)))))
  }

  /** The same for fluid output i against its tank and the tank's capacity. */
  predicate FluidAdmits(env: Env, s: ProcState, i: int)
    requires Fits(env, s) && s.recipeInfo.Some? && 0 <= i < env.info.fluidOutputSize
  {
    var t := env.info.fluidInputSize + i;
    var setting := env.tankOutputSettings[t];
    var product := s.recipeInfo.value.recipe.fluidProducts[i];
    var size := product.MaxStackSize(0);
    var ps := FluidProductStack(product);
    var tank := s.tanks[t];
    || setting == Void
    || size <= 0
    || (&& ps.Some?
        && (tank.IsEmpty()
            || (IsFluidEqual(tank.stored.value, ps) && !(setting == Default && tank.FluidAmount() + size > tank.capacity))))
  }

  /**
   * `after` differs from `before` at most in VOID output slots, which are
   * empty: the admission scan never fills a slot.
   */
  predicate OnlyVoidOutputsEmptied(env: Env, before: seq<ItemStack>, after: seq<ItemStack>)
    requires |before| == |after| == |env.itemOutputSettings|
  {
    forall j :: 0 <= j < |before| ==>
      after[j] == before[j]
      || (&& env.info.itemInputSize <= j < env.info.itemInputSize + env.info.itemOutputSize
          && env.itemOutputSettings[j] == Void && after[j] == EmptyStack)
  }

  /**
   * The item loop of canProduceProducts from output k on: VOID slots are
   * emptied as they are reached, and the first blocking output stops the
   * scan with false.
   */
  function ItemAdmission(env: Env, s: ProcState, k: int): (r: (ProcState, bool))
    requires Fits(env, s) && s.recipeInfo.Some? && 0 <= k <= env.info.itemOutputSize
    decreases env.info.itemOutputSize - k
    ensures Fits(env, r.0) && r.0 == s.(stacks := r.0.stacks)
  {
    var info := env.info;
    if k == info.itemOutputSize then (s, true)
    else
      var slot := info.itemInputSize + k;
      var setting := env.itemOutputSettings[slot];
      if setting == Void then ItemAdmission(env, s.(stacks := s.stacks[slot := EmptyStack]), k + 1)
      else
        var product := s.recipeInfo.value.recipe.itemProducts[k];
        var size := product.MaxStackSize(0);
        var ps := ItemProductStack(product);
        if size <= 0 then ItemAdmission(env, s, k + 1)
        else if ps.None? || ps.value.IsEmpty() then (s, false)
        else
          var stack := s.stacks[slot];
          if !stack.IsEmpty() && !IsItemEqual(stack, ps.value) then (s, false)
          else if !stack.IsEmpty() && setting == Default && stack.count + size > StackMaxSize(stack) then (s, false)
          else ItemAdmission(env, s, k + 1)
  }

  /**
   * The item scan answers true exactly when no output from k on blocks, and
   * on success it has emptied every VOID output slot from k on and nothing
   * else.
   */
  lemma {:induction false} ItemAdmissionCorrect(env: Env, s: ProcState, k: int)
    requires Fits(env, s) && s.recipeInfo.Some? && 0 <= k <= env.info.itemOutputSize
    decreases env.info.itemOutputSize - k
    ensures var r := ItemAdmission(env, s, k);
            && (r.1 <==> forall i :: k <= i < env.info.itemOutputSize ==> ItemAdmits(env, s, i))
            && (r.1 ==> forall j :: 0 <= j < |s.stacks| ==>
                  r.0.stacks[j] == (if env.info.itemInputSize + k <= j < env.info.itemInputSize + env.info.itemOutputSize
                                       && env.itemOutputSettings[j] == Void then EmptyStack else s.stacks[j]))
  {
    var info := env.info;
    if k < info.itemOutputSize {
      var slot := info.itemInputSize + k;
      if env.itemOutputSettings[slot] == Void {
        var s' := s.(stacks := s.stacks[slot := EmptyStack]);
        forall i | k < i < info.itemOutputSize
          ensures ItemAdmits(env, s', i) == ItemAdmits(env, s, i)
        {
          assert s'.stacks[info.itemInputSize + i] == s.stacks[info.itemInputSize + i];
        }
        ItemAdmissionCorrect(env, s', k + 1);
      } else if ItemAdmits(env, s, k) {
        ItemAdmissionCorrect(env, s, k + 1);
      }
    }
  }

  /** Whatever its answer, the item scan from k on only ever empties VOID output slots. */
  lemma {:induction false} ItemAdmissionEmptiesOnlyVoid(env: Env, s: ProcState, k: int)
    requires Fits(env, s) && s.recipeInfo.Some? && 0 <= k <= env.info.itemOutputSize
    decreases env.info.itemOutputSize - k
    ensures OnlyVoidOutputsEmptied(env, s.stacks, ItemAdmission(env, s, k).0.stacks)
  {
    var info := env.info;
    if k < info.itemOutputSize {
      var slot := info.itemInputSize + k;
      if env.itemOutputSettings[slot] == Void {
        var s' := s.(stacks := s.stacks[slot := EmptyStack]);
        ItemAdmissionEmptiesOnlyVoid(env, s', k + 1);
      } else {
        ItemAdmissionEmptiesOnlyVoid(env, s, k + 1);
      }
    }
  }

  /** The fluid loop of canProduceProducts from output k on; VOID tanks are cleared as they are reached. */
  function FluidAdmission(env: Env, s: ProcState, k: int): (r: (ProcState, bool))
    requires Fits(env, s) && s.recipeInfo.Some? && 0 <= k <= env.info.fluidOutputSize
    decreases env.info.fluidOutputSize - k
    ensures Fits(env, r.0) && r.0 == s.(tanks := r.0.tanks)
  {
    var info := env.info;
    if k == info.fluidOutputSize then (s, true)
    else
      var t := info.fluidInputSize + k;
      var setting := env.tankOutputSettings[t];
      if setting == Void then FluidAdmission(env, s.(tanks := s.tanks[t := Cleared(s.tanks[t])]), k + 1)
      else
        var product := s.recipeInfo.value.recipe.fluidProducts[k];
        var size := product.MaxStackSize(0);
        var ps := FluidProductStack(product);
        if size <= 0 then FluidAdmission(env, s, k + 1)
        else if ps.None? then (s, false)
        else
          var tank := s.tanks[t];
          if !tank.IsEmpty() && !IsFluidEqual(tank.stored.value, ps) then (s, false)
          else if !tank.IsEmpty() && setting == Default && tank.FluidAmount() + size > tank.capacity then (s, false)
          else FluidAdmission(env, s, k + 1)
  }

  /** The fluid scan answers true exactly when no output from k on blocks, having cleared every VOID tank from k on. */
  lemma {:induction false} FluidAdmissionCorrect(env: Env, s: ProcState, k: int)
    requires Fits(env, s) && s.recipeInfo.Some? && 0 <= k <= env.info.fluidOutputSize
    decreases env.info.fluidOutputSize - k
    ensures var r := FluidAdmission(env, s, k);
            && (r.1 <==> forall i :: k <= i < env.info.fluidOutputSize ==> FluidAdmits(env, s, i))
            && (r.1 ==> forall j :: 0 <= j < |s.tanks| ==>
                  r.0.tanks[j] == (if env.info.fluidInputSize + k <= j < env.info.fluidInputSize + env.info.fluidOutputSize
                                      && env.tankOutputSettings[j] == Void then Cleared(s.tanks[j]) else s.tanks[j]))
  {
    var info := env.info;
    if k < info.fluidOutputSize {
      var t := info.fluidInputSize + k;
      if env.tankOutputSettings[t] == Void {
        var s' := s.(tanks := s.tanks[t := Cleared(s.tanks[t])]);
        assert forall i :: k < i < info.fluidOutputSize ==> FluidAdmits(env, s', i) == FluidAdmits(env, s, i);
        FluidAdmissionCorrect(env, s', k + 1);
      } else if FluidAdmits(env, s, k) {
        FluidAdmissionCorrect(env, s, k + 1);
      }
    }
  }

  /**
   * `after` differs from `before` at most in VOID output tanks, which are
   * cleared: the admission scan never fills a tank.
   */
  predicate OnlyVoidTanksCleared(env: Env, before: seq<Tank>, after: seq<Tank>)
    requires |before| == |after| == |env.tankOutputSettings|
  {
    forall j :: 0 <= j < |before| ==>
      after[j] == before[j]
      || (&& env.info.fluidInputSize <= j < env.info.fluidInputSize + env.info.fluidOutputSize
          && env.tankOutputSettings[j] == Void && after[j] == Cleared(before[j]))
  }

  /** Whatever its answer, the fluid scan from k on only ever clears VOID output tanks. */
  lemma {:induction false} FluidAdmissionClearsOnlyVoid(env: Env, s: ProcState, k: int)
    requires Fits(env, s) && s.recipeInfo.Some? && 0 <= k <= env.info.fluidOutputSize
    decreases env.info.fluidOutputSize - k
    ensures OnlyVoidTanksCleared(env, s.tanks, FluidAdmission(env, s, k).0.tanks)
  {
    var info := env.info;
    if k < info.fluidOutputSize {
      var t := info.fluidInputSize + k;
      if env.tankOutputSettings[t] == Void {
        var s' := s.(tanks := s.tanks[t := Cleared(s.tanks[t])]);
        FluidAdmissionClearsOnlyVoid(env, s', k + 1);
      } else {
        FluidAdmissionClearsOnlyVoid(env, s, k + 1);
      }
    }
  }

  /**
   * canProduceProducts: the item scan, then (only when it passed) the fluid
   * scan, so a blocking item output leaves the VOID tanks untouched.
   */
  function CanProduceProducts(env: Env, s: ProcState): (r: (ProcState, bool))
    requires Fits(env, s) && s.recipeInfo.Some?
    ensures Fits(env, r.0) && r.0 == s.(stacks := r.0.stacks, tanks := r.0.tanks)
  {
    var (s1, itemsOk) := ItemAdmission(env, s, 0);
    if !itemsOk then (s1, false) else FluidAdmission(env, s1, 0)
  }

  /**
   * canProduceProducts is true exactly when no item output and no fluid
   * output blocks, and it never fills an output slot.
   */
  lemma CanProduceProductsCorrect(env: Env, s: ProcState)
    requires Fits(env, s) && s.recipeInfo.Some?
    ensures OnlyVoidOutputsEmptied(env, s.stacks, CanProduceProducts(env, s).0.stacks)
    ensures CanProduceProducts(env, s).1 <==>
              (forall i :: 0 <= i < env.info.itemOutputSize ==> ItemAdmits(env, s, i))
              && (forall i :: 0 <= i < env.info.fluidOutputSize ==> FluidAdmits(env, s, i))
  {
    ItemAdmissionCorrect(env, s, 0);
    ItemAdmissionEmptiesOnlyVoid(env, s, 0);
    var (s1, itemsOk) := ItemAdmission(env, s, 0);
    if itemsOk {
      FluidAdmissionCorrect(env, s1, 0);
      assert forall i :: 0 <= i < env.info.fluidOutputSize ==> FluidAdmits(env, s1, i) == FluidAdmits(env, s, i);
    }
  }

  /** A non-VOID output slot holding a different item blocks production. */
  lemma DifferentItemBlocks(env: Env, s: ProcState, i: int)
    requires Fits(env, s) && s.recipeInfo.Some? && 0 <= i < env.info.itemOutputSize
    requires var slot := env.info.itemInputSize + i;
             var product := s.recipeInfo.value.recipe.itemProducts[i];
             && env.itemOutputSettings[slot] != Void && product.MaxStackSize(0) > 0
             && !s.stacks[slot].IsEmpty() && product.stack != Some(s.stacks[slot].item)
    ensures !CanProduceProducts(env, s).1
  {
    CanProduceProductsCorrect(env, s);
    assert !ItemAdmits(env, s, i);
  }

  /** Under VOID_EXCESS a full output slot of the right item does not block; under DEFAULT it does. */
  lemma FullSlotBlocksOnlyUnderDefault(env: Env, s: ProcState, i: int)
    requires Fits(env, s) && s.recipeInfo.Some? && 0 <= i < env.info.itemOutputSize
    requires var slot := env.info.itemInputSize + i;
             var product := s.recipeInfo.value.recipe.itemProducts[i];
             && product.MaxStackSize(0) > 0 && product.stack == Some(s.stacks[slot].item)
             && !s.stacks[slot].IsEmpty()
             && s.stacks[slot].count + product.MaxStackSize(0) > StackMaxSize(s.stacks[slot])
    ensures ItemAdmits(env, s, i) <==> env.itemOutputSettings[env.info.itemInputSize + i] != Default
  {
  }

  // consumeInputs

  /** The stack size of the ingredient variant that input slot i matched. */
  function ItemIngredientSize(info: RecipeInfo, itemIn: nat, i: int): int
    requires info.itemInputOrder.Some? && InfoFits(info, itemIn, 0, 0, 0) && 0 <= i < itemIn
  {
    info.recipe.itemIngredients[info.itemInputOrder.value[i]].MaxStackSize(info.itemIngredientNumbers[i])
  }

  /** The amount of the ingredient variant that input tank i matched. */
  function FluidIngredientSize(info: RecipeInfo, fluidIn: nat, i: int): int
    requires info.fluidInputOrder.Some? && InfoFits(info, 0, fluidIn, 0, 0) && 0 <= i < fluidIn
  {
    info.recipe.fluidIngredients[info.fluidInputOrder.value[i]].MaxStackSize(info.fluidIngredientNumbers[i])
  }

  /** An input stack after shrinking by `size` (when positive); emptied at zero or below. */
  function ShrunkStack(stack: ItemStack, size: int): (r: ItemStack)
    ensures size > 0 && !stack.IsEmpty() ==> GetCount(r) == if stack.count - size <= 0 then 0 else stack.count - size
    ensures size <= 0 ==> GetCount(r) == GetCount(stack)
    ensures r.IsEmpty() ==> r == EmptyStack
    ensures stack.IsEmpty() ==> r == EmptyStack
  {
    var shrunk := if size > 0 then stack.(count := stack.count - size) else stack;
    if GetCount(shrunk) <= 0 then EmptyStack else shrunk
  }

  /** An input tank after draining `size` (when positive); emptied at zero or below. */
  function DrainedInputTank(tank: Tank, size: int): (r: Tank)
    ensures r.capacity == tank.capacity && r.allowed == tank.allowed
    ensures size > 0 && tank.stored.Some? && tank.FluidAmount() > size ==> r.FluidAmount() == tank.FluidAmount() - size
    ensures tank.FluidAmount() <= size ==> r.stored.None?
    ensures r.stored.Some? ==> r.FluidAmount() > 0
  {
    var drained := if size > 0 then tank.ChangeAmount(-size) else tank;
    if drained.FluidAmount() <= 0 then drained.WithFluid(None) else drained
  }

  /** A consumed slot is reset to EMPTY only when it holds something. */
  function EmptiedStack(stack: ItemStack): ItemStack {
    if !stack.IsEmpty() then EmptyStack else stack
  }

  function EmptiedTank(tank: Tank): Tank {
    if !tank.IsEmpty() then tank.WithFluid(None) else tank
  }

  /** The fluid staged for tank i: the tank's fluid at the ingredient's amount. */
  function StagedFluid(tank: Tank, size: int): Option<FluidStack> {
    if tank.stored.Some? then Some(FluidStack(tank.stored.value.fluid, size)) else None
  }

  /**
   * consumeInputs: nothing when inputs are already consumed, there is no
   * recipe or either input order is INVALID. Otherwise every input slot and
   * tank gives up the size of the ingredient variant it matched; a consuming
   * processor first clears its staging buffers, then stages exactly what
   * each input gave up, and records that it has consumed.
   */
  function ConsumeInputs(env: Env, s: ProcState): (r: ProcState)
    requires Fits(env, s)
    ensures Fits(env, r)
    ensures r.recipeInfo == s.recipeInfo && r.baseProcessTime == s.baseProcessTime
    ensures r.currentTime == s.currentTime && r.resetTime == s.resetTime
    ensures r.canProcessInputs == s.canProcessInputs && r.isProcessing == s.isProcessing
    ensures |r.stacks| == |s.stacks| && |r.tanks| == |s.tanks|
  {
    if s.hasConsumed || s.recipeInfo.None? then s
    else
      var info := s.recipeInfo.value;
      if info.itemInputOrder.None? || info.fluidInputOrder.None? then s
      else ConsumedFluids(env, ConsumedItems(env, s, info), info).(hasConsumed := env.info.consumesInputs)
  }

  /**
   * The item half of consumeInputs: every input slot gives up the size of
   * the ingredient variant it matched. A consuming processor's staging slot
   * holds the matched size of its input's item; where that size is not
   * positive, the staging slot is emptied if it held something.
   */
  function ConsumedItems(env: Env, s: ProcState, info: RecipeInfo): (r: ProcState)
    requires Fits(env, s) && info.itemInputOrder.Some? && InfoFits(info, env.info.itemInputSize, 0, 0, 0)
    ensures Fits(env, r) && r == s.(stacks := r.stacks, consumedStacks := r.consumedStacks)
  {
    var itemIn := env.info.itemInputSize;
    s.(stacks := seq(|s.stacks|, j requires 0 <= j < |s.stacks| =>
         if j < itemIn then ShrunkStack(s.stacks[j], ItemIngredientSize(info, itemIn, j)) else s.stacks[j]),
       consumedStacks := if !env.info.consumesInputs then s.consumedStacks else
         seq(itemIn, j requires 0 <= j < itemIn =>
           var size := ItemIngredientSize(info, itemIn, j);
           if size > 0 then ItemStack(GetItem(s.stacks[j]), size) else EmptiedStack(s.consumedStacks[j])))
  }

  /** The tank half of consumeInputs, staging the matched amount of each input's fluid. */
  function ConsumedFluids(env: Env, s: ProcState, info: RecipeInfo): (r: ProcState)
    requires Fits(env, s) && info.fluidInputOrder.Some? && InfoFits(info, 0, env.info.fluidInputSize, 0, 0)
    ensures Fits(env, r) && r == s.(tanks := r.tanks, consumedTanks := r.consumedTanks)
  {
    var fluidIn := env.info.fluidInputSize;
    s.(tanks := seq(|s.tanks|, j requires 0 <= j < |s.tanks| =>
         if j < fluidIn then DrainedInputTank(s.tanks[j], FluidIngredientSize(info, fluidIn, j)) else s.tanks[j]),
       consumedTanks := if !env.info.consumesInputs then s.consumedTanks else
         seq(fluidIn, j requires 0 <= j < fluidIn =>
           var size := FluidIngredientSize(info, fluidIn, j);
           if size > 0 then s.consumedTanks[j].WithFluid(StagedFluid(s.tanks[j], size)) else EmptiedTank(s.consumedTanks[j])))
  }

  /** The cases in which consumeInputs leaves everything as it was. */
  lemma ConsumeInputsNoOp(env: Env, s: ProcState)
    requires Fits(env, s)
    requires s.hasConsumed || s.recipeInfo.None? || s.recipeInfo.value.itemInputOrder.None?
             || s.recipeInfo.value.fluidInputOrder.None?
    ensures ConsumeInputs(env, s) == s
  {
  }

  /**
   * Conservation for consumeInputs: an input slot holding at least the
   * ingredient size loses exactly that many items, and a consuming
   * processor stages exactly that many of the same item; likewise an input
   * tank holding more than the ingredient amount.
   */
  lemma ConsumeInputsConserves(env: Env, s: ProcState, i: int, t: int)
    requires Fits(env, s) && !s.hasConsumed && s.recipeInfo.Some?
    requires s.recipeInfo.value.itemInputOrder.Some? && s.recipeInfo.value.fluidInputOrder.Some?
    requires 0 <= i < env.info.itemInputSize && 0 <= t < env.info.fluidInputSize
    ensures var info := s.recipeInfo.value;
            var size := ItemIngredientSize(info, env.info.itemInputSize, i);
            var r := ConsumeInputs(env, s);
            && (size > 0 && GetCount(s.stacks[i]) >= size ==>
                  GetCount(r.stacks[i]) == GetCount(s.stacks[i]) - size
                  && (env.info.consumesInputs ==> r.consumedStacks[i] == ItemStack(GetItem(s.stacks[i]), size)))
            && (size <= 0 ==> GetCount(r.stacks[i]) == GetCount(s.stacks[i]))
            && r.hasConsumed == env.info.consumesInputs
    ensures var info := s.recipeInfo.value;
            var size := FluidIngredientSize(info, env.info.fluidInputSize, t);
            var r := ConsumeInputs(env, s);
            && (size > 0 && s.tanks[t].stored.Some? && s.tanks[t].FluidAmount() > size ==>
                  r.tanks[t].FluidAmount() == s.tanks[t].FluidAmount() - size
                  && (env.info.consumesInputs ==> r.consumedTanks[t].FluidAmount() == size))
            && (size > 0 && s.tanks[t].FluidAmount() <= size ==> r.tanks[t].stored.None?)
  {
  }

  // produceProducts

  /** Output i's slot after one cycle. */
  function ProducedItemSlot(env: Env, recipe: Recipe, stack: ItemStack, i: int): (r: ItemStack)
    requires 0 <= i < |recipe.itemProducts| && recipe.itemProducts[i].Ok()
    requires 0 <= env.info.itemInputSize + i < |env.itemOutputSettings|
  {
    var setting := env.itemOutputSettings[env.info.itemInputSize + i];
    var product := recipe.itemProducts[i];
    if setting == Void then EmptyStack
    else if product.MaxStackSize(0) <= 0 then stack
    else
      var next := NextItemStack(product);
      if stack.IsEmpty() then next
      else if SameItem(stack, ItemProductStack(product)) then
        stack.(count := Min(env.stackLimit, stack.count + GetCount(next)))
      else stack
  }

  /** Output i's tank after one cycle. */
  function ProducedTank(env: Env, recipe: Recipe, tank: Tank, i: int): (r: Tank)
    requires 0 <= i < |recipe.fluidProducts| && recipe.fluidProducts[i].Ok()
    requires 0 <= env.info.fluidInputSize + i < |env.tankOutputSettings|
  {
    var setting := env.tankOutputSettings[env.info.fluidInputSize + i];
    var product := recipe.fluidProducts[i];
    if setting == Void then Cleared(tank)
    else if product.MaxStackSize(0) <= 0 then tank
    else
      var next := NextFluidStack(product);
      if tank.IsEmpty() then tank.WithFluid(next)
      else if IsFluidEqual(tank.stored.value, FluidProductStack(product)) then
        tank.ChangeAmount(if next.Some? then next.value.amount else 0)
      else tank
  }

  function Min(a: int, b: int): int {
    if a <= b then a else b
  }

  /** Every output slot and tank after one cycle; inputs and other slots untouched. */
  function ProduceOutputs(env: Env, s: ProcState): (r: ProcState)
    requires Fits(env, s) && s.recipeInfo.Some?
    ensures Fits(env, r) && r == s.(stacks := r.stacks, tanks := r.tanks)
  {
    var info := env.info;
    var recipe := s.recipeInfo.value.recipe;
    s.(stacks := seq(|s.stacks|, j requires 0 <= j < |s.stacks| =>
         if info.itemInputSize <= j < info.itemInputSize + info.itemOutputSize
         then ProducedItemSlot(env, recipe, s.stacks[j], j - info.itemInputSize) else s.stacks[j]),
       tanks := seq(|s.tanks|, j requires 0 <= j < |s.tanks| =>
         if info.fluidInputSize <= j < info.fluidInputSize + info.fluidOutputSize
         then ProducedTank(env, recipe, s.tanks[j], j - info.fluidInputSize) else s.tanks[j]))
  }

  /** A consuming processor's staging buffers, emptied. */
  function ClearedStaging(env: Env, s: ProcState): (r: ProcState)
    requires Fits(env, s)
    ensures Fits(env, r) && r == s.(consumedStacks := r.consumedStacks, consumedTanks := r.consumedTanks)
    ensures forall j :: 0 <= j < |r.consumedStacks| ==> r.consumedStacks[j] == EmptyStack
    ensures forall j :: 0 <= j < |r.consumedTanks| ==> r.consumedTanks[j].stored.None?
  {
    s.(consumedStacks := seq(env.info.itemInputSize, _ => EmptyStack),
       consumedTanks := seq(env.info.fluidInputSize, j requires 0 <= j < env.info.fluidInputSize =>
                            s.consumedTanks[j].WithFluid(None)))
  }

  /**
   * produceProducts: a consuming processor empties its staging buffers; if
   * it had not consumed, or there is no recipe, nothing else happens. A
   * processor that does not consume up front consumes now. Then every
   * output slot and tank receives one cycle's product, and a consuming
   * processor is left with nothing consumed.
   */
  function ProduceProducts(env: Env, s: ProcState): (r: ProcState)
    requires Fits(env, s)
    ensures Fits(env, r)
    ensures r.recipeInfo == s.recipeInfo && r.baseProcessTime == s.baseProcessTime
    ensures r.currentTime == s.currentTime && r.resetTime == s.resetTime
    ensures r.canProcessInputs == s.canProcessInputs && r.isProcessing == s.isProcessing
    ensures env.info.consumesInputs && s.recipeInfo.Some? ==> !r.hasConsumed
    ensures env.info.consumesInputs ==> forall j :: 0 <= j < |r.consumedStacks| ==> r.consumedStacks[j].IsEmpty()
  {
    var consumes := env.info.consumesInputs;
    var s1 := if consumes then ClearedStaging(env, s) else s;
    if (consumes && !s.hasConsumed) || s.recipeInfo.None? then s1
    else
      var s2 := if !consumes then ConsumeInputs(env, s1) else s1;
      var s3 := ProduceOutputs(env, s2);
      if consumes then s3.(hasConsumed := false) else s3
  }

  /**
   * What one cycle does to an output slot: a VOID slot is emptied, an empty
   * slot receives the next stack, a slot of the product's item grows by the
   * next stack's count up to the stack limit, and anything else is kept.
   */
  lemma ProducedItemSlotCases(env: Env, s: ProcState, i: int)
    requires EnvOk(env) && Fits(env, s) && s.recipeInfo.Some? && 0 <= i < env.info.itemOutputSize
    requires !env.info.consumesInputs || s.hasConsumed
    ensures var slot := env.info.itemInputSize + i;
            var product := s.recipeInfo.value.recipe.itemProducts[i];
            var after := ProduceProducts(env, s).stacks[slot];
            var before := s.stacks[slot];
            && (env.itemOutputSettings[slot] == Void ==> after == EmptyStack)
            && (env.itemOutputSettings[slot] != Void && product.MaxStackSize(0) > 0 ==>
                  (before.IsEmpty() ==> after == NextItemStack(product))
                  && (!before.IsEmpty() && SameItem(before, ItemProductStack(product)) ==>
                        after.item == before.item
                        && after.count == Min(env.stackLimit, before.count + GetCount(NextItemStack(product)))))
            && (env.itemOutputSettings[slot] != Void && product.MaxStackSize(0) <= 0 ==> after == before)
  {
    var consumes := env.info.consumesInputs;
    var s1 := if consumes then ClearedStaging(env, s) else s;
    var s2 := if !consumes then ConsumeInputs(env, s1) else s1;
    var slot := env.info.itemInputSize + i;
    assert s2.stacks[slot] == s.stacks[slot];
  }

  /** The tank counterpart: an output tank of the product's fluid grows by the next amount. */
  lemma ProducedTankCases(env: Env, s: ProcState, i: int)
    requires EnvOk(env) && Fits(env, s) && s.recipeInfo.Some? && 0 <= i < env.info.fluidOutputSize
    requires !env.info.consumesInputs || s.hasConsumed
    ensures var t := env.info.fluidInputSize + i;
            var product := s.recipeInfo.value.recipe.fluidProducts[i];
            var after := ProduceProducts(env, s).tanks[t];
            var before := s.tanks[t];
            && (env.tankOutputSettings[t] == Void ==> after.stored.None?)
            && (env.tankOutputSettings[t] != Void && product.MaxStackSize(0) > 0 ==>
                  (before.IsEmpty() ==> after.stored == NextFluidStack(product))
                  && (!before.IsEmpty() && IsFluidEqual(before.stored.value, FluidProductStack(product)) ==>
                        after.FluidAmount() == before.FluidAmount() + NextFluidStack(product).value.amount))
            && (env.tankOutputSettings[t] != Void && product.MaxStackSize(0) <= 0 ==> after == before)
  {
    var consumes := env.info.consumesInputs;
    var s1 := if consumes then ClearedStaging(env, s) else s;
    var s2 := if !consumes then ConsumeInputs(env, s1) else s1;
    var t := env.info.fluidInputSize + i;
    assert s2.tanks[t] == s.tanks[t];
  }

  /** Without a recipe, or for a consuming processor that has not consumed, only the staging buffers are emptied. */
  lemma ProduceProductsNoOp(env: Env, s: ProcState)
    requires Fits(env, s)
    requires (env.info.consumesInputs && !s.hasConsumed) || s.recipeInfo.None?
    ensures ProduceProducts(env, s).stacks == s.stacks && ProduceProducts(env, s).tanks == s.tanks
    ensures ProduceProducts(env, s).hasConsumed == s.hasConsumed
  {
  }

  // canProcessInputs, refreshRecipe, refreshActivity

  /**
   * canProcessInputs: set the recipe stats; with inputs consumed for a
   * recipe that no longer exists, discard the staged inputs; then the
   * answer is "there is a recipe and its products fit". On a false answer
   * the progress is clamped to [0, baseProcessTime - 1].
   */
  function CanProcessInputs(env: Env, s: ProcState): (r: (ProcState, bool))
    requires EnvOk(env) && Fits(env, s)
    ensures Fits(env, r.0)
    ensures r.0.recipeInfo == s.recipeInfo && r.0.resetTime == s.resetTime
    ensures r.0.canProcessInputs == s.canProcessInputs && r.0.isProcessing == s.isProcessing
    ensures r.1 ==> s.recipeInfo.Some?
    ensures r.1 ==> r.0.currentTime == s.currentTime
    ensures !r.1 ==> 0.0 <= r.0.currentTime <= r.0.baseProcessTime - 1.0
    ensures !r.1 ==> r.0.currentTime == Clamp(s.currentTime, 0.0, r.0.baseProcessTime - 1.0)
    ensures s.hasConsumed && s.recipeInfo.None? ==>
              !r.0.hasConsumed
              && (forall j :: 0 <= j < |r.0.consumedStacks| ==> r.0.consumedStacks[j] == EmptyStack)
              && (forall j :: 0 <= j < |r.0.consumedTanks| ==> r.0.consumedTanks[j].stored.None?)
    ensures !(s.hasConsumed && s.recipeInfo.None?) ==>
              r.0.hasConsumed == s.hasConsumed && r.0.consumedStacks == s.consumedStacks
              && r.0.consumedTanks == s.consumedTanks
    ensures OnlyVoidOutputsEmptied(env, s.stacks, r.0.stacks)
  {
    var (s3, canProcess) := CheckProducts(env, DiscardStale(env, WithRecipeStats(env, s)));
    if !canProcess then (s3.(currentTime := Clamp(s3.currentTime, 0.0, s3.baseProcessTime - 1.0)), false)
    else (s3, true)
  }

  /** Inputs staged for a recipe that no longer exists are discarded. */
  function DiscardStale(env: Env, s: ProcState): (r: ProcState)
    requires Fits(env, s)
    ensures Fits(env, r)
    ensures r == s.(consumedStacks := r.consumedStacks, consumedTanks := r.consumedTanks, hasConsumed := r.hasConsumed)
  {
    if s.hasConsumed && s.recipeInfo.None? then ClearedStaging(env, s).(hasConsumed := false) else s
  }

  /** Without a recipe the answer is false; with one, whether its products fit. */
  function CheckProducts(env: Env, s: ProcState): (r: (ProcState, bool))
    requires Fits(env, s)
    ensures Fits(env, r.0) && r.0 == s.(stacks := r.0.stacks, tanks := r.0.tanks)
    ensures r.1 ==> s.recipeInfo.Some?
    ensures OnlyVoidOutputsEmptied(env, s.stacks, r.0.stacks)
  {
    if s.recipeInfo.Some? then CanProduceProductsCorrect(env, s); CanProduceProducts(env, s) else (s, false)
  }

  /** refreshActivity: record whether the inputs can be processed. */
  function RefreshActivity(env: Env, s: ProcState): (r: ProcState)
    requires EnvOk(env) && Fits(env, s)
    ensures Fits(env, r)
    ensures r.canProcessInputs == CanProcessInputs(env, s).1
    ensures r == CanProcessInputs(env, s).0.(canProcessInputs := r.canProcessInputs)
  {
    var (s1, canProcess) := CanProcessInputs(env, s);
    s1.(canProcessInputs := canProcess)
  }

  /** The inputs a lookup sees: the staged ones once consumed, otherwise the input slots and tanks. */
  function ItemInputs(env: Env, s: ProcState, consumed: bool): seq<ItemStack>
    requires Fits(env, s)
  {
    if consumed then s.consumedStacks else s.stacks[..env.info.itemInputSize]
  }

  function FluidInputs(env: Env, s: ProcState, consumed: bool): seq<Tank>
    requires Fits(env, s)
  {
    if consumed then s.consumedTanks else s.tanks[..env.info.fluidInputSize]
  }

  /** refreshRecipe: look the recipe up again, and consume up front if the processor does. */
  function RefreshRecipe(env: Env, s: ProcState): (r: ProcState)
    requires EnvOk(env) && Fits(env, s)
    ensures Fits(env, r)
    ensures r.recipeInfo == env.lookup(ItemInputs(env, s, s.hasConsumed), FluidInputs(env, s, s.hasConsumed))
    ensures r.currentTime == s.currentTime && r.resetTime == s.resetTime && r.baseProcessTime == s.baseProcessTime
    ensures r.canProcessInputs == s.canProcessInputs && r.isProcessing == s.isProcessing
  {
    var found := env.lookup(ItemInputs(env, s, s.hasConsumed), FluidInputs(env, s, s.hasConsumed));
    var s1 := s.(recipeInfo := found);
    if env.info.consumesInputs then ConsumeInputs(env, s1) else s1
  }

  // finishProcess, process, loseProgress, onTick

  /** The input tanks whose "void unusable input" setting is on, emptied. */
  function VoidUnusableInputs(env: Env, s: ProcState): (r: ProcState)
    requires Fits(env, s)
    ensures Fits(env, r) && r == s.(tanks := r.tanks)
  {
    s.(tanks := seq(|s.tanks|, j requires 0 <= j < |s.tanks| =>
         if j < env.info.fluidInputSize && env.voidUnusable[j] then Cleared(s.tanks[j]) else s.tanks[j]))
  }

  /**
   * The middle of finishProcess: both times set to the progress left over
   * beyond `processTime` (never below zero), then activity re-checked.
   */
  function CarryOver(env: Env, s: ProcState, processTime: real): (r: ProcState)
    requires EnvOk(env) && Fits(env, s)
    ensures Fits(env, r)
    ensures r.canProcessInputs ==> r.currentTime == r.resetTime == MaxReal(0.0, s.currentTime - processTime)
    ensures 0.0 <= r.currentTime
    ensures r.isProcessing == s.isProcessing
  {
    var newTime := MaxReal(0.0, s.currentTime - processTime);
    RefreshActivity(env, s.(currentTime := newTime, resetTime := newTime))
  }

  /** The end of finishProcess: a processor that can no longer process zeroes both times and voids unusable inputs. */
  function VoidIfStalled(env: Env, s: ProcState): (r: ProcState)
    requires Fits(env, s)
    ensures Fits(env, r)
    ensures r.canProcessInputs == s.canProcessInputs && r.isProcessing == s.isProcessing
    ensures s.canProcessInputs ==> r == s
    ensures !s.canProcessInputs ==> r.currentTime == r.resetTime == 0.0
  {
    if !s.canProcessInputs then VoidUnusableInputs(env, s.(currentTime := 0.0, resetTime := 0.0))
    else s
  }

  /**
   * finishProcess: produce, re-match, carry the excess progress over into
   * the next cycle (both times set to it), re-check activity; if the inputs
   * can no longer be processed both times are zeroed and unusable inputs
   * are voided.
   */
  function FinishProcess(env: Env, s: ProcState): (r: ProcState)
    requires EnvOk(env) && Fits(env, s)
    ensures Fits(env, r)
    ensures r.currentTime == r.resetTime
    ensures r.canProcessInputs ==> r.currentTime == MaxReal(0.0, s.currentTime - s.baseProcessTime)
    ensures !r.canProcessInputs ==> r.currentTime == 0.0
    ensures 0.0 <= r.currentTime
    ensures r.isProcessing == s.isProcessing
  {
    VoidIfStalled(env, CarryOver(env, RefreshRecipe(env, ProduceProducts(env, s)), s.baseProcessTime))
  }

  /** One turn of process's loop: a covered cycle is finished, and the progress falls by at least one. */
  lemma CompleteCyclesStep(env: Env, s: ProcState)
    requires EnvOk(env) && Fits(env, s) && s.currentTime >= s.baseProcessTime
    ensures FinishProcess(env, s).currentTime <= s.currentTime - 1.0
    ensures CompleteCycles(env, s) == CompleteCycles(env, FinishProcess(env, s))
  {
  }

  /** The while loop of process: finish cycles while the progress covers a whole one. */
  function CompleteCycles(env: Env, s: ProcState): (r: ProcState)
    requires EnvOk(env) && Fits(env, s)
    decreases s.currentTime.Floor
    ensures Fits(env, r)
    ensures r.currentTime < r.baseProcessTime
    ensures r.isProcessing == s.isProcessing
    ensures s.currentTime < s.baseProcessTime ==> r == s
    ensures s.currentTime >= s.baseProcessTime ==> 0.0 <= r.currentTime == r.resetTime
  {
    if s.currentTime < s.baseProcessTime then s
    else
      var s' := FinishProcess(env, s);
      assert s'.currentTime <= s.currentTime - 1.0;
      CompleteCycles(env, s')
  }

  /** process: advance by the speed multiplier, then complete every covered cycle. */
  function Process(env: Env, s: ProcState): (r: ProcState)
    requires EnvOk(env) && Fits(env, s)
    ensures Fits(env, r)
    ensures r.isProcessing == s.isProcessing
    ensures r.currentTime < r.baseProcessTime
    ensures s.currentTime >= 0.0 ==> 0.0 <= r.currentTime
    ensures s.currentTime + env.speedMultiplier < s.baseProcessTime ==> r == Advanced(env, s)
  {
    CompleteCycles(env, Advanced(env, s))
  }

  /** The first step of process: progress advances by the speed multiplier. */
  function Advanced(env: Env, s: ProcState): (r: ProcState)
    ensures r == s.(currentTime := r.currentTime)
    ensures env.speedMultiplier > 0.0 ==> r.currentTime > s.currentTime
  {
    s.(currentTime := s.currentTime + env.speedMultiplier)
  }

  /**
   * The time scenario of a cycle: with a base time of n ticks, speed 1 and
   * a recipe that keeps being processable, progress reaches n and the cycle
   * completes with progress back at 0.
   */
  lemma ExactCycleEndsAtZero(env: Env, s: ProcState)
    requires EnvOk(env) && Fits(env, s)
    requires env.speedMultiplier == 1.0 && s.currentTime == s.baseProcessTime - 1.0
    ensures Process(env, s).currentTime == 0.0 && Process(env, s).resetTime == 0.0
  {
    var s1 := s.(currentTime := s.currentTime + env.speedMultiplier);
    assert s1.currentTime == s1.baseProcessTime;
    var s2 := FinishProcess(env, s1);
    assert s2.currentTime == 0.0;
    assert CompleteCycles(env, s2) == s2;
  }

  /** loseProgress: progress falls by 1.5 × speed, clamped to [0, base]; resetTime follows it down only. */
  function LoseProgress(env: Env, s: ProcState): (r: ProcState)
    ensures r == s.(currentTime := r.currentTime, resetTime := r.resetTime)
    ensures s.baseProcessTime >= 0.0 ==> 0.0 <= r.currentTime <= s.baseProcessTime
    ensures r.currentTime == Clamp(s.currentTime - 1.5 * env.speedMultiplier, 0.0, s.baseProcessTime)
    ensures r.resetTime == (if r.currentTime < s.resetTime then r.currentTime else s.resetTime)
    ensures r.resetTime <= s.resetTime
  {
    var newTime := Clamp(s.currentTime - 1.5 * env.speedMultiplier, 0.0, s.baseProcessTime);
    s.(currentTime := newTime, resetTime := if newTime < s.resetTime then newTime else s.resetTime)
  }

  /** The idle branch of onTick. */
  function IdleTick(env: Env, s: ProcState): (r: ProcState)
    ensures r == s.(currentTime := r.currentTime, resetTime := r.resetTime)
  {
    if s.currentTime > 0.0 then
      if env.info.losesProgress && !env.halted then LoseProgress(env, s)
      else if !s.canProcessInputs then s.(currentTime := 0.0, resetTime := 0.0)
      else s
    else s
  }

  /**
   * onTick: record whether the processor is processing; if so process,
   * otherwise decay or reset idle progress. The flag says whether the
   * activity changed (the source then updates the block and every client).
   */
  function OnTick(env: Env, s: ProcState): (r: (ProcState, bool))
    requires EnvOk(env) && Fits(env, s)
    ensures Fits(env, r.0)
    ensures r.0.isProcessing == IsProcessing(env, s)
    ensures r.1 <==> s.isProcessing != IsProcessing(env, s)
    ensures !IsProcessing(env, s) ==> r.0 == IdleTick(env, s.(isProcessing := false))
  {
    var s1 := s.(isProcessing := IsProcessing(env, s));
    var s2 := if s1.isProcessing then Process(env, s1) else IdleTick(env, s1);
    (s2, s.isProcessing != s2.isProcessing)
  }

  /**
   * An idle tick of a processor that does not lose progress zeroes both
   * times when the inputs cannot be processed, and with progress loss the
   * progress never grows.
   */
  lemma IdleTickResets(env: Env, s: ProcState)
    requires s.currentTime > 0.0 && s.baseProcessTime >= 0.0
    ensures !(env.info.losesProgress && !env.halted) && !s.canProcessInputs ==>
              IdleTick(env, s).currentTime == 0.0 && IdleTick(env, s).resetTime == 0.0
    ensures env.info.losesProgress && !env.halted && env.speedMultiplier >= 0.0 ==>
              IdleTick(env, s).currentTime <= s.currentTime
  {
  }

  /**
   * What a tick does to the progress: a tick that is not processing touches
   * nothing but the two times, and never raises the progress; a processing
   * tick leaves the progress short of a whole cycle, and not below zero
   * when it started there.
   */
  lemma OnTickProgress(env: Env, s: ProcState)
    requires EnvOk(env) && Fits(env, s)
    ensures var r := OnTick(env, s).0;
            !IsProcessing(env, s) ==>
              && r == s.(isProcessing := false, currentTime := r.currentTime, resetTime := r.resetTime)
              && r.currentTime <= s.currentTime
    ensures var r := OnTick(env, s).0;
            IsProcessing(env, s) ==>
              && r.isProcessing
              && r.currentTime < r.baseProcessTime
              && (s.currentTime >= 0.0 ==> 0.0 <= r.currentTime)
  {
  }

  // hasConsumed, refreshAll, clearAllSlots, clearAllTanks

  /**
   * hasConsumed (the server side): a processor that does not consume up
   * front never has; one that does has exactly when a staging slot or a
   * staging tank holds something.
   */
  predicate HasConsumed(env: Env, s: ProcState) {
    && env.info.consumesInputs
    && ((exists j :: 0 <= j < |s.consumedStacks| && !s.consumedStacks[j].IsEmpty())
        || (exists j :: 0 <= j < |s.consumedTanks| && !s.consumedTanks[j].IsEmpty()))
  }

  /** The end of refreshAll: isProcessing and then hasConsumed recomputed. */
  function RefreshFlags(env: Env, s: ProcState): (r: ProcState)
    ensures r.isProcessing == IsProcessing(env, s)
    ensures r.hasConsumed == HasConsumed(env, r)
    ensures r == s.(isProcessing := r.isProcessing, hasConsumed := r.hasConsumed)
  {
    var s1 := s.(isProcessing := IsProcessing(env, s));
    s1.(hasConsumed := HasConsumed(env, s1))
  }

  /** refreshAll: refreshRecipe, refreshActivity, then recompute isProcessing and hasConsumed. */
  function RefreshAll(env: Env, s: ProcState): (r: ProcState)
    requires EnvOk(env) && Fits(env, s)
    ensures Fits(env, r)
    ensures r.isProcessing == IsProcessing(env, RefreshActivity(env, RefreshRecipe(env, s)))
    ensures r.hasConsumed == HasConsumed(env, r)
    ensures !env.info.consumesInputs ==> !r.hasConsumed
  {
    RefreshFlags(env, RefreshActivity(env, RefreshRecipe(env, s)))
  }

  /**
   * The processor's clearAllSlots: every inventory slot and every staging
   * slot emptied, then refreshAll. Refreshing refills none of them, so
   * afterwards the processor has consumed exactly when a staging tank still
   * holds fluid.
   */
  function ClearAllSlots(env: Env, s: ProcState): (r: ProcState)
    requires EnvOk(env) && Fits(env, s)
    ensures Fits(env, r)
    ensures forall j :: 0 <= j < |r.stacks| ==> r.stacks[j].IsEmpty()
    ensures forall j :: 0 <= j < |r.consumedStacks| ==> r.consumedStacks[j].IsEmpty()
    ensures r.hasConsumed <==>
              env.info.consumesInputs && exists j :: 0 <= j < |r.consumedTanks| && !r.consumedTanks[j].IsEmpty()
  {
    var cleared := EmptiedSlots(s);
    ClearedStacksStayEmpty(env, cleared);
    RefreshAll(env, cleared)
  }

  /** Every inventory slot and every staging slot emptied. */
  function EmptiedSlots(s: ProcState): (r: ProcState)
    ensures r == s.(stacks := r.stacks, consumedStacks := r.consumedStacks)
    ensures |r.stacks| == |s.stacks| && |r.consumedStacks| == |s.consumedStacks|
    ensures forall j :: 0 <= j < |r.stacks| ==> r.stacks[j] == EmptyStack
    ensures forall j :: 0 <= j < |r.consumedStacks| ==> r.consumedStacks[j] == EmptyStack
  {
    s.(stacks := seq(|s.stacks|, _ => EmptyStack), consumedStacks := seq(|s.consumedStacks|, _ => EmptyStack))
  }

  /**
   * The processor's clearAllTanks: every tank and every staging tank
   * emptied, then refreshAll. Refreshing refills none of them, so
   * afterwards the processor has consumed exactly when a staging slot still
   * holds items.
   */
  function ClearAllTanks(env: Env, s: ProcState): (r: ProcState)
    requires EnvOk(env) && Fits(env, s)
    ensures Fits(env, r)
    ensures forall j :: 0 <= j < |r.tanks| ==> r.tanks[j].stored.None?
    ensures forall j :: 0 <= j < |r.consumedTanks| ==> r.consumedTanks[j].stored.None?
    ensures r.hasConsumed <==>
              env.info.consumesInputs && exists j :: 0 <= j < |r.consumedStacks| && !r.consumedStacks[j].IsEmpty()
  {
    var cleared := EmptiedTanks(s);
    ClearedTanksStayEmpty(env, cleared);
    RefreshAll(env, cleared)
  }

  /** Every tank and every staging tank emptied, keeping capacities and filters. */
  function EmptiedTanks(s: ProcState): (r: ProcState)
    ensures r == s.(tanks := r.tanks, consumedTanks := r.consumedTanks)
    ensures |r.tanks| == |s.tanks| && |r.consumedTanks| == |s.consumedTanks|
    ensures forall j :: 0 <= j < |r.tanks| ==> r.tanks[j] == Cleared(s.tanks[j])
    ensures forall j :: 0 <= j < |r.consumedTanks| ==> r.consumedTanks[j] == Cleared(s.consumedTanks[j])
  {
    s.(tanks := seq(|s.tanks|, j requires 0 <= j < |s.tanks| => Cleared(s.tanks[j])),
       consumedTanks := seq(|s.consumedTanks|, j requires 0 <= j < |s.consumedTanks| => Cleared(s.consumedTanks[j])))
  }

  /** Every tank and every staging tank is empty. */
  predicate NoFluids(s: ProcState) {
    && (forall j :: 0 <= j < |s.tanks| ==> s.tanks[j].stored.None?)
    && (forall j :: 0 <= j < |s.consumedTanks| ==> s.consumedTanks[j].stored.None?)
  }

  /** Refreshing never fills an empty tank or an empty staging tank. */
  lemma ClearedTanksStayEmpty(env: Env, s: ProcState)
    requires EnvOk(env) && Fits(env, s) && NoFluids(s)
    ensures NoFluids(RefreshAll(env, s))
  {
    var s1 := RefreshRecipe(env, s);
    RefreshRecipeKeepsNoFluids(env, s);
    var s2 := RefreshActivity(env, s1);
    RefreshActivityKeepsNoFluids(env, s1);
    assert RefreshAll(env, s) == RefreshFlags(env, s2);
  }

  lemma RefreshRecipeKeepsNoFluids(env: Env, s: ProcState)
    requires EnvOk(env) && Fits(env, s) && NoFluids(s)
    ensures NoFluids(RefreshRecipe(env, s))
  {
  }

  lemma RefreshActivityKeepsNoFluids(env: Env, s: ProcState)
    requires EnvOk(env) && Fits(env, s) && NoFluids(s)
    ensures NoFluids(RefreshActivity(env, s))
  {
    var s1 := DiscardStale(env, WithRecipeStats(env, s));
    if s1.recipeInfo.Some? {
      var (s2, itemsOk) := ItemAdmission(env, s1, 0);
      if itemsOk {
        FluidAdmissionClearsOnlyVoid(env, s2, 0);
      }
    }
  }

  /** Every inventory slot and every staging slot is empty. */
  predicate NoStacks(s: ProcState) {
    && (forall j :: 0 <= j < |s.stacks| ==> s.stacks[j].IsEmpty())
    && (forall j :: 0 <= j < |s.consumedStacks| ==> s.consumedStacks[j].IsEmpty())
  }

  /** Refreshing never fills an empty inventory slot or an empty staging slot. */
  lemma ClearedStacksStayEmpty(env: Env, s: ProcState)
    requires EnvOk(env) && Fits(env, s) && NoStacks(s)
    ensures NoStacks(RefreshAll(env, s))
  {
    var s1 := RefreshRecipe(env, s);
    RefreshRecipeKeepsNoStacks(env, s);
    var s2 := RefreshActivity(env, s1);
    RefreshActivityKeepsNoStacks(env, s1);
    assert RefreshAll(env, s) == RefreshFlags(env, s2);
  }

  lemma RefreshRecipeKeepsNoStacks(env: Env, s: ProcState)
    requires EnvOk(env) && Fits(env, s) && NoStacks(s)
    ensures NoStacks(RefreshRecipe(env, s))
  {
  }

  lemma RefreshActivityKeepsNoStacks(env: Env, s: ProcState)
    requires EnvOk(env) && Fits(env, s) && NoStacks(s)
    ensures NoStacks(RefreshActivity(env, s))
  {
  }

  // Slot changes

  /**
   * The refresh that follows a change to inventory slot `slot`: an input
   * slot re-matches the recipe and then re-checks activity, an output slot
   * only re-checks activity, and any other slot changes nothing.
   */
  function SlotChanged(env: Env, s: ProcState, slot: int): (r: ProcState)
    requires EnvOk(env) && Fits(env, s)
    ensures Fits(env, r)
    ensures slot < env.info.itemInputSize ==> r == RefreshActivity(env, RefreshRecipe(env, s))
    ensures env.info.itemInputSize <= slot < env.info.itemInputSize + env.info.itemOutputSize ==>
              r == RefreshActivity(env, s) && r.recipeInfo == s.recipeInfo
    ensures env.info.itemInputSize + env.info.itemOutputSize <= slot ==> r == s
  {
    var info := env.info;
    if slot < info.itemInputSize then RefreshActivity(env, RefreshRecipe(env, s))
    else if info.itemInputSize <= slot < info.itemInputSize + info.itemOutputSize then RefreshActivity(env, s)
    else s
  }

  /** setInventorySlotContents: put the stack in the slot, then refresh for the slot. */
  function SetInventorySlotContents(env: Env, s: ProcState, slot: int, stack: ItemStack): (r: ProcState)
    requires EnvOk(env) && Fits(env, s) && 0 <= slot < |s.stacks|
    ensures Fits(env, r)
    ensures env.info.itemInputSize <= slot ==> r.stacks[slot] == stack || r.stacks[slot] == EmptyStack
    ensures env.info.itemInputSize + env.info.itemOutputSize <= slot ==> r == s.(stacks := s.stacks[slot := stack])
  {
    SlotChanged(env, s.(stacks := s.stacks[slot := stack]), slot)
  }

  /**
   * decrStackSize: split up to `amount` items off the slot (nothing for a
   * slot out of range, an empty slot or a non-positive amount), then refresh
   * for the slot whether or not anything was taken.
   */
  function DecrStackSize(env: Env, s: ProcState, slot: int, amount: int): (r: (ProcState, ItemStack))
    requires EnvOk(env) && Fits(env, s)
    ensures Fits(env, r.0)
    ensures (0 <= slot < |s.stacks| && !s.stacks[slot].IsEmpty() && amount > 0) ==>
              r.1.item == s.stacks[slot].item && r.1.count == Min(amount, s.stacks[slot].count)
    ensures !(0 <= slot < |s.stacks| && !s.stacks[slot].IsEmpty() && amount > 0) ==> r.1 == EmptyStack
    ensures 0 <= slot < |s.stacks| && env.info.itemInputSize <= slot ==>
              GetCount(r.0.stacks[slot]) + GetCount(r.1) == GetCount(s.stacks[slot]) || r.0.stacks[slot] == EmptyStack
  {
    var (s1, taken) := SplitOff(s, slot, amount);
    (SlotChanged(env, s1, slot), taken)
  }

  /** The first half of decrStackSize: up to `amount` items split off the slot. */
  function SplitOff(s: ProcState, slot: int, amount: int): (r: (ProcState, ItemStack))
    ensures r.0 == s.(stacks := r.0.stacks) && |r.0.stacks| == |s.stacks|
  {
    if 0 <= slot < |s.stacks| && !s.stacks[slot].IsEmpty() && amount > 0 then
      var stack := s.stacks[slot];
      var taken := Min(amount, stack.count);
      var left := stack.(count := stack.count - taken);
      (s.(stacks := s.stacks[slot := left]), stack.(count := taken))
    else
      (s, EmptyStack)
  }

  // isItemValidForSlot

  /** The recipe handler's view the insertion check needs. */
  datatype Handler = Handler(recipes: seq<Recipe>, shapeless: bool, smartInput: bool)

  /** A shaped handler's recipes, and the current recipe, have an ingredient for every input slot. */
  predicate HandlerFits(env: Env, h: Handler, s: ProcState) {
    !h.shapeless ==>
      && (forall i :: 0 <= i < |h.recipes| ==> env.info.itemInputSize <= |h.recipes[i].itemIngredients|)
      && (s.recipeInfo.Some? ==> env.info.itemInputSize <= |s.recipeInfo.value.recipe.itemIngredients|)
  }

  /** inputItemStacksExcludingSlot: the input stacks without the one at `slot`. */
  function InputItemStacksExcludingSlot(env: Env, s: ProcState, slot: int): (r: seq<ItemStack>)
    requires Fits(env, s) && 0 <= slot < env.info.itemInputSize
    ensures |r| == env.info.itemInputSize - 1
    ensures r[..slot] + [s.stacks[slot]] + r[slot..] == s.stacks[..env.info.itemInputSize]
  {
    var inputs := s.stacks[..env.info.itemInputSize];
    assert inputs[..slot] + [inputs[slot]] + inputs[slot + 1..] == inputs;
    inputs[..slot] + inputs[slot + 1..]
  }

  /**
   * isItemValidForSlot: never an empty stack and never an output slot;
   * otherwise the handler's smart check when smart insertion is on, else
   * its plain check.
   */
  function IsItemValidForSlot(env: Env, h: Handler, s: ProcState, slot: int, stack: ItemStack): (b: bool)
    requires Fits(env, s) && HandlerFits(env, h, s)
    requires 0 <= slot < env.info.itemInputSize + env.info.itemOutputSize
    ensures b ==> !stack.IsEmpty() && slot < env.info.itemInputSize
    ensures b && !h.smartInput ==>
              exists i :: 0 <= i < |h.recipes| && BasicRecipeHandler.RecipeTakesItem(h.recipes[i], h.shapeless, slot, stack)
    ensures (&& !stack.IsEmpty() && slot < env.info.itemInputSize && !h.smartInput
             && exists i :: 0 <= i < |h.recipes| && BasicRecipeHandler.RecipeTakesItem(h.recipes[i], h.shapeless, slot, stack))
            ==> b
  {
    var info := env.info;
    if stack.IsEmpty() || (info.itemInputSize <= slot < info.itemInputSize + info.itemOutputSize) then false
    else if h.smartInput then
      BasicRecipeHandler.IsValidItemInputSmart(h.recipes, h.shapeless, info.itemInputSize, slot, stack, s.recipeInfo,
                                               s.stacks[..info.itemInputSize], InputItemStacksExcludingSlot(env, s, slot))
    else
      BasicRecipeHandler.IsValidItemInput(h.recipes, h.shapeless, slot, stack)
  }

  // writeProcessorNBT / readProcessorNBT

  function WriteProcessorNBT(s: ProcState, nbt: Nbt.Compound): (r: Nbt.Compound)
    ensures r.Keys == nbt.Keys + {Nbt.Time, Nbt.ResetTime, Nbt.IsProcessing, Nbt.CanProcessInputs, Nbt.HasConsumed}
  {
    var c1 := Nbt.SetDouble(nbt, Nbt.Time, s.currentTime);
    var c2 := Nbt.SetDouble(c1, Nbt.ResetTime, s.resetTime);
    var c3 := Nbt.SetBoolean(c2, Nbt.IsProcessing, s.isProcessing);
    var c4 := Nbt.SetBoolean(c3, Nbt.CanProcessInputs, s.canProcessInputs);
    Nbt.SetBoolean(c4, Nbt.HasConsumed, s.hasConsumed)
  }

  /** readProcessorNBT: the five fields from their keys; a missing key reads 0 or false. */
  function ReadProcessorNBT(s: ProcState, nbt: Nbt.Compound): (r: ProcState)
    ensures r == s.(currentTime := r.currentTime, resetTime := r.resetTime, isProcessing := r.isProcessing,
                    canProcessInputs := r.canProcessInputs, hasConsumed := r.hasConsumed)
    ensures Nbt.Time !in nbt ==> r.currentTime == 0.0
    ensures Nbt.HasConsumed !in nbt ==> !r.hasConsumed
  {
    s.(currentTime := Nbt.GetDouble(nbt, Nbt.Time), resetTime := Nbt.GetDouble(nbt, Nbt.ResetTime),
       isProcessing := Nbt.GetBoolean(nbt, Nbt.IsProcessing), canProcessInputs := Nbt.GetBoolean(nbt, Nbt.CanProcessInputs),
       hasConsumed := Nbt.GetBoolean(nbt, Nbt.HasConsumed))
  }

  /** Writing the processor record and reading it back restores the five fields, whatever the compound held. */
  lemma ProcessorNBTRoundTrip(s: ProcState, other: ProcState, nbt: Nbt.Compound)
    ensures ReadProcessorNBT(other, WriteProcessorNBT(s, nbt)) ==
            other.(currentTime := s.currentTime, resetTime := s.resetTime, isProcessing := s.isProcessing,
                   canProcessInputs := s.canProcessInputs, hasConsumed := s.hasConsumed)
  {
    var c1 := Nbt.SetDouble(nbt, Nbt.Time, s.currentTime);
    var c2 := Nbt.SetDouble(c1, Nbt.ResetTime, s.resetTime);
    var c3 := Nbt.SetBoolean(c2, Nbt.IsProcessing, s.isProcessing);
    var c4 := Nbt.SetBoolean(c3, Nbt.CanProcessInputs, s.canProcessInputs);
    var c5 := Nbt.SetBoolean(c4, Nbt.HasConsumed, s.hasConsumed);
    assert c5[Nbt.Time] == c1[Nbt.Time] && c5[Nbt.ResetTime] == c2[Nbt.ResetTime];
    assert c5[Nbt.IsProcessing] == c3[Nbt.IsProcessing] && c5[Nbt.CanProcessInputs] == c4[Nbt.CanProcessInputs];
  }
}
