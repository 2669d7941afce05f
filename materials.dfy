/**
 * Item stacks, fluid stacks and tanks, as the processor engine sees them.
 *
 * An item kind stands for Minecraft's item together with its metadata and
 * NBT tag (two stacks "are equal" when their kinds are); it carries its own
 * maximum stack size. Fluids are identified by name.
 */
module Materials {
  import opened Wrappers

  datatype Item = Air | Item(name: string, maxStackSize: int)

  /** An item stack; it is empty when its item is air or its count is not positive. */
  datatype ItemStack = ItemStack(item: Item, count: int) {
    predicate IsEmpty() {
      item == Air || count <= 0
    }
  }

  /** ItemStack.EMPTY */
  const EmptyStack: ItemStack := ItemStack(Air, 0)

  /** ItemStack.getCount: an empty stack counts 0. */
  function GetCount(s: ItemStack): (n: int)
    ensures s.IsEmpty() <==> n <= 0
    ensures n >= 0
  {
    if s.IsEmpty() then 0 else s.count
  }

  /** ItemStack.getItem: an empty stack is air. */
  function GetItem(s: ItemStack): (i: Item)
    ensures i == Air <==> s.IsEmpty()
  {
    if s.IsEmpty() then Air else s.item
  }

  /** ItemStack.getMaxStackSize: air stacks to 64. */
  function StackMaxSize(s: ItemStack): int {
    if s.item.Item? then s.item.maxStackSize else 64
  }

  /** ItemStack.isItemEqual: `other` is non-empty and is the same item kind as `stack`. */
  predicate IsItemEqual(stack: ItemStack, other: ItemStack) {
    !other.IsEmpty() && stack.item == other.item
  }

  type Fluid = string

  datatype FluidStack = FluidStack(fluid: Fluid, amount: int)

  /** FluidStack.isFluidEqual against a possibly absent stack. */
  predicate IsFluidEqual(stack: FluidStack, other: Option<FluidStack>) {
    other.Some? && stack.fluid == other.value.fluid
  }

  /**
   * A tank: its stored fluid (absent when empty), its capacity and the fluids
   * it accepts (`None` accepts every fluid).
   */
  datatype Tank = Tank(stored: Option<FluidStack>, capacity: int, allowed: Option<set<Fluid>>) {

    function FluidAmount(): int {
      if stored.Some? then stored.value.amount else 0
    }

    predicate IsEmpty() {
      FluidAmount() <= 0
    }

    predicate CanFillFluidType(resource: FluidStack) {
      allowed.None? || resource.fluid in allowed.value
    }

    /** setFluidStored: replace the contents, keeping capacity and filter. */
    function WithFluid(fluid: Option<FluidStack>): (t: Tank)
      ensures t.stored == fluid && t.capacity == capacity && t.allowed == allowed
    {
      this.(stored := fluid)
    }

    /** changeFluidAmount: add `delta` to the stored amount; an empty tank stays empty. */
    function ChangeAmount(delta: int): (t: Tank)
      ensures stored.Some? ==> t.stored == Some(stored.value.(amount := stored.value.amount + delta))
      ensures stored.None? ==> t == this
    {
      if stored.Some? then this.(stored := Some(stored.value.(amount := stored.value.amount + delta))) else this
    }
  }

  /** The empty tank of the same capacity and filter. */
  function Cleared(t: Tank): (r: Tank)
    ensures r.IsEmpty() && r.stored.None?
    ensures r.capacity == t.capacity && r.allowed == t.allowed
  {
    t.WithFluid(None)
  }

  /**
   * The output policy of an output slot or tank (ItemOutputSetting and
   * TankOutputSetting, in ordinal order): keep and block when full, void
   * what does not fit, or void everything.
   */
  datatype OutputSetting = Default | VoidExcess | Void

  function OutputSettingOrdinal(s: OutputSetting): (n: nat)
    ensures n < 3
  {
    match s
    case Default => 0
    case VoidExcess => 1
    case Void => 2
  }

  /** OutputSetting.values()[ordinal]; an ordinal out of range has no setting. */
  function OutputSettingOf(ordinal: int): (r: Option<OutputSetting>)
    ensures r.Some? <==> 0 <= ordinal < 3
    ensures r.Some? ==> OutputSettingOrdinal(r.value) == ordinal
  {
    if ordinal == 0 then Some(Default)
    else if ordinal == 1 then Some(VoidExcess)
    else if ordinal == 2 then Some(Void)
    else None
  }

  lemma OutputSettingOrdinalRoundTrip(s: OutputSetting)
    ensures OutputSettingOf(OutputSettingOrdinal(s)) == Some(s)
  {
  }
}
