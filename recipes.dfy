/**
 * Recipe arguments, ingredients, recipes and match results.
 *
 * Ingredients (nc.recipe.ingredient, not part of this model) are represented
 * by what the engine asks of them: the resources they match, their stack-size
 * variants (`getMaxStackSize(variant)`), the resource they produce
 * (`getStack`) and the size of the next produced stack (`getNextStack`).
 */
module Recipes {
  import opened Wrappers
  import opened Materials

  /** An argument of `addRecipe(Object...)`, by its Java class. */
  datatype Arg =
    | Null
    | Name(name: string)                     // an ore-dictionary or fluid name
    | OreStack(name: string, count: int)     // an ore-dictionary name with a stack size
    | Names(names: seq<string>)              // a list of alternatives
    | Double(doubleValue: real)
    | Integer(intValue: int)
    | Other                                  // any other object

  /** The Java classes an ExtrasFixer asks for. */
  datatype ArgClass = DoubleClass | IntegerClass | StringClass

  /** Class.isInstance: `null` is an instance of no class. */
  predicate IsInstance(c: ArgClass, a: Arg) {
    match c
    case DoubleClass => a.Double?
    case IntegerClass => a.Integer?
    case StringClass => a.Name?
  }

  datatype Ingredient<R> = Ingredient(accepts: set<R>, sizes: seq<int>, stack: Option<R>, nextSize: int) {

    /** Every ingredient offers at least the stack-size variant 0. */
    predicate Ok() {
      |sizes| >= 1
    }

    /** getMaxStackSize(variant) */
    function MaxStackSize(variant: int): int
      requires 0 <= variant < |sizes|
    {
      sizes[variant]
    }
  }

  /** An item ingredient matches a non-empty stack of an accepted item. */
  predicate MatchesItem(ing: Ingredient<Item>, stack: ItemStack) {
    !stack.IsEmpty() && stack.item in ing.accepts
  }

  /** A fluid ingredient matches a stack of an accepted fluid. */
  predicate MatchesFluid(ing: Ingredient<Fluid>, stack: FluidStack) {
    stack.fluid in ing.accepts
  }

  /** getStack of an item product: its item with the size of variant 0, or null. */
  function ItemProductStack(ing: Ingredient<Item>): Option<ItemStack>
    requires ing.Ok()
  {
    if ing.stack.Some? then Some(ItemStack(ing.stack.value, ing.sizes[0])) else None
  }

  /** getNextStack(0) of an item product. */
  function NextItemStack(ing: Ingredient<Item>): ItemStack {
    ItemStack(ing.stack.GetOr(Air), ing.nextSize)
  }

  /** getStack of a fluid product: its fluid with the amount of variant 0, or null. */
  function FluidProductStack(ing: Ingredient<Fluid>): Option<FluidStack>
    requires ing.Ok()
  {
    if ing.stack.Some? then Some(FluidStack(ing.stack.value, ing.sizes[0])) else None
  }

  /** getNextStack(0) of a fluid product. */
  function NextFluidStack(ing: Ingredient<Fluid>): Option<FluidStack> {
    if ing.stack.Some? then Some(FluidStack(ing.stack.value, ing.nextSize)) else None
  }

  /** Java's `/` on int: truncation toward zero. */
  function JavaDiv(a: int, b: int): int
    requires b > 0
  {
    if a >= 0 then a / b else -((-a) / b)
  }

  /** getFactoredIngredient(factor): every quantity divided by `factor`. */
  function FactoredIngredient(ing: Ingredient<Fluid>, factor: int): (r: Ingredient<Fluid>)
    requires factor > 0
    ensures |r.sizes| == |ing.sizes| && r.accepts == ing.accepts && r.stack == ing.stack
    ensures forall k :: 0 <= k < |ing.sizes| ==> r.sizes[k] == JavaDiv(ing.sizes[k], factor)
  {
    ing.(sizes := seq(|ing.sizes|, k requires 0 <= k < |ing.sizes| => JavaDiv(ing.sizes[k], factor)),
         nextSize := JavaDiv(ing.nextSize, factor))
  }

  datatype Recipe = Recipe(
    itemIngredients: seq<Ingredient<Item>>,
    fluidIngredients: seq<Ingredient<Fluid>>,
    itemProducts: seq<Ingredient<Item>>,
    fluidProducts: seq<Ingredient<Fluid>>,
    extras: seq<Arg>,
    shapeless: bool)

  /**
   * The result of matching inputs against a recipe: for each input slot and
   * tank, which ingredient it matched (`None` is the INVALID order) and which
   * stack-size variant of that ingredient.
   */
  datatype RecipeInfo = RecipeInfo(
    recipe: Recipe,
    itemInputOrder: Option<seq<int>>,
    fluidInputOrder: Option<seq<int>>,
    itemIngredientNumbers: seq<int>,
    fluidIngredientNumbers: seq<int>)

  /**
   * What the engine may index in a match result without going out of range,
   * for a processor with the given I/O counts.
   */
  predicate InfoFits(info: RecipeInfo, itemIn: nat, fluidIn: nat, itemOut: nat, fluidOut: nat) {
    var r := info.recipe;
    && |r.itemProducts| >= itemOut && |r.fluidProducts| >= fluidOut
    && (forall k :: 0 <= k < |r.itemProducts| ==> r.itemProducts[k].Ok())
    && (forall k :: 0 <= k < |r.fluidProducts| ==> r.fluidProducts[k].Ok())
    && |info.itemIngredientNumbers| >= itemIn && |info.fluidIngredientNumbers| >= fluidIn
    && (info.itemInputOrder.Some? ==>
          |info.itemInputOrder.value| >= itemIn &&
          forall i :: 0 <= i < itemIn ==>
            0 <= info.itemInputOrder.value[i] < |r.itemIngredients| &&
            0 <= info.itemIngredientNumbers[i] < |r.itemIngredients[info.itemInputOrder.value[i]].sizes|)
    && (info.fluidInputOrder.Some? ==>
          |info.fluidInputOrder.value| >= fluidIn &&
          forall i :: 0 <= i < fluidIn ==>
            0 <= info.fluidInputOrder.value[i] < |r.fluidIngredients| &&
            0 <= info.fluidIngredientNumbers[i] < |r.fluidIngredients[info.fluidInputOrder.value[i]].sizes|)
  }
}
