/**
 * The assembler's recipe table (nc/recipe/processor/AssemblerRecipes.java):
 * one TRISO fuel recipe per fissile element, behind two configuration flags.
 */
module AssemblerRecipes {
  import opened Recipes
  import opened BasicRecipeHandler

  /** Four item inputs, no fluid input, one item output, no fluid output. */
  const AssemblerSizes: Sizes := Sizes(4, 0, 1, 0)

  /** The index of the assembler in the default_processor_recipes setting. */
  const AssemblerFlagIndex: nat := 9

  /** The arguments of the recipe for one element: 9 carbide ingots and three coatings make 9 TRISO ingots. */
  function AssemblerArgs(element: string): seq<Arg> {
    [OreStack("ingot" + element + "Carbide", 9), Name("dustGraphite"), Name("ingotPyrolyticCarbon"),
     Name("ingotSiliconCarbide"), OreStack("ingot" + element + "TRISO", 9), Double(1.0), Double(1.0)]
  }

  /** Whether addRecipes registers anything: the global default-recipe flag and the assembler's own. */
  predicate Enabled(defaultRecipesGlobal: bool, defaultRecipes: seq<bool>)
    requires defaultRecipesGlobal ==> |defaultRecipes| > AssemblerFlagIndex
  {
    defaultRecipesGlobal && defaultRecipes[AssemblerFlagIndex]
  }

  /**
   * Each recipe's seven arguments split into the four inputs, the TRISO
   * output and the two extras 1.0 and 1.0.
   */
  lemma AssemblerArgsSplit(element: string)
    ensures Split(AssemblerArgs(element), AssemblerSizes) ==
            ArgGroups([OreStack("ingot" + element + "Carbide", 9), Name("dustGraphite"), Name("ingotPyrolyticCarbon"), Name("ingotSiliconCarbide")],
                      [],
                      [OreStack("ingot" + element + "TRISO", 9)],
                      [],
                      [Double(1.0), Double(1.0)])
  {
    var args := AssemblerArgs(element);
    assert args[..4] == [OreStack("ingot" + element + "Carbide", 9), Name("dustGraphite"), Name("ingotPyrolyticCarbon"), Name("ingotSiliconCarbide")];
    assert args[4..5] == [OreStack("ingot" + element + "TRISO", 9)];
    assert args[5..] == [Double(1.0), Double(1.0)];
  }

  /** The argument lists of addRecipes, one per element of FISSION_ORE_DICT, in order. */
  function AssemblerArgLists(elements: seq<string>): seq<seq<Arg>> {
    seq(|elements|, k requires 0 <= k < |elements| => AssemblerArgs(elements[k]))
  }

  /**
   * addRecipes: nothing when either flag is off (the assembler's flag is
   * not read when the global one is off); otherwise one addRecipe call per
   * element.
   */
  method AddRecipes(h: RecipeHandler, defaultRecipesGlobal: bool, defaultRecipes: seq<bool>, elements: seq<string>)
    requires h.Valid()
    requires defaultRecipesGlobal ==> |defaultRecipes| > AssemblerFlagIndex
    modifies h`recipeList
    ensures !Enabled(defaultRecipesGlobal, defaultRecipes) ==> h.recipeList == old(h.recipeList)
    ensures Enabled(defaultRecipesGlobal, defaultRecipes) ==> h.recipeList == old(h.recipeList) + h.RecipesOf(AssemblerArgLists(elements))
  {
    if !defaultRecipesGlobal || !defaultRecipes[AssemblerFlagIndex] {
      return;
    }
    ghost var argLists := AssemblerArgLists(elements);
    assert argLists[..0] == [];
    for k := 0 to |elements|
      invariant h.recipeList == old(h.recipeList) + h.RecipesOf(argLists[..k])
    {
      var element := elements[k];
      assert argLists[..k + 1][..k] == argLists[..k];
      ghost var done := h.RecipesOf(argLists[..k]);
      h.AddRecipe(AssemblerArgs(element));
      ConcatAssociative(old(h.recipeList), done, OptionToSeq(h.RecipeOf(argLists[k])));
    }
    assert argLists[..|elements|] == argLists;
  }

  /** With both flags on and every recipe building, exactly one recipe per element is registered, in element order. */
  lemma OneRecipePerElement(h: RecipeHandler, elements: seq<string>)
    requires h.Valid()
    requires forall k :: 0 <= k < |elements| ==> h.RecipeOf(AssemblerArgs(elements[k])).Some?
    ensures |h.RecipesOf(AssemblerArgLists(elements))| == |elements|
    ensures forall k :: 0 <= k < |elements| ==> h.RecipesOf(AssemblerArgLists(elements))[k] == h.RecipeOf(AssemblerArgs(elements[k])).value
  {
    h.RecipesOfAllBuilt(AssemblerArgLists(elements));
  }
}
