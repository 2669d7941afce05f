/**
 * The decay generator's recipe table (nc/recipe/generator/DecayGeneratorRecipes.java):
 * nine decay chains, each registering one recipe (a non-fissile product) or
 * five (one per fuel form), and the normalisation of a recipe's extras to
 * lifetime, power and radiation.
 */
module DecayGeneratorRecipes {
  import opened Wrappers
  import opened Recipes
  import opened BasicRecipeHandler

  /** One item input, no fluid input, one item output, no fluid output. */
  const DecaySizes: Sizes := Sizes(1, 0, 1, 0)

  /** Products that get a single recipe accepting three input forms. */
  const NonFission: set<string> := {"Lead", "Bismuth", "Thorium"}

  /** The fuel forms a fissile product comes in. */
  const FuelForms: seq<string> := ["", "Carbide", "Oxide", "Nitride", "ZA"]

  /** The extras a decay recipe keeps: lifetime (default 1200), power and radiation (default 0). */
  const ExtrasDefaults: seq<(ArgClass, Arg)> := [(DoubleClass, Double(1200.0)), (DoubleClass, Double(0.0)), (DoubleClass, Double(0.0))]

  /** fixedExtras, as a function of the given extras. */
  function DecayFixedExtras(extras: seq<Arg>): seq<Arg> {
    FixedExtras(extras, ExtrasDefaults)
  }

  /** fixedExtras, through an ExtrasFixer. */
  method FixExtras(extras: seq<Arg>) returns (fixed: seq<Arg>)
    ensures fixed == DecayFixedExtras(extras)
  {
    var fixer := new ExtrasFixer(extras);
    fixer.Add(DoubleClass, Double(1200.0));
    fixer.Add(DoubleClass, Double(0.0));
    fixer.Add(DoubleClass, Double(0.0));
    assert fixer.requests == ExtrasDefaults;
    fixed := fixer.fixed;
  }

  /**
   * Every decay recipe has exactly three extras: the given ones where they
   * are doubles, the defaults 1200, 0 and 0 elsewhere.
   */
  lemma DecayFixedExtrasShape(extras: seq<Arg>)
    ensures |DecayFixedExtras(extras)| == 3
    ensures forall k :: 0 <= k < 3 ==>
              DecayFixedExtras(extras)[k] == if k < |extras| && extras[k].Double? then extras[k] else ExtrasDefaults[k].1
    ensures DecayFixedExtras([]) == [Double(1200.0), Double(0.0), Double(0.0)]
  {
  }

  /** The argument lists addDecayRecipes passes to addRecipe. */
  function DecayArgs(input: string, output: string, lifetime: real, power: real, radiation: real): seq<seq<Arg>> {
    var inputName := "block" + input;
    if output in NonFission then
      [[Names([inputName, inputName + "Oxide", inputName + "Nitride"]), Name("block" + output),
        Double(lifetime), Double(power), Double(radiation)]]
    else
      seq(|FuelForms|, k requires 0 <= k < |FuelForms| =>
        [Name(inputName + FuelForms[k]), Name("block" + output + FuelForms[k]), Double(lifetime), Double(power), Double(radiation)])
  }

  /**
   * A chain with a non-fissile product gives one recipe taking the block in
   * its plain, oxide or nitride form; any other gives five, one per fuel
   * form with the same form on both sides. Every argument list splits into
   * one item input, one item output and the three extras, which the
   * normalisation keeps as they are.
   */
  lemma DecayArgsShape(input: string, output: string, lifetime: real, power: real, radiation: real)
    ensures var args := DecayArgs(input, output, lifetime, power, radiation);
            && (output in NonFission ==>
                  args == [[Names(["block" + input, "block" + input + "Oxide", "block" + input + "Nitride"]),
                            Name("block" + output), Double(lifetime), Double(power), Double(radiation)]])
            && (output !in NonFission ==>
                  |args| == 5 &&
                  forall k :: 0 <= k < 5 ==>
                    args[k][..2] == [Name("block" + input + FuelForms[k]), Name("block" + output + FuelForms[k])])
            && forall k :: 0 <= k < |args| ==>
                 var g := Split(args[k], DecaySizes);
                 && g.itemInputs == [args[k][0]] && g.fluidInputs == []
                 && g.itemOutputs == [args[k][1]] && g.fluidOutputs == []
                 && g.extras == [Double(lifetime), Double(power), Double(radiation)]
                 && DecayFixedExtras(g.extras) == g.extras
  {
    var args := DecayArgs(input, output, lifetime, power, radiation);
    forall k | 0 <= k < |args|
      ensures var g := Split(args[k], DecaySizes);
              && g.itemInputs == [args[k][0]] && g.fluidInputs == []
              && g.itemOutputs == [args[k][1]] && g.fluidOutputs == []
              && g.extras == [Double(lifetime), Double(power), Double(radiation)]
              && DecayFixedExtras(g.extras) == g.extras
    {
      assert |args[k]| == 5;
      assert args[k][2..] == [Double(lifetime), Double(power), Double(radiation)];
    }
  }

  /** addDecayRecipes */
  method AddDecayRecipes(h: RecipeHandler, input: string, output: string, lifetime: real, power: real, radiation: real)
    requires h.Valid()
    modifies h`recipeList
    ensures h.recipeList == old(h.recipeList) + h.RecipesOf(DecayArgs(input, output, lifetime, power, radiation))
  {
    if output in NonFission {
      AddNonFissileRecipe(h, input, output, lifetime, power, radiation);
    } else {
      AddFuelFormRecipes(h, input, output, lifetime, power, radiation);
    }
  }

  /** The branch of addDecayRecipes for a non-fissile product: one recipe taking three input forms. */
  method AddNonFissileRecipe(h: RecipeHandler, input: string, output: string, lifetime: real, power: real, radiation: real)
    requires h.Valid() && output in NonFission
    modifies h`recipeList
    ensures h.recipeList == old(h.recipeList) + h.RecipesOf(DecayArgs(input, output, lifetime, power, radiation))
  {
    var inputName := "block" + input;
    ghost var args := DecayArgs(input, output, lifetime, power, radiation);
    var argList := [Names([inputName, inputName + "Oxide", inputName + "Nitride"]), Name("block" + output),
                    Double(lifetime), Double(power), Double(radiation)];
    assert args == [argList];
    assert args[..0] == [];
    assert h.RecipesOf(args) == OptionToSeq(h.RecipeOf(argList));
    h.AddRecipe(argList);
  }

  /** The branch of addDecayRecipes for a fissile product: one recipe per fuel form. */
  method AddFuelFormRecipes(h: RecipeHandler, input: string, output: string, lifetime: real, power: real, radiation: real)
    requires h.Valid() && output !in NonFission
    modifies h`recipeList
    ensures h.recipeList == old(h.recipeList) + h.RecipesOf(DecayArgs(input, output, lifetime, power, radiation))
  {
    var inputName := "block" + input;
    ghost var args := DecayArgs(input, output, lifetime, power, radiation);
    for k := 0 to |FuelForms|
      invariant h.recipeList == old(h.recipeList) + h.RecipesOf(args[..k])
    {
      var form := FuelForms[k];
      var argList := [Name(inputName + form), Name("block" + output + form), Double(lifetime), Double(power), Double(radiation)];
      assert argList == args[k];
      h.RecipesOfSnoc(args, k);
      ghost var done := h.RecipesOf(args[..k]);
      h.AddRecipe(argList);
      ConcatAssociative(old(h.recipeList), done, OptionToSeq(h.RecipeOf(argList)));
    }
    assert args[..|FuelForms|] == args;
  }

  /**
   * The nine decay chains, input and product; the Uranium-238 product is
   * Radium and the Neptunium-237 product Bismuth only when those ores exist.
   */
  function DecayChains(oreExists: string -> bool): seq<(string, string)> {
    [("Thorium", "Lead"),
     ("Uranium", "Uranium238"),
     ("Uranium238", if oreExists("Radium") then "Radium" else "Lead"),
     ("Neptunium237", if oreExists("Bismuth") then "Bismuth" else "Lead"),
     ("Plutonium242", "Uranium238"),
     ("Americium243", "Lead"),
     ("Curium246", "Plutonium242"),
     ("Berkelium247", "Americium243"),
     ("Californium252", "Lead")]
  }

  /**
   * The argument lists of chain `k`; `lifetimes` and `powers` are the
   * decay_lifetime and decay_power settings, `radiations` the radiation
   * levels of the chain inputs.
   */
  function ChainArgs(oreExists: string -> bool, lifetimes: seq<real>, powers: seq<real>, radiations: seq<real>, k: nat): seq<seq<Arg>>
    requires k < 9 && |lifetimes| >= 9 && |powers| >= 9 && |radiations| >= 9
  {
    var chain := DecayChains(oreExists)[k];
    DecayArgs(chain.0, chain.1, lifetimes[k], powers[k], radiations[k])
  }

  /** The argument lists of all nine chains, chain by chain. */
  function AllChainArgs(oreExists: string -> bool, lifetimes: seq<real>, powers: seq<real>, radiations: seq<real>): seq<seq<seq<Arg>>>
    requires |lifetimes| >= 9 && |powers| >= 9 && |radiations| >= 9
  {
    seq(9, k requires 0 <= k < 9 => ChainArgs(oreExists, lifetimes, powers, radiations, k))
  }

  function TotalCount(batches: seq<seq<seq<Arg>>>): nat {
    if batches == [] then 0 else TotalCount(batches[..|batches| - 1]) + |batches[|batches| - 1]|
  }

  /**
   * Four chains end in a fissile product and four in a non-fissile one
   * whatever the ores; the Uranium-238 chain is fissile exactly when Radium
   * exists. So addRecipes makes 29 addRecipe calls with Radium and 25
   * without.
   */
  lemma DecayRecipeCount(oreExists: string -> bool, lifetimes: seq<real>, powers: seq<real>, radiations: seq<real>)
    requires |lifetimes| >= 9 && |powers| >= 9 && |radiations| >= 9
    ensures TotalCount(AllChainArgs(oreExists, lifetimes, powers, radiations)) == if oreExists("Radium") then 29 else 25
  {
    var all := AllChainArgs(oreExists, lifetimes, powers, radiations);
    assert "Radium" !in NonFission && "Uranium238" !in NonFission;
    assert "Plutonium242" !in NonFission && "Americium243" !in NonFission;
    assert |all[0]| == 1 && |all[1]| == 5 && |all[3]| == 1 && |all[4]| == 5;
    assert |all[5]| == 1 && |all[6]| == 5 && |all[7]| == 5 && |all[8]| == 1;
    assert |all[2]| == if oreExists("Radium") then 5 else 1;
    assert all[..0] == [];
    forall k | 0 <= k < 9
      ensures all[..k + 1][..k] == all[..k]
    {
    }
    assert TotalCount(all[..0]) == 0;
    assert TotalCount(all[..1]) == TotalCount(all[..0]) + |all[0]|;
    assert TotalCount(all[..2]) == TotalCount(all[..1]) + |all[1]|;
    assert TotalCount(all[..3]) == TotalCount(all[..2]) + |all[2]|;
    assert TotalCount(all[..4]) == TotalCount(all[..3]) + |all[3]|;
    assert TotalCount(all[..5]) == TotalCount(all[..4]) + |all[4]|;
    assert TotalCount(all[..6]) == TotalCount(all[..5]) + |all[5]|;
    assert TotalCount(all[..7]) == TotalCount(all[..6]) + |all[6]|;
    assert TotalCount(all[..8]) == TotalCount(all[..7]) + |all[7]|;
    assert TotalCount(all[..9]) == TotalCount(all[..8]) + |all[8]|;
    assert all[..9] == all;
  }

  /** addRecipes: the nine chains in order, as a walk over the chain table. */
  method AddRecipes(h: RecipeHandler, oreExists: string -> bool, lifetimes: seq<real>, powers: seq<real>, radiations: seq<real>)
    requires h.Valid()
    requires |lifetimes| >= 9 && |powers| >= 9 && |radiations| >= 9
    modifies h`recipeList
    ensures h.recipeList == old(h.recipeList) + h.RecipesOfBatches(AllChainArgs(oreExists, lifetimes, powers, radiations))
  {
    ghost var all := AllChainArgs(oreExists, lifetimes, powers, radiations);
    var chains := DecayChains(oreExists);
    assert all[..0] == [];
    for k := 0 to 9
      invariant h.recipeList == old(h.recipeList) + h.RecipesOfBatches(all[..k])
    {
      h.RecipesOfBatchesSnoc(all, k);
      assert all[k] == DecayArgs(chains[k].0, chains[k].1, lifetimes[k], powers[k], radiations[k]);
      ghost var done := h.RecipesOfBatches(all[..k]);
      AddDecayRecipes(h, chains[k].0, chains[k].1, lifetimes[k], powers[k], radiations[k]);
      assert h.recipeList == old(h.recipeList) + done + h.RecipesOf(all[k]);
      ConcatAssociative(old(h.recipeList), done, h.RecipesOf(all[k]));
    }
    assert all[..9] == all;
  }

  /**
   * The handler as constructed: the decay generator's sizes and extras, and
   * the recipes of addRecipes registered.
   */
  method NewDecayGeneratorRecipes(factorRecipes: bool, builders: Builders, hcf: seq<int> -> int,
                                  hashMaterials: (seq<Materials.ItemStack>, seq<Materials.FluidStack>) -> int,
                                  prepare: Recipe -> Option<seq<MaterialTuple>>,
                                  oreExists: string -> bool, lifetimes: seq<real>, powers: seq<real>, radiations: seq<real>)
    returns (h: RecipeHandler)
    requires forall s :: hcf(s) >= 1
    requires |lifetimes| >= 9 && |powers| >= 9 && |radiations| >= 9
    ensures h.Valid() && h.name == "decay_generator" && h.sizes == DecaySizes && h.isShapeless
    ensures h.fixedExtras == DecayFixedExtras
    ensures h.recipeList == h.RecipesOfBatches(AllChainArgs(oreExists, lifetimes, powers, radiations))
    ensures forall r :: r in h.recipeList ==> r.shapeless
  {
    h := new RecipeHandler("decay_generator", DecaySizes, true, factorRecipes, builders, DecayFixedExtras, hcf, hashMaterials, prepare);
    AddRecipes(h, oreExists, lifetimes, powers, radiations);
    h.RecipesOfBatchesShapeless(AllChainArgs(oreExists, lifetimes, powers, radiations));
  }
}
