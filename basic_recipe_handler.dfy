/**
 * The recipe registry of one machine kind (nc/recipe/BasicRecipeHandler.java):
 * turning `addRecipe` arguments into recipes, fluid-ratio factoring, the
 * hash index over recipe materials, and the input-validity checks.
 *
 * What the handler delegates to code that is not part of this model is a
 * function-valued field: building ingredients from arguments
 * (RecipeHelper.buildItemIngredient and the type checks before it),
 * NCMath.hcf, RecipeHelper.hashMaterials and prepareMaterialListTuples.
 */
module BasicRecipeHandler {
  import opened Wrappers
  import opened Materials
  import opened Recipes
  import opened PermutationHelper

  /** The four ingredient counts a handler declares. */
  datatype Sizes = Sizes(itemInputSize: nat, fluidInputSize: nat, itemOutputSize: nat, fluidOutputSize: nat)

  function Total(sz: Sizes): nat {
    sz.itemInputSize + sz.fluidInputSize + sz.itemOutputSize + sz.fluidOutputSize
  }

  function Min(a: int, b: int): int {
    if a <= b then a else b
  }

  // ---------------------------------------------------------------------
  // addRecipe(Object...): splitting the flat argument list

  datatype ArgGroups = ArgGroups(itemInputs: seq<Arg>, fluidInputs: seq<Arg>, itemOutputs: seq<Arg>, fluidOutputs: seq<Arg>, extras: seq<Arg>)

  /**
   * The argument list cut at the cumulative thresholds itemInputSize,
   * + fluidInputSize, + itemOutputSize, + fluidOutputSize; everything past
   * the last threshold is an extra.
   */
  function Split(objects: seq<Arg>, sz: Sizes): ArgGroups {
    var n := |objects|;
    var b1 := Min(sz.itemInputSize, n);
    var b2 := Min(sz.itemInputSize + sz.fluidInputSize, n);
    var b3 := Min(sz.itemInputSize + sz.fluidInputSize + sz.itemOutputSize, n);
    var b4 := Min(Total(sz), n);
    ArgGroups(objects[..b1], objects[b1..b2], objects[b2..b3], objects[b3..b4], objects[b4..])
  }

  /**
   * The five groups are consecutive pieces of the argument list; with enough
   * arguments the four ingredient groups have exactly their declared sizes
   * and everything after them is an extra, otherwise there are no extras.
   */
  lemma SplitPartitions(objects: seq<Arg>, sz: Sizes)
    ensures var g := Split(objects, sz);
            && g.itemInputs + g.fluidInputs + g.itemOutputs + g.fluidOutputs + g.extras == objects
            && |g.itemInputs| == Min(sz.itemInputSize, |objects|)
            && (|objects| >= Total(sz) ==>
                 && |g.itemInputs| == sz.itemInputSize && |g.fluidInputs| == sz.fluidInputSize
                 && |g.itemOutputs| == sz.itemOutputSize && |g.fluidOutputs| == sz.fluidOutputSize
                 && g.extras == objects[Total(sz)..])
            && (|objects| <= Total(sz) ==> g.extras == [])
  {
    var n := |objects|;
    var b1 := Min(sz.itemInputSize, n);
    var b2 := Min(sz.itemInputSize + sz.fluidInputSize, n);
    var b3 := Min(sz.itemInputSize + sz.fluidInputSize + sz.itemOutputSize, n);
    var b4 := Min(Total(sz), n);
    assert objects == objects[..b1] + objects[b1..b2] + objects[b2..b3] + objects[b3..b4] + objects[b4..];
  }

  /** The loop of addRecipe(Object...) that distributes the arguments by index. */
  method SplitArguments(objects: seq<Arg>, sz: Sizes) returns (g: ArgGroups)
    ensures g == Split(objects, sz)
  {
    var c1 := sz.itemInputSize;
    var c2 := c1 + sz.fluidInputSize;
    var c3 := c2 + sz.itemOutputSize;
    var c4 := Total(sz);
    var itemInputs, fluidInputs, itemOutputs, fluidOutputs, extras := [], [], [], [], [];
    for i := 0 to |objects|
      invariant ArgGroups(itemInputs, fluidInputs, itemOutputs, fluidOutputs, extras) == Split(objects[..i], sz)
    {
      var obj := objects[i];
      ghost var prefix := objects[..i];
      assert objects[..i + 1] == prefix + [obj];
      if i < c1 {
        SnocItemInput(prefix, obj, sz);
        itemInputs := itemInputs + [obj];
      } else if i < c2 {
        SnocFluidInput(prefix, obj, sz);
        fluidInputs := fluidInputs + [obj];
      } else if i < c3 {
        SnocItemOutput(prefix, obj, sz);
        itemOutputs := itemOutputs + [obj];
      } else if i < c4 {
        SnocFluidOutput(prefix, obj, sz);
        fluidOutputs := fluidOutputs + [obj];
      } else {
        SnocExtra(prefix, obj, sz);
        extras := extras + [obj];
      }
    }
    assert objects[..|objects|] == objects;
    g := ArgGroups(itemInputs, fluidInputs, itemOutputs, fluidOutputs, extras);
  }

  // One more argument joins the group whose threshold its index has not
  // reached yet; the other four groups stay as they were.

  lemma SnocItemInput(s: seq<Arg>, x: Arg, sz: Sizes)
    requires |s| < sz.itemInputSize
    ensures var g := Split(s, sz); Split(s + [x], sz) == g.(itemInputs := g.itemInputs + [x])
  {
    var t, n := s + [x], |s|;
    assert t[..n + 1] == s[..n] + [x];
    assert t[n + 1..n + 1] == s[n..n];
  }

  lemma SnocFluidInput(s: seq<Arg>, x: Arg, sz: Sizes)
    requires sz.itemInputSize <= |s| < sz.itemInputSize + sz.fluidInputSize
    ensures var g := Split(s, sz); Split(s + [x], sz) == g.(fluidInputs := g.fluidInputs + [x])
  {
    var t, n, c1 := s + [x], |s|, sz.itemInputSize;
    assert t[..c1] == s[..c1];
    assert t[c1..n + 1] == s[c1..n] + [x];
    assert t[n + 1..n + 1] == s[n..n];
  }

  lemma SnocItemOutput(s: seq<Arg>, x: Arg, sz: Sizes)
    requires sz.itemInputSize + sz.fluidInputSize <= |s| < sz.itemInputSize + sz.fluidInputSize + sz.itemOutputSize
    ensures var g := Split(s, sz); Split(s + [x], sz) == g.(itemOutputs := g.itemOutputs + [x])
  {
    var t, n, c1, c2 := s + [x], |s|, sz.itemInputSize, sz.itemInputSize + sz.fluidInputSize;
    assert t[..c1] == s[..c1];
    assert t[c1..c2] == s[c1..c2];
    assert t[c2..n + 1] == s[c2..n] + [x];
    assert t[n + 1..n + 1] == s[n..n];
  }

  lemma SnocFluidOutput(s: seq<Arg>, x: Arg, sz: Sizes)
    requires sz.itemInputSize + sz.fluidInputSize + sz.itemOutputSize <= |s| < Total(sz)
    ensures var g := Split(s, sz); Split(s + [x], sz) == g.(fluidOutputs := g.fluidOutputs + [x])
  {
    var t, n, c1, c2 := s + [x], |s|, sz.itemInputSize, sz.itemInputSize + sz.fluidInputSize;
    var c3 := c2 + sz.itemOutputSize;
    assert t[..c1] == s[..c1];
    assert t[c1..c2] == s[c1..c2];
    assert t[c2..c3] == s[c2..c3];
    assert t[c3..n + 1] == s[c3..n] + [x];
    assert t[n + 1..] == s[n..];
  }

  lemma SnocExtra(s: seq<Arg>, x: Arg, sz: Sizes)
    requires Total(sz) <= |s|
    ensures var g := Split(s, sz); Split(s + [x], sz) == g.(extras := g.extras + [x])
  {
    var t, c1, c2 := s + [x], sz.itemInputSize, sz.itemInputSize + sz.fluidInputSize;
    var c3, c4 := c2 + sz.itemOutputSize, Total(sz);
    assert t[..c1] == s[..c1];
    assert t[c1..c2] == s[c1..c2];
    assert t[c2..c3] == s[c2..c3];
    assert t[c3..c4] == s[c3..c4];
    assert t[c4..] == s[c4..] + [x];
  }

  // ---------------------------------------------------------------------
  // buildRecipe

  /**
   * The ingredient builders: for each of the four groups, the handler's
   * `isValidXType` check followed by RecipeHelper.buildXIngredient, giving
   * `None` where the Java code returns null.
   */
  datatype Builders = Builders(
    itemInput: Arg -> Option<Ingredient<Item>>,
    fluidInput: Arg -> Option<Ingredient<Fluid>>,
    itemOutput: Arg -> Option<Ingredient<Item>>,
    fluidOutput: Arg -> Option<Ingredient<Fluid>>)

  /** A null argument is rejected before the builder is asked. */
  function BuildOne<R>(build: Arg -> Option<Ingredient<R>>, obj: Arg): Option<Ingredient<R>> {
    if obj.Null? then None else build(obj)
  }

  /** One group of arguments built in order; `None` as soon as one argument fails. */
  function BuildAll<R>(build: Arg -> Option<Ingredient<R>>, objs: seq<Arg>): Option<seq<Ingredient<R>>> {
    if forall i :: 0 <= i < |objs| ==> BuildOne(build, objs[i]).Some? then
      Some(seq(|objs|, i requires 0 <= i < |objs| => BuildOne(build, objs[i]).value))
    else
      None
  }

  /** One of the four loops of buildRecipe. */
  method BuildIngredients<R>(build: Arg -> Option<Ingredient<R>>, objs: seq<Arg>) returns (r: Option<seq<Ingredient<R>>>)
    ensures r == BuildAll(build, objs)
  {
    var ingredients := [];
    for i := 0 to |objs|
      invariant |ingredients| == i
      invariant forall j :: 0 <= j < i ==> BuildOne(build, objs[j]) == Some(ingredients[j])
    {
      var obj := objs[i];
      if obj.Null? {
        return None;
      }
      var ingredient := build(obj);
      if ingredient.None? {
        return None;
      }
      ingredients := ingredients + [ingredient.value];
    }
    assert ingredients == seq(|objs|, i requires 0 <= i < |objs| => BuildOne(build, objs[i]).value);
    return Some(ingredients);
  }

  /**
   * The recipe buildRecipe returns for the four argument groups; the extras
   * pass through the handler's `fixedExtras`.
   */
  function RecipeFrom(b: Builders, fixedExtras: seq<Arg> -> seq<Arg>, g: ArgGroups, shapeless: bool): Option<Recipe> {
    var itemIngredients := BuildAll(b.itemInput, g.itemInputs);
    var fluidIngredients := BuildAll(b.fluidInput, g.fluidInputs);
    var itemProducts := BuildAll(b.itemOutput, g.itemOutputs);
    var fluidProducts := BuildAll(b.fluidOutput, g.fluidOutputs);
    if itemIngredients.Some? && fluidIngredients.Some? && itemProducts.Some? && fluidProducts.Some? then
      Some(Recipe(itemIngredients.value, fluidIngredients.value, itemProducts.value, fluidProducts.value,
                  fixedExtras(g.extras), shapeless))
    else
      None
  }

  method BuildRecipe(b: Builders, fixedExtras: seq<Arg> -> seq<Arg>, g: ArgGroups, shapeless: bool) returns (r: Option<Recipe>)
    ensures r == RecipeFrom(b, fixedExtras, g, shapeless)
  {
    var itemIngredients := BuildIngredients(b.itemInput, g.itemInputs);
    if itemIngredients.None? {
      return None;
    }
    var fluidIngredients := BuildIngredients(b.fluidInput, g.fluidInputs);
    if fluidIngredients.None? {
      return None;
    }
    var itemProducts := BuildIngredients(b.itemOutput, g.itemOutputs);
    if itemProducts.None? {
      return None;
    }
    var fluidProducts := BuildIngredients(b.fluidOutput, g.fluidOutputs);
    if fluidProducts.None? {
      return None;
    }
    r := Some(Recipe(itemIngredients.value, fluidIngredients.value, itemProducts.value, fluidProducts.value,
                     fixedExtras(g.extras), shapeless));
  }

  /** A built recipe is null exactly when some argument is null or fails to build. */
  lemma RecipeFromNoneIff(b: Builders, fixedExtras: seq<Arg> -> seq<Arg>, g: ArgGroups, shapeless: bool)
    ensures RecipeFrom(b, fixedExtras, g, shapeless).None? <==>
              || (exists i :: 0 <= i < |g.itemInputs| && BuildOne(b.itemInput, g.itemInputs[i]).None?)
              || (exists i :: 0 <= i < |g.fluidInputs| && BuildOne(b.fluidInput, g.fluidInputs[i]).None?)
              || (exists i :: 0 <= i < |g.itemOutputs| && BuildOne(b.itemOutput, g.itemOutputs[i]).None?)
              || (exists i :: 0 <= i < |g.fluidOutputs| && BuildOne(b.fluidOutput, g.fluidOutputs[i]).None?)
  {
  }

  /** isValidRecipe: the built lists have exactly the declared sizes. */
  predicate IsValidRecipe(sz: Sizes, r: Recipe) {
    && |r.itemIngredients| == sz.itemInputSize && |r.fluidIngredients| == sz.fluidInputSize
    && |r.itemProducts| == sz.itemOutputSize && |r.fluidProducts| == sz.fluidOutputSize
  }

  /**
   * A recipe whose arguments all build is kept whatever its arity: a size
   * mismatch is only reported, never rejected. With a long enough argument
   * list the built recipe does have the declared sizes.
   */
  lemma BuiltRecipeArity(b: Builders, fixedExtras: seq<Arg> -> seq<Arg>, objects: seq<Arg>, sz: Sizes, shapeless: bool)
    requires RecipeFrom(b, fixedExtras, Split(objects, sz), shapeless).Some?
    ensures var r := RecipeFrom(b, fixedExtras, Split(objects, sz), shapeless).value;
            && r.extras == fixedExtras(Split(objects, sz).extras)
            && (IsValidRecipe(sz, r) <==> |objects| >= Total(sz))
  {
    var g := Split(objects, sz);
    SplitPartitions(objects, sz);
    var r := RecipeFrom(b, fixedExtras, g, shapeless).value;
    assert |r.itemIngredients| == |g.itemInputs| && |r.fluidIngredients| == |g.fluidInputs|;
    assert |r.itemProducts| == |g.itemOutputs| && |r.fluidProducts| == |g.fluidOutputs|;
    if IsValidRecipe(sz, r) {
      assert |objects| == |g.itemInputs| + |g.fluidInputs| + |g.itemOutputs| + |g.fluidOutputs| + |g.extras|;
    }
  }

  // ---------------------------------------------------------------------
  // ExtrasFixer

  /**
   * The extra a fixer keeps at position `index`: the given extra when there
   * is one and it has the requested class, otherwise the default.
   */
  function FixedExtra(extras: seq<Arg>, index: nat, clazz: ArgClass, default: Arg): Arg {
    if index < |extras| && IsInstance(clazz, extras[index]) then extras[index] else default
  }

  /** The list a fixer builds from a sequence of (class, default) requests. */
  function FixedExtras(extras: seq<Arg>, requests: seq<(ArgClass, Arg)>): (fixed: seq<Arg>)
    ensures |fixed| == |requests|
    ensures forall k :: 0 <= k < |requests| ==>
              (k < |extras| && IsInstance(requests[k].0, extras[k]) ==> fixed[k] == extras[k]) &&
              (!(k < |extras| && IsInstance(requests[k].0, extras[k])) ==> fixed[k] == requests[k].1)
  {
    seq(|requests|, k requires 0 <= k < |requests| => FixedExtra(extras, k, requests[k].0, requests[k].1))
  }

  /** BasicRecipeHandler.ExtrasFixer: normalises a recipe's extras position by position. */
  class ExtrasFixer {
    const extras: seq<Arg>
    const extrasCount: nat
    var fixed: seq<Arg>
    var currentIndex: nat
    /** The requests made so far. */
    ghost var requests: seq<(ArgClass, Arg)>

    ghost predicate Valid()
      reads this
    {
      && extrasCount == |extras|
      && currentIndex == |requests|
      && fixed == FixedExtras(extras, requests)
    }

    constructor (extras: seq<Arg>)
      ensures Valid()
      ensures this.extras == extras && fixed == [] && requests == []
    {
      this.extras := extras;
      extrasCount := |extras|;
      fixed := [];
      currentIndex := 0;
      requests := [];
    }

    /** add(clazz, defaultValue) */
    method Add(clazz: ArgClass, defaultValue: Arg)
      requires Valid()
      modifies this
      ensures Valid()
      ensures requests == old(requests) + [(clazz, defaultValue)]
      ensures fixed == old(fixed) + [FixedExtra(extras, old(currentIndex), clazz, defaultValue)]
    {
      var index := currentIndex;
      currentIndex := currentIndex + 1;
      var extra := if index < extrasCount && IsInstance(clazz, extras[index]) then extras[index] else defaultValue;
      fixed := fixed + [extra];
      requests := requests + [(clazz, defaultValue)];
    }
  }

  // ---------------------------------------------------------------------
  // factorRecipe

  function Flatten(lists: seq<seq<int>>): seq<int> {
    if lists == [] then [] else Flatten(lists[..|lists| - 1]) + lists[|lists| - 1]
  }

  /**
   * The quantities whose highest common factor factorRecipe divides out:
   * every size variant of every fluid ingredient, then of every fluid
   * product (this handler adds no extra factors).
   */
  function FluidFactors(r: Recipe): seq<int> {
    Flatten(seq(|r.fluidIngredients|, k requires 0 <= k < |r.fluidIngredients| => r.fluidIngredients[k].sizes)) +
    Flatten(seq(|r.fluidProducts|, k requires 0 <= k < |r.fluidProducts| => r.fluidProducts[k].sizes))
  }

  /** A recipe without item ingredients or products: only such recipes are factored. */
  predicate FluidOnly(r: Recipe) {
    r.itemIngredients == [] && r.itemProducts == []
  }

  function FactorAll(ings: seq<Ingredient<Fluid>>, factor: int): seq<Ingredient<Fluid>>
    requires factor > 0
  {
    seq(|ings|, k requires 0 <= k < |ings| => FactoredIngredient(ings[k], factor))
  }

  /**
   * factorRecipe: a fluid-only recipe has every fluid quantity divided by the
   * highest common factor of all of them; `hcf` is NCMath.hcf, which the
   * source relies on to be positive.
   */
  function FactorRecipe(recipe: Option<Recipe>, hcf: seq<int> -> int): (r: Option<Recipe>)
    requires recipe.Some? && FluidOnly(recipe.value) ==> hcf(FluidFactors(recipe.value)) >= 1
    ensures recipe.None? ==> r.None?
    ensures recipe.Some? ==> r.Some?
    ensures recipe.Some? && (!FluidOnly(recipe.value) || hcf(FluidFactors(recipe.value)) == 1) ==> r == recipe
    ensures recipe.Some? ==>
              && r.value.itemIngredients == recipe.value.itemIngredients
              && r.value.itemProducts == recipe.value.itemProducts
              && r.value.extras == recipe.value.extras
              && r.value.shapeless == recipe.value.shapeless
              && |r.value.fluidIngredients| == |recipe.value.fluidIngredients|
              && |r.value.fluidProducts| == |recipe.value.fluidProducts|
    ensures recipe.Some? && FluidOnly(recipe.value) ==>
              var f := hcf(FluidFactors(recipe.value));
              && (forall k :: 0 <= k < |recipe.value.fluidIngredients| ==>
                    r.value.fluidIngredients[k] == FactoredIngredient(recipe.value.fluidIngredients[k], f))
              && (forall k :: 0 <= k < |recipe.value.fluidProducts| ==>
                    r.value.fluidProducts[k] == FactoredIngredient(recipe.value.fluidProducts[k], f))
  {
    if recipe.None? then None
    else if !FluidOnly(recipe.value) then recipe
    else
      var factor := hcf(FluidFactors(recipe.value));
      if factor == 1 then recipe
      else
        Some(recipe.value.(fluidIngredients := FactorAll(recipe.value.fluidIngredients, factor),
                           fluidProducts := FactorAll(recipe.value.fluidProducts, factor)))
  }

  /** A fluid-only recipe mixing 1000 of `a` and 1000 of `b` into 2000 of `c`. */
  function MixingRecipe(a: Fluid, b: Fluid, c: Fluid): Recipe {
    Recipe([], [Ingredient({a}, [1000], Some(a), 1000), Ingredient({b}, [1000], Some(b), 1000)],
           [], [Ingredient({c}, [2000], Some(c), 2000)], [], false)
  }

  lemma MixingRecipeFactors(a: Fluid, b: Fluid, c: Fluid)
    ensures FluidFactors(MixingRecipe(a, b, c)) == [1000, 1000, 2000]
  {
    var r := MixingRecipe(a, b, c);
    var ins := seq(|r.fluidIngredients|, k requires 0 <= k < |r.fluidIngredients| => r.fluidIngredients[k].sizes);
    var outs := seq(|r.fluidProducts|, k requires 0 <= k < |r.fluidProducts| => r.fluidProducts[k].sizes);
    assert ins == [[1000], [1000]];
    assert outs == [[2000]];
    assert ins[..1] == [[1000]] && ins[..1][..0] == [];
    assert Flatten(ins[..1]) == [1000];
    assert Flatten(ins) == [1000, 1000];
    assert outs[..0] == [];
    assert Flatten(outs) == [2000];
    assert FluidFactors(r) == Flatten(ins) + Flatten(outs);
  }

  /** Factoring it by its common factor 1000 leaves 1 : 1 -> 2. */
  lemma FactorRecipeExample(a: Fluid, b: Fluid, c: Fluid, hcf: seq<int> -> int)
    requires hcf(FluidFactors(MixingRecipe(a, b, c))) == 1000
    ensures var f := FactorRecipe(Some(MixingRecipe(a, b, c)), hcf).value;
            && f.fluidIngredients == [Ingredient({a}, [1], Some(a), 1), Ingredient({b}, [1], Some(b), 1)]
            && f.fluidProducts == [Ingredient({c}, [2], Some(c), 2)]
  {
    assert FactoredIngredient(Ingredient({a}, [1000], Some(a), 1000), 1000).sizes == [1];
    assert FactoredIngredient(Ingredient({b}, [1000], Some(b), 1000), 1000).sizes == [1];
    assert FactoredIngredient(Ingredient({c}, [2000], Some(c), 2000), 1000).sizes == [2];
  }

  // ---------------------------------------------------------------------
  // The recipe cache: material hashes to the recipes they can start

  /** One way of supplying a recipe: the item stacks and the fluid stacks, in ingredient order. */
  type MaterialTuple = (seq<ItemStack>, seq<FluidStack>)

  type Cache = map<int, set<Recipe>>

  /** The recipes stored under `h`; a missing key holds none. */
  function Bucket(c: Cache, h: int): set<Recipe> {
    if h in c then c[h] else {}
  }

  /** `c` with `r` added to the bucket of every key in `keys`. */
  function AddKeys(c: Cache, r: Recipe, keys: set<int>): (c': Cache)
    ensures c'.Keys == c.Keys + keys
    ensures forall h :: Bucket(c', h) == if h in keys then Bucket(c, h) + {r} else Bucket(c, h)
  {
    map h | h in c.Keys + keys :: if h in keys then Bucket(c, h) + {r} else Bucket(c, h)
  }

  lemma AddKeysUnion(c: Cache, r: Recipe, k1: set<int>, k2: set<int>)
    ensures AddKeys(AddKeys(c, r, k1), r, k2) == AddKeys(c, r, k1 + k2)
  {
    var mid := AddKeys(c, r, k1);
    var lhs := AddKeys(mid, r, k2);
    var rhs := AddKeys(c, r, k1 + k2);
    assert lhs.Keys == rhs.Keys;
    forall h | h in lhs.Keys
      ensures lhs[h] == rhs[h]
    {
      assert lhs[h] == Bucket(lhs, h) && rhs[h] == Bucket(rhs, h);
      if h in k1 && h in k2 {
        assert Bucket(mid, h) + {r} == Bucket(mid, h);
      }
    }
  }

  lemma AddKeysNone(c: Cache, r: Recipe)
    ensures AddKeys(c, r, {}) == c
  {
    var lhs := AddKeys(c, r, {});
    forall k | k in lhs.Keys
      ensures lhs[k] == c[k]
    {
      assert Bucket(lhs, k) == lhs[k];
    }
  }

  lemma AddKeysSingle(c: Cache, r: Recipe, h: int)
    ensures AddKeys(c, r, {h}) == c[h := Bucket(c, h) + {r}]
  {
    var lhs := AddKeys(c, r, {h});
    var rhs := c[h := Bucket(c, h) + {r}];
    forall k | k in lhs.Keys
      ensures lhs[k] == rhs[k]
    {
      assert Bucket(lhs, k) == lhs[k];
    }
  }

  /** The hashes of the materials in every arrangement of the stacks (both lists permuted independently). */
  function ArrangementKeys(hash: (seq<ItemStack>, seq<FluidStack>) -> int, ips: seq<seq<ItemStack>>, fps: seq<seq<FluidStack>>, n: nat): set<int>
    requires n <= |ips|
  {
    set x, y | 0 <= x < n && 0 <= y < |fps| :: hash(ips[x], fps[y])
  }

  lemma ArrangementKeysStep(hash: (seq<ItemStack>, seq<FluidStack>) -> int, ips: seq<seq<ItemStack>>, fps: seq<seq<FluidStack>>, n: nat)
    requires n < |ips|
    ensures ArrangementKeys(hash, ips, fps, n + 1) == ArrangementKeys(hash, ips, fps, n) + RowKeys(hash, ips[n], fps, |fps|)
  {
    var lhs := ArrangementKeys(hash, ips, fps, n + 1);
    var rhs := ArrangementKeys(hash, ips, fps, n) + RowKeys(hash, ips[n], fps, |fps|);
    forall k | k in lhs
      ensures k in rhs
    {
      var x, y :| 0 <= x < n + 1 && 0 <= y < |fps| && k == hash(ips[x], fps[y]);
      if x == n {
        assert k in RowKeys(hash, ips[n], fps, |fps|);
      } else {
        assert k in ArrangementKeys(hash, ips, fps, n);
      }
    }
  }

  function RowKeys(hash: (seq<ItemStack>, seq<FluidStack>) -> int, ip: seq<ItemStack>, fps: seq<seq<FluidStack>>, n: nat): set<int>
    requires n <= |fps|
  {
    set y | 0 <= y < n :: hash(ip, fps[y])
  }

  /**
   * The keys one material tuple is stored under: for a shapeless handler the
   * hash of every pairing of an item permutation with a fluid permutation,
   * otherwise the hash of the tuple as it is.
   */
  function TupleKeys(hash: (seq<ItemStack>, seq<FluidStack>) -> int, shapeless: bool, t: MaterialTuple): set<int> {
    if shapeless then
      var ips := Permutations(t.0);
      ArrangementKeys(hash, ips, Permutations(t.1), |ips|)
    else
      {hash(t.0, t.1)}
  }

  function TuplesKeys(hash: (seq<ItemStack>, seq<FluidStack>) -> int, shapeless: bool, ts: seq<MaterialTuple>): set<int> {
    if ts == [] then {} else TuplesKeys(hash, shapeless, ts[..|ts| - 1]) + TupleKeys(hash, shapeless, ts[|ts| - 1])
  }

  /** The keys a recipe is stored under; none when its material tuples cannot be prepared. */
  function RecipeKeys(hash: (seq<ItemStack>, seq<FluidStack>) -> int, prepare: Recipe -> Option<seq<MaterialTuple>>,
                      shapeless: bool, r: Recipe): set<int> {
    match prepare(r)
    case None => {}
    case Some(ts) => TuplesKeys(hash, shapeless, ts)
  }

  /** The cache after fillHashCache has gone over `recipes` in order. */
  function FilledCache(c: Cache, recipes: seq<Recipe>, hash: (seq<ItemStack>, seq<FluidStack>) -> int,
                       prepare: Recipe -> Option<seq<MaterialTuple>>, shapeless: bool): Cache {
    if recipes == [] then c
    else
      var last := recipes[|recipes| - 1];
      AddKeys(FilledCache(c, recipes[..|recipes| - 1], hash, prepare, shapeless), last, RecipeKeys(hash, prepare, shapeless, last))
  }

  /** A recipe is in a bucket of the filled cache exactly when it was there before or one of its keys is that bucket's. */
  lemma {:induction false} FilledCacheBucket(c: Cache, recipes: seq<Recipe>, hash: (seq<ItemStack>, seq<FluidStack>) -> int,
                                             prepare: Recipe -> Option<seq<MaterialTuple>>, shapeless: bool, h: int, r: Recipe)
    ensures r in Bucket(FilledCache(c, recipes, hash, prepare, shapeless), h) <==>
              r in Bucket(c, h) || (r in recipes && h in RecipeKeys(hash, prepare, shapeless, r))
  {
    if recipes != [] {
      var init := recipes[..|recipes| - 1];
      FilledCacheBucket(c, init, hash, prepare, shapeless, h, r);
      assert recipes == init + [recipes[|recipes| - 1]];
    }
  }

  lemma {:induction false} TupleKeysInTuplesKeys(hash: (seq<ItemStack>, seq<FluidStack>) -> int, shapeless: bool, ts: seq<MaterialTuple>, k: nat)
    requires k < |ts|
    ensures TupleKeys(hash, shapeless, ts[k]) <= TuplesKeys(hash, shapeless, ts)
  {
    if k < |ts| - 1 {
      TupleKeysInTuplesKeys(hash, shapeless, ts[..|ts| - 1], k);
    }
  }

  /**
   * The lookup the cache exists for: for a shapeless handler, a recipe is
   * found under the hash of ANY reordering of the items and ANY reordering of
   * the fluids of one of its material tuples.
   */
  lemma ShapelessLookupIgnoresOrder(c: Cache, recipes: seq<Recipe>, hash: (seq<ItemStack>, seq<FluidStack>) -> int,
                                    prepare: Recipe -> Option<seq<MaterialTuple>>, r: Recipe, k: nat,
                                    items: seq<ItemStack>, fluids: seq<FluidStack>)
    requires r in recipes && prepare(r).Some? && k < |prepare(r).value|
    requires multiset(items) == multiset(prepare(r).value[k].0)
    requires multiset(fluids) == multiset(prepare(r).value[k].1)
    ensures r in Bucket(FilledCache(c, recipes, hash, prepare, true), hash(items, fluids))
  {
    var ts := prepare(r).value;
    var t := ts[k];
    var ips, fps := Permutations(t.0), Permutations(t.1);
    PermutationsComplete(t.0, items);
    PermutationsComplete(t.1, fluids);
    var x :| 0 <= x < |ips| && ips[x] == items;
    var y :| 0 <= y < |fps| && fps[y] == fluids;
    assert hash(ips[x], fps[y]) in ArrangementKeys(hash, ips, fps, |ips|);
    TupleKeysInTuplesKeys(hash, true, ts, k);
    FilledCacheBucket(c, recipes, hash, prepare, true, hash(items, fluids), r);
  }

  /** For a shaped handler a recipe is found under the hash of each of its material tuples as given. */
  lemma ShapedLookup(c: Cache, recipes: seq<Recipe>, hash: (seq<ItemStack>, seq<FluidStack>) -> int,
                     prepare: Recipe -> Option<seq<MaterialTuple>>, r: Recipe, k: nat)
    requires r in recipes && prepare(r).Some? && k < |prepare(r).value|
    ensures var t := prepare(r).value[k];
            r in Bucket(FilledCache(c, recipes, hash, prepare, false), hash(t.0, t.1))
  {
    var t := prepare(r).value[k];
    TupleKeysInTuplesKeys(hash, false, prepare(r).value, k);
    FilledCacheBucket(c, recipes, hash, prepare, false, hash(t.0, t.1), r);
  }

  // ---------------------------------------------------------------------
  // The handler

  class RecipeHandler {
    const name: string
    const sizes: Sizes
    const isShapeless: bool
    /** NCConfig.factor_recipes */
    const factorRecipes: bool
    const builders: Builders
    /** The subclass's fixedExtras. */
    const fixedExtras: seq<Arg> -> seq<Arg>
    /** NCMath.hcf */
    const hcf: seq<int> -> int
    /** RecipeHelper.hashMaterials */
    const hashMaterials: (seq<ItemStack>, seq<FluidStack>) -> int
    /** prepareMaterialListTuples: the material tuples of a recipe, or `None` when it reports failure. */
    const prepareMaterialListTuples: Recipe -> Option<seq<MaterialTuple>>
    var recipeList: seq<Recipe>
    var recipeCache: Cache

    /** NCMath.hcf never yields a factor below 1. */
    ghost predicate Valid() {
      forall s :: hcf(s) >= 1
    }

    constructor (name: string, sizes: Sizes, isShapeless: bool, factorRecipes: bool, builders: Builders,
                 fixedExtras: seq<Arg> -> seq<Arg>, hcf: seq<int> -> int,
                 hashMaterials: (seq<ItemStack>, seq<FluidStack>) -> int,
                 prepareMaterialListTuples: Recipe -> Option<seq<MaterialTuple>>)
      requires forall s :: hcf(s) >= 1
      ensures Valid()
      ensures this.name == name && this.sizes == sizes && this.isShapeless == isShapeless
      ensures this.factorRecipes == factorRecipes && this.builders == builders && this.fixedExtras == fixedExtras
      ensures this.hcf == hcf && this.hashMaterials == hashMaterials
      ensures this.prepareMaterialListTuples == prepareMaterialListTuples
      ensures recipeList == [] && recipeCache == map[]
    {
      this.name := name;
      this.sizes := sizes;
      this.isShapeless := isShapeless;
      this.factorRecipes := factorRecipes;
      this.builders := builders;
      this.fixedExtras := fixedExtras;
      this.hcf := hcf;
      this.hashMaterials := hashMaterials;
      this.prepareMaterialListTuples := prepareMaterialListTuples;
      recipeList := [];
      recipeCache := map[];
    }

    /** The recipe addRecipe(objects) registers, if any. */
    function RecipeOf(objects: seq<Arg>): Option<Recipe>
      requires Valid()
    {
      var built := RecipeFrom(builders, fixedExtras, Split(objects, sizes), isShapeless);
      if factorRecipes then FactorRecipe(built, hcf) else built
    }

    /** The recipes a sequence of addRecipe calls registers, in order. */
    function RecipesOf(argLists: seq<seq<Arg>>): seq<Recipe>
      requires Valid()
    {
      if argLists == [] then []
      else RecipesOf(argLists[..|argLists| - 1]) + OptionToSeq(RecipeOf(argLists[|argLists| - 1]))
    }

    /** The recipes registered by several batches of addRecipe calls, batch after batch. */
    function RecipesOfBatches(batches: seq<seq<seq<Arg>>>): seq<Recipe>
      requires Valid()
    {
      if batches == [] then []
      else RecipesOfBatches(batches[..|batches| - 1]) + RecipesOf(batches[|batches| - 1])
    }

    /** One more argument list: the recipe it builds, if any, comes last. */
    lemma RecipesOfSnoc(argLists: seq<seq<Arg>>, k: nat)
      requires Valid() && k < |argLists|
      ensures RecipesOf(argLists[..k + 1]) == RecipesOf(argLists[..k]) + OptionToSeq(RecipeOf(argLists[k]))
    {
      assert argLists[..k + 1][..k] == argLists[..k];
    }

    lemma RecipesOfBatchesSnoc(batches: seq<seq<seq<Arg>>>, k: nat)
      requires Valid() && k < |batches|
      ensures RecipesOfBatches(batches[..k + 1]) == RecipesOfBatches(batches[..k]) + RecipesOf(batches[k])
    {
      assert batches[..k + 1][..k] == batches[..k];
    }

    /** When every argument list builds, each call registers exactly its own recipe. */
    lemma {:induction false} RecipesOfAllBuilt(argLists: seq<seq<Arg>>)
      requires Valid()
      requires forall k :: 0 <= k < |argLists| ==> RecipeOf(argLists[k]).Some?
      ensures |RecipesOf(argLists)| == |argLists|
      ensures forall k :: 0 <= k < |argLists| ==> RecipesOf(argLists)[k] == RecipeOf(argLists[k]).value
    {
      if argLists != [] {
        var n := |argLists| - 1;
        var init := argLists[..n];
        RecipesOfAllBuilt(init);
        var all := RecipesOf(argLists);
        assert all == RecipesOf(init) + [RecipeOf(argLists[n]).value];
        forall k | 0 <= k < |argLists|
          ensures all[k] == RecipeOf(argLists[k]).value
        {
          if k < n {
            assert init[k] == argLists[k];
          }
        }
      }
    }

    /** Registering lists one batch after another is registering their concatenation. */
    lemma {:induction false} RecipesOfAppend(a: seq<seq<Arg>>, b: seq<seq<Arg>>)
      requires Valid()
      ensures RecipesOf(a + b) == RecipesOf(a) + RecipesOf(b)
    {
      if b == [] {
        assert a + b == a;
      } else {
        var init, last := b[..|b| - 1], b[|b| - 1];
        assert (a + b)[..|a + b| - 1] == a + init;
        assert (a + b)[|a + b| - 1] == last;
        RecipesOfAppend(a, init);
        ConcatAssociative(RecipesOf(a), RecipesOf(init), OptionToSeq(RecipeOf(last)));
      }
    }

    /** Every recipe the handler builds carries the handler's own shapelessness. */
    lemma {:induction false} RecipesOfShapeless(argLists: seq<seq<Arg>>)
      requires Valid()
      ensures forall r :: r in RecipesOf(argLists) ==> r.shapeless == isShapeless
    {
      if argLists != [] {
        RecipesOfShapeless(argLists[..|argLists| - 1]);
      }
    }

    lemma {:induction false} RecipesOfBatchesShapeless(batches: seq<seq<seq<Arg>>>)
      requires Valid()
      ensures forall r :: r in RecipesOfBatches(batches) ==> r.shapeless == isShapeless
    {
      if batches != [] {
        RecipesOfBatchesShapeless(batches[..|batches| - 1]);
        RecipesOfShapeless(batches[|batches| - 1]);
      }
    }

    /**
     * addRecipe(Object...); a null recipe is not registered (the
     * registration itself, in AbstractRecipeHandler, is not part of this model
     * beyond appending to the list).
     */
    method AddRecipe(objects: seq<Arg>)
      requires Valid()
      modifies this`recipeList
      ensures recipeList == old(recipeList) + OptionToSeq(RecipeOf(objects))
    {
      var groups := SplitArguments(objects, sizes);
      var recipe := BuildRecipe(builders, fixedExtras, groups, isShapeless);
      if factorRecipes {
        recipe := FactorRecipe(recipe, hcf);
      }
      if recipe.Some? {
        recipeList := recipeList + [recipe.value];
      }
    }

    /** addToHashCache */
    method AddToHashCache(recipe: Recipe, items: seq<ItemStack>, fluids: seq<FluidStack>)
      modifies this`recipeCache
      ensures recipeCache == AddKeys(old(recipeCache), recipe, {hashMaterials(items, fluids)})
    {
      var hash := hashMaterials(items, fluids);
      AddKeysSingle(recipeCache, recipe, hash);
      if hash in recipeCache {
        recipeCache := recipeCache[hash := recipeCache[hash] + {recipe}];
      } else {
        assert Bucket(recipeCache, hash) + {recipe} == {recipe};
        recipeCache := recipeCache[hash := {recipe}];
      }
    }

    /** The body of fillHashCache for one material tuple. */
    method AddTupleToHashCache(recipe: Recipe, materials: MaterialTuple)
      modifies this`recipeCache
      ensures recipeCache == AddKeys(old(recipeCache), recipe, TupleKeys(hashMaterials, isShapeless, materials))
    {
      if isShapeless {
        var ips := Permutations(materials.0);
        var fps := Permutations(materials.1);
        ghost var c0 := recipeCache;
        assert ArrangementKeys(hashMaterials, ips, fps, 0) == {};
        AddKeysNone(c0, recipe);
        for x := 0 to |ips|
          invariant recipeCache == AddKeys(c0, recipe, ArrangementKeys(hashMaterials, ips, fps, x))
        {
          AddRowToHashCache(recipe, ips[x], fps);
          AddKeysUnion(c0, recipe, ArrangementKeys(hashMaterials, ips, fps, x), RowKeys(hashMaterials, ips[x], fps, |fps|));
          ArrangementKeysStep(hashMaterials, ips, fps, x);
        }
      } else {
        AddToHashCache(recipe, materials.0, materials.1);
      }
    }

    /** The innermost loop of fillHashCache: one item arrangement with every fluid arrangement. */
    method AddRowToHashCache(recipe: Recipe, items: seq<ItemStack>, fps: seq<seq<FluidStack>>)
      modifies this`recipeCache
      ensures recipeCache == AddKeys(old(recipeCache), recipe, RowKeys(hashMaterials, items, fps, |fps|))
    {
      ghost var c0 := recipeCache;
      assert RowKeys(hashMaterials, items, fps, 0) == {};
      AddKeysNone(c0, recipe);
      for y := 0 to |fps|
        invariant recipeCache == AddKeys(c0, recipe, RowKeys(hashMaterials, items, fps, y))
      {
        AddToHashCache(recipe, items, fps[y]);
        AddKeysUnion(c0, recipe, RowKeys(hashMaterials, items, fps, y), {hashMaterials(items, fps[y])});
        assert RowKeys(hashMaterials, items, fps, y + 1) == RowKeys(hashMaterials, items, fps, y) + {hashMaterials(items, fps[y])};
      }
    }

    /** The body of fillHashCache for one recipe. */
    method AddRecipeToHashCache(recipe: Recipe)
      modifies this`recipeCache
      ensures recipeCache == AddKeys(old(recipeCache), recipe, RecipeKeys(hashMaterials, prepareMaterialListTuples, isShapeless, recipe))
    {
      ghost var c0 := recipeCache;
      AddKeysNone(c0, recipe);
      var materialListTuples := prepareMaterialListTuples(recipe);
      if materialListTuples.None? {
        return;
      }
      var ts := materialListTuples.value;
      assert ts[..0] == [];
      for j := 0 to |ts|
        invariant recipeCache == AddKeys(c0, recipe, TuplesKeys(hashMaterials, isShapeless, ts[..j]))
      {
        assert ts[..j + 1][..j] == ts[..j];
        AddTupleToHashCache(recipe, ts[j]);
        AddKeysUnion(c0, recipe, TuplesKeys(hashMaterials, isShapeless, ts[..j]), TupleKeys(hashMaterials, isShapeless, ts[j]));
      }
      assert ts[..|ts|] == ts;
    }

    /** fillHashCache */
    method FillHashCache()
      modifies this`recipeCache
      ensures recipeCache == FilledCache(old(recipeCache), recipeList, hashMaterials, prepareMaterialListTuples, isShapeless)
    {
      ghost var c0 := recipeCache;
      for i := 0 to |recipeList|
        invariant recipeCache == FilledCache(c0, recipeList[..i], hashMaterials, prepareMaterialListTuples, isShapeless)
      {
        assert recipeList[..i + 1][..i] == recipeList[..i];
        AddRecipeToHashCache(recipeList[i]);
      }
      assert recipeList[..|recipeList|] == recipeList;
    }
  }

  lemma ConcatAssociative<T>(a: seq<T>, b: seq<T>, c: seq<T>)
    ensures a + b + c == a + (b + c)
  {
  }

  function OptionToSeq<T>(o: Option<T>): seq<T> {
    if o.Some? then [o.value] else []
  }

  // ---------------------------------------------------------------------
  // Input validity

  /** Some ingredient in the list matches the stack (the inner loop of the shapeless checks). */
  function AnyItemIngredientMatches(ings: seq<Ingredient<Item>>, stack: ItemStack): (b: bool)
    ensures b <==> exists j :: 0 <= j < |ings| && MatchesItem(ings[j], stack)
  {
    if ings == [] then false else MatchesItem(ings[0], stack) || AnyItemIngredientMatches(ings[1..], stack)
  }

  function AnyFluidIngredientMatches(ings: seq<Ingredient<Fluid>>, stack: FluidStack): (b: bool)
    ensures b <==> exists j :: 0 <= j < |ings| && MatchesFluid(ings[j], stack)
  {
    if ings == [] then false else MatchesFluid(ings[0], stack) || AnyFluidIngredientMatches(ings[1..], stack)
  }

  /** A shaped recipe list has an item ingredient at `slot` in every recipe. */
  predicate ItemSlotInRange(recipes: seq<Recipe>, shapeless: bool, slot: int) {
    !shapeless ==> forall i :: 0 <= i < |recipes| ==> 0 <= slot < |recipes[i].itemIngredients|
  }

  predicate TankInRange(recipes: seq<Recipe>, shapeless: bool, tank: int) {
    !shapeless ==> forall i :: 0 <= i < |recipes| ==> 0 <= tank < |recipes[i].fluidIngredients|
  }

  /** The recipe takes the stack: at `slot` when shaped, at any position when shapeless. */
  predicate RecipeTakesItem(r: Recipe, shapeless: bool, slot: int, stack: ItemStack)
    requires !shapeless ==> 0 <= slot < |r.itemIngredients|
  {
    if shapeless then AnyItemIngredientMatches(r.itemIngredients, stack)
    else MatchesItem(r.itemIngredients[slot], stack)
  }

  predicate RecipeTakesFluid(r: Recipe, shapeless: bool, tank: int, stack: FluidStack)
    requires !shapeless ==> 0 <= tank < |r.fluidIngredients|
  {
    if shapeless then AnyFluidIngredientMatches(r.fluidIngredients, stack)
    else MatchesFluid(r.fluidIngredients[tank], stack)
  }

  /** isValidItemInput(slot, stack): the scan over the recipe list. */
  function IsValidItemInput(recipes: seq<Recipe>, shapeless: bool, slot: int, stack: ItemStack): (b: bool)
    requires ItemSlotInRange(recipes, shapeless, slot)
    ensures b <==> exists i :: 0 <= i < |recipes| && RecipeTakesItem(recipes[i], shapeless, slot, stack)
  {
    if recipes == [] then false
    else RecipeTakesItem(recipes[0], shapeless, slot, stack) || IsValidItemInput(recipes[1..], shapeless, slot, stack)
  }

  /** isValidFluidInput(tankNumber, stack) */
  function IsValidFluidInput(recipes: seq<Recipe>, shapeless: bool, tank: int, stack: FluidStack): (b: bool)
    requires TankInRange(recipes, shapeless, tank)
    ensures b <==> exists i :: 0 <= i < |recipes| && RecipeTakesFluid(recipes[i], shapeless, tank, stack)
  {
    if recipes == [] then false
    else RecipeTakesFluid(recipes[0], shapeless, tank, stack) || IsValidFluidInput(recipes[1..], shapeless, tank, stack)
  }

  /** The lowest index of an ingredient matching the stack. */
  function FirstMatching(ings: seq<Ingredient<Item>>, stack: ItemStack): (r: Option<nat>)
    ensures r.None? <==> forall j :: 0 <= j < |ings| ==> !MatchesItem(ings[j], stack)
    ensures r.Some? ==> r.value < |ings| && MatchesItem(ings[r.value], stack) &&
                        forall j :: 0 <= j < r.value ==> !MatchesItem(ings[j], stack)
  {
    if ings == [] then None
    else if MatchesItem(ings[0], stack) then Some(0)
    else match FirstMatching(ings[1..], stack)
      case None => None
      case Some(k) => Some(k + 1)
  }

  /**
   * isValidItemInputInternal: a shaped recipe takes the stack if the
   * ingredient at `slot` matches it; a shapeless one if the first ingredient
   * it matches is not also matched by a non-empty stack in another slot.
   */
  predicate IsValidItemInputInternal(slot: int, stack: ItemStack, r: Recipe, shapeless: bool, otherInputs: seq<ItemStack>)
    requires !shapeless ==> 0 <= slot < |r.itemIngredients|
  {
    if shapeless then
      match FirstMatching(r.itemIngredients, stack)
      case None => false
      case Some(j) => !exists k :: 0 <= k < |otherInputs| && !otherInputs[k].IsEmpty() && MatchesItem(r.itemIngredients[j], otherInputs[k])
    else
      MatchesItem(r.itemIngredients[slot], stack)
  }

  /**
   * A recipe is still a candidate for the current inputs: shapeless, every
   * non-empty input matches one of its ingredients; shaped, every non-empty
   * input matches the ingredient of its own slot.
   */
  predicate ConsistentWithInputs(r: Recipe, shapeless: bool, itemInputSize: nat, allInputs: seq<ItemStack>)
    requires !shapeless ==> itemInputSize <= |allInputs| && itemInputSize <= |r.itemIngredients|
  {
    if shapeless then
      forall i :: 0 <= i < |allInputs| && !allInputs[i].IsEmpty() ==> AnyItemIngredientMatches(r.itemIngredients, allInputs[i])
    else
      forall i :: 0 <= i < itemInputSize && !allInputs[i].IsEmpty() ==> MatchesItem(r.itemIngredients[i], allInputs[i])
  }

  /** What the smart check needs of its arguments to stay in range. */
  predicate SmartCheckInRange(recipes: seq<Recipe>, shapeless: bool, itemInputSize: nat, slot: int,
                              info: Option<RecipeInfo>, allInputs: seq<ItemStack>) {
    && 0 <= slot < |allInputs|
    && (!shapeless ==>
          && slot < itemInputSize <= |allInputs|
          && (forall i :: 0 <= i < |recipes| ==> itemInputSize <= |recipes[i].itemIngredients|)
          && (info.Some? ==> slot < |info.value.recipe.itemIngredients|))
  }

  /**
   * isValidItemInput(slot, stack, recipeInfo, allInputs, otherInputs), the
   * "smart insertion" check: the plain check when no other input is
   * occupied or the slot already holds this item; otherwise the stack must
   * be usable by the current recipe (or, with none, by some recipe still
   * consistent with the inputs) without duplicating an ingredient another
   * slot already supplies.
   */
  function IsValidItemInputSmart(recipes: seq<Recipe>, shapeless: bool, itemInputSize: nat, slot: int, stack: ItemStack,
                                 info: Option<RecipeInfo>, allInputs: seq<ItemStack>, otherInputs: seq<ItemStack>): bool
    requires SmartCheckInRange(recipes, shapeless, itemInputSize, slot, info, allInputs)
  {
    var slotStack := allInputs[slot];
    if otherInputs == [] || IsItemEqual(stack, slotStack) then
      IsValidItemInput(recipes, shapeless, slot, stack)
    else if forall k :: 0 <= k < |otherInputs| ==> otherInputs[k].IsEmpty() then
      IsValidItemInput(recipes, shapeless, slot, stack)
    else if info.None? then
      exists i :: 0 <= i < |recipes| &&
        ConsistentWithInputs(recipes[i], shapeless, itemInputSize, allInputs) &&
        IsValidItemInputInternal(slot, stack, recipes[i], shapeless, otherInputs)
    else
      IsValidItemInputInternal(slot, stack, info.value.recipe, shapeless, otherInputs)
  }

  /** With no other input occupied, or the same item already in the slot, the smart check is the plain one. */
  lemma SmartCheckFallsBack(recipes: seq<Recipe>, shapeless: bool, itemInputSize: nat, slot: int, stack: ItemStack,
                            info: Option<RecipeInfo>, allInputs: seq<ItemStack>, otherInputs: seq<ItemStack>)
    requires SmartCheckInRange(recipes, shapeless, itemInputSize, slot, info, allInputs)
    requires (forall k :: 0 <= k < |otherInputs| ==> otherInputs[k].IsEmpty()) || IsItemEqual(stack, allInputs[slot])
    ensures IsValidItemInputSmart(recipes, shapeless, itemInputSize, slot, stack, info, allInputs, otherInputs) <==>
              exists i :: 0 <= i < |recipes| && RecipeTakesItem(recipes[i], shapeless, slot, stack)
  {
  }

  /**
   * Shapeless smart insertion refuses a stack whose first matching
   * ingredient is already supplied by a non-empty stack in another slot.
   */
  lemma ShapelessSmartCheckRejectsDuplicate(slot: int, stack: ItemStack, r: Recipe, otherInputs: seq<ItemStack>, j: nat, k: nat)
    requires j < |r.itemIngredients| && MatchesItem(r.itemIngredients[j], stack)
    requires forall j' :: 0 <= j' < j ==> !MatchesItem(r.itemIngredients[j'], stack)
    requires k < |otherInputs| && !otherInputs[k].IsEmpty() && MatchesItem(r.itemIngredients[j], otherInputs[k])
    ensures !IsValidItemInputInternal(slot, stack, r, true, otherInputs)
  {
    assert FirstMatching(r.itemIngredients, stack) == Some(j);
  }

  /** A shapeless recipe accepts a stack it has an ingredient for when no other non-empty input uses that ingredient. */
  lemma ShapelessSmartCheckAccepts(slot: int, stack: ItemStack, r: Recipe, otherInputs: seq<ItemStack>)
    requires AnyItemIngredientMatches(r.itemIngredients, stack)
    requires forall k, j :: 0 <= k < |otherInputs| && 0 <= j < |r.itemIngredients| && !otherInputs[k].IsEmpty() ==>
               !MatchesItem(r.itemIngredients[j], otherInputs[k])
    ensures IsValidItemInputInternal(slot, stack, r, true, otherInputs)
  {
  }
}
