/**
 * The tank logic shared by every fluid-handling tile (ITileFluid): which tank
 * a fill or a drain from a given face goes to, the duplicate-avoidance rule
 * for separated input tanks, clearing tanks, the six per-face connections and
 * the per-tank settings stored in NBT.
 *
 * A tank follows Forge's FluidTank: a fill of a non-positive amount or of a
 * fluid the tank does not accept takes nothing; an empty tank takes up to its
 * capacity; a tank holding another fluid takes nothing; otherwise the tank
 * takes what fits. A drain takes at most what the tank holds, nothing from an
 * empty tank or for a non-positive request, and leaves the tank empty when it
 * takes everything.
 */
module TileFluid {
  import opened Wrappers
  import opened Materials
  import opened EnumFacing
  import opened Nbt

  /** Whether a face lets fluid into a tank, out of it, both or neither. */
  datatype TankSorption = Non | In | Out | Both {
    predicate CanFill() {
      this == In || this == Both
    }

    predicate CanDrain() {
      this == Out || this == Both
    }
  }

  /** Which of the two toggle buttons of the sorption GUI was used. */
  datatype SorptionType = InputType | OutputType

  /** The sorption of each tank on one face. */
  datatype FluidConnection = FluidConnection(sorptions: seq<TankSorption>) {
    /** A face connects when some tank is open on it. */
    predicate CanConnect() {
      exists i :: 0 <= i < |sorptions| && sorptions[i] != Non
    }
  }

  /** The lowest index in [k, n) satisfying `p`, if any. */
  function FirstFrom(n: int, k: int, p: int -> bool): (r: Option<int>)
    decreases n - k
    ensures r.Some? ==> k <= r.value < n && p(r.value)
    ensures r.Some? ==> forall j :: k <= j < r.value ==> !p(j)
    ensures r.None? ==> forall j :: k <= j < n ==> !p(j)
  {
    if k >= n then None
    else if p(k) then Some(k)
    else FirstFrom(n, k + 1, p)
  }

  // Single-tank operations (Forge FluidTank)

  /** A tank is well formed when it holds a positive amount within its capacity, or nothing. */
  predicate TankOk(t: Tank) {
    0 <= t.capacity && (t.stored.Some? ==> 0 < t.stored.value.amount <= t.capacity)
  }

  function Min(a: int, b: int): int {
    if a <= b then a else b
  }

  /** FluidTank.fill(resource, doFill): how much the tank takes. */
  function TankFillAmount(t: Tank, resource: FluidStack): (r: int)
    ensures resource.amount <= 0 || !t.CanFillFluidType(resource) ==> r == 0
    ensures TankOk(t) && resource.amount > 0 ==> 0 <= r <= Min(resource.amount, t.capacity - t.FluidAmount())
    ensures (TankOk(t) && t.CanFillFluidType(resource) && resource.amount > 0 && t.FluidAmount() < t.capacity
             && (t.stored.None? || t.stored.value.fluid == resource.fluid)) ==> r > 0
  {
    if resource.amount <= 0 || !t.CanFillFluidType(resource) then 0
    else if t.stored.None? then Min(t.capacity, resource.amount)
    else if t.stored.value.fluid != resource.fluid then 0
    else Min(t.capacity - t.stored.value.amount, resource.amount)
  }

  /** The tank after FluidTank.fill(resource, true). */
  function TankAfterFill(t: Tank, resource: FluidStack): (t': Tank)
    ensures t'.capacity == t.capacity && t'.allowed == t.allowed
    ensures TankOk(t) ==> TankOk(t') || TankFillAmount(t, resource) == 0
    ensures t'.FluidAmount() == t.FluidAmount() + TankFillAmount(t, resource)
  {
    var amount := TankFillAmount(t, resource);
    if amount == 0 then t
    else if t.stored.None? then t.WithFluid(Some(FluidStack(resource.fluid, amount)))
    else t.WithFluid(Some(t.stored.value.(amount := t.stored.value.amount + amount)))
  }

  /** FluidTank.drain(maxDrain, doDrain): the stack drained, or null. */
  function TankDrainAmount(t: Tank, maxDrain: int): (r: Option<FluidStack>)
    ensures r.Some? <==> t.stored.Some? && maxDrain > 0
    ensures r.Some? ==> r.value.fluid == t.stored.value.fluid
    ensures r.Some? ==> r.value.amount == Min(maxDrain, t.FluidAmount())
  {
    if t.stored.None? || maxDrain <= 0 then None
    else Some(FluidStack(t.stored.value.fluid, Min(maxDrain, t.stored.value.amount)))
  }

  /** FluidTank.drain(resource, doDrain): null unless the tank holds that fluid. */
  function TankDrainResource(t: Tank, resource: FluidStack): (r: Option<FluidStack>)
    ensures r.Some? <==> IsFluidEqual(resource, t.stored) && resource.amount > 0
    ensures r.Some? ==> r.value.fluid == resource.fluid && r.value.amount == Min(resource.amount, t.FluidAmount())
  {
    if !IsFluidEqual(resource, t.stored) then None else TankDrainAmount(t, resource.amount)
  }

  /** The tank after a drain of up to `maxDrain`: emptied when nothing is left. */
  function TankAfterDrain(t: Tank, maxDrain: int): (t': Tank)
    ensures t'.capacity == t.capacity && t'.allowed == t.allowed
    ensures TankDrainAmount(t, maxDrain).None? ==> t' == t
    ensures TankDrainAmount(t, maxDrain).Some? ==>
              t'.FluidAmount() == t.FluidAmount() - TankDrainAmount(t, maxDrain).value.amount || t'.stored.None?
    ensures TankOk(t) ==> TankOk(t')
  {
    match TankDrainAmount(t, maxDrain)
    case None => t
    case Some(drained) =>
      var left := t.stored.value.amount - drained.amount;
      if left <= 0 then t.WithFluid(None)
      else t.WithFluid(Some(t.stored.value.(amount := left)))
  }

  /** A drain never takes more than the tank held, and what it leaves plus what it took is what it held. */
  lemma DrainConserves(t: Tank, maxDrain: int)
    requires TankOk(t)
    requires TankDrainAmount(t, maxDrain).Some?
    ensures TankDrainAmount(t, maxDrain).value.amount + TankAfterDrain(t, maxDrain).FluidAmount() == t.FluidAmount()
    ensures 0 < TankDrainAmount(t, maxDrain).value.amount <= t.FluidAmount()
  {
  }

  // Tank selection over a face's sorptions

  /** Another tank that can be filled from this face already holds the fluid. */
  predicate HoldsDuplicate(tanks: seq<Tank>, sorptions: seq<TankSorption>, n: int, resource: FluidStack)
    requires |sorptions| == |tanks|
  {
    exists i :: 0 <= i < |tanks| && i != n && sorptions[i].CanFill() && IsFluidEqual(resource, tanks[i].stored)
  }

  /** The ordering rule for separated input tanks (filters and sorption of tank n itself aside). */
  predicate NextToFill(separated: bool, tanks: seq<Tank>, sorptions: seq<TankSorption>, n: int, resource: FluidStack)
    requires |sorptions| == |tanks|
  {
    !separated || !HoldsDuplicate(tanks, sorptions, n, resource)
  }

  /** Everything ITileFluid.fill asks of tank i before filling it. */
  predicate FillEligible(separated: bool, tanks: seq<Tank>, sorptions: seq<TankSorption>, i: int, resource: FluidStack)
    requires |sorptions| == |tanks|
  {
    && 0 <= i < |tanks|
    && sorptions[i].CanFill()
    && tanks[i].CanFillFluidType(resource)
    && NextToFill(separated, tanks, sorptions, i, resource)
    && tanks[i].FluidAmount() < tanks[i].capacity
    && (tanks[i].stored.None? || IsFluidEqual(resource, tanks[i].stored))
  }

  /** The tank a fill goes to: the lowest eligible index. */
  function FillTarget(separated: bool, tanks: seq<Tank>, sorptions: seq<TankSorption>, resource: FluidStack): Option<int>
    requires |sorptions| == |tanks|
  {
    FirstFrom(|tanks|, 0, i => FillEligible(separated, tanks, sorptions, i, resource))
  }

  /** Everything ITileFluid.drain(resource) asks of tank i. */
  predicate DrainResourceEligible(tanks: seq<Tank>, sorptions: seq<TankSorption>, i: int, resource: FluidStack)
    requires |sorptions| == |tanks|
  {
    && 0 <= i < |tanks|
    && sorptions[i].CanDrain()
    && tanks[i].FluidAmount() > 0
    && IsFluidEqual(resource, tanks[i].stored)
    && TankDrainResource(tanks[i], resource).Some?
  }

  function DrainResourceTarget(tanks: seq<Tank>, sorptions: seq<TankSorption>, resource: FluidStack): Option<int>
    requires |sorptions| == |tanks|
  {
    FirstFrom(|tanks|, 0, i => DrainResourceEligible(tanks, sorptions, i, resource))
  }

  /** Everything ITileFluid.drain(maxDrain) asks of tank i. */
  predicate DrainAmountEligible(tanks: seq<Tank>, sorptions: seq<TankSorption>, i: int, maxDrain: int)
    requires |sorptions| == |tanks|
  {
    && 0 <= i < |tanks|
    && sorptions[i].CanDrain()
    && tanks[i].FluidAmount() > 0
    && TankDrainAmount(tanks[i], maxDrain).Some?
  }

  function DrainAmountTarget(tanks: seq<Tank>, sorptions: seq<TankSorption>, maxDrain: int): Option<int>
    requires |sorptions| == |tanks|
  {
    FirstFrom(|tanks|, 0, i => DrainAmountEligible(tanks, sorptions, i, maxDrain))
  }

  /**
   * The fill target is the lowest tank that is open for filling on that face,
   * accepts the fluid, is not full, is empty or holds the same fluid and
   * passes the ordering rule; a fill with no such tank goes nowhere.
   */
  lemma FillTargetIsFirstEligible(separated: bool, tanks: seq<Tank>, sorptions: seq<TankSorption>, resource: FluidStack)
    requires |sorptions| == |tanks|
    ensures var t := FillTarget(separated, tanks, sorptions, resource);
      && (t.Some? ==> t.value < |tanks| && sorptions[t.value].CanFill()
                      && tanks[t.value].CanFillFluidType(resource)
                      && tanks[t.value].FluidAmount() < tanks[t.value].capacity
                      && NextToFill(separated, tanks, sorptions, t.value, resource)
                      && (tanks[t.value].stored.None? || tanks[t.value].stored.value.fluid == resource.fluid))
      && (t.Some? ==> forall j :: 0 <= j < t.value ==> !FillEligible(separated, tanks, sorptions, j, resource))
      && (t.None? <==> forall j :: 0 <= j < |tanks| ==> !FillEligible(separated, tanks, sorptions, j, resource))
  {
    var p := i => FillEligible(separated, tanks, sorptions, i, resource);
    var t := FirstFrom(|tanks|, 0, p);
    forall j | 0 <= j < |tanks| && (t.None? || j < t.value)
      ensures !FillEligible(separated, tanks, sorptions, j, resource)
    {
      assert !p(j);
    }
    if t.Some? {
      assert p(t.value);
    }
  }

  /**
   * A drain of a given fluid goes to the lowest tank open for draining on
   * that face that holds a positive amount of that fluid; none qualifies
   * when the requested amount is not positive.
   */
  lemma DrainResourceTargetIsFirstEligible(tanks: seq<Tank>, sorptions: seq<TankSorption>, resource: FluidStack)
    requires |sorptions| == |tanks|
    ensures var t := DrainResourceTarget(tanks, sorptions, resource);
      && (t.Some? ==> t.value < |tanks| && sorptions[t.value].CanDrain() && tanks[t.value].FluidAmount() > 0
                      && tanks[t.value].stored.value.fluid == resource.fluid && resource.amount > 0)
      && (t.Some? ==> forall j :: 0 <= j < t.value ==>
            !(sorptions[j].CanDrain() && tanks[j].FluidAmount() > 0 && IsFluidEqual(resource, tanks[j].stored) && resource.amount > 0))
      && (resource.amount <= 0 ==> t.None?)
  {
    var p := i => DrainResourceEligible(tanks, sorptions, i, resource);
    var t := FirstFrom(|tanks|, 0, p);
    if t.Some? {
      assert p(t.value);
      forall j | 0 <= j < t.value
        ensures !(sorptions[j].CanDrain() && tanks[j].FluidAmount() > 0 && IsFluidEqual(resource, tanks[j].stored) && resource.amount > 0)
      {
        assert !p(j);
      }
    } else if resource.amount <= 0 {
    } else {
    }
  }

  /**
   * A drain of an amount goes to the lowest tank open for draining on that
   * face that holds a positive amount; none qualifies for a non-positive
   * request.
   */
  lemma DrainAmountTargetIsFirstEligible(tanks: seq<Tank>, sorptions: seq<TankSorption>, maxDrain: int)
    requires |sorptions| == |tanks|
    ensures var t := DrainAmountTarget(tanks, sorptions, maxDrain);
      && (t.Some? ==> t.value < |tanks| && sorptions[t.value].CanDrain() && tanks[t.value].FluidAmount() > 0 && maxDrain > 0)
      && (t.Some? ==> forall j :: 0 <= j < t.value ==> !(sorptions[j].CanDrain() && tanks[j].FluidAmount() > 0 && maxDrain > 0))
      && (maxDrain > 0 && (exists j :: 0 <= j < |tanks| && sorptions[j].CanDrain() && tanks[j].FluidAmount() > 0) ==> t.Some?)
  {
    var p := i => DrainAmountEligible(tanks, sorptions, i, maxDrain);
    var t := FirstFrom(|tanks|, 0, p);
    if t.Some? {
      assert p(t.value);
      forall j | 0 <= j < t.value
        ensures !(sorptions[j].CanDrain() && tanks[j].FluidAmount() > 0 && maxDrain > 0)
      {
        assert !p(j);
      }
    }
    if maxDrain > 0 && (exists j :: 0 <= j < |tanks| && sorptions[j].CanDrain() && tanks[j].FluidAmount() > 0) {
      var j :| 0 <= j < |tanks| && sorptions[j].CanDrain() && tanks[j].FluidAmount() > 0;
      assert p(j);
    }
  }

  // Reactions to wrapper transfers

  /** What a tile does after a fluid transfer through one of its face wrappers. */
  datatype Reaction = RefreshRecipe | RefreshActivity | RefreshTargets

  /**
   * onWrapperFill: a processor re-matches its recipe and then re-checks its
   * activity; a port flags its targets for refresh.
   */
  function OnWrapperFill(isProcessor: bool, isPort: bool, fillAmount: int, doFill: bool): (r: seq<Reaction>)
    ensures !doFill || fillAmount == 0 ==> r == []
    ensures doFill && fillAmount != 0 && isProcessor ==> |r| >= 2 && r[..2] == [RefreshRecipe, RefreshActivity]
    ensures RefreshRecipe in r <==> doFill && fillAmount != 0 && isProcessor
    ensures RefreshActivity in r <==> doFill && fillAmount != 0 && isProcessor
    ensures RefreshTargets in r <==> doFill && fillAmount != 0 && isPort
  {
    if doFill && fillAmount != 0 then
      (if isProcessor then [RefreshRecipe, RefreshActivity] else [])
      + (if isPort then [RefreshTargets] else [])
    else []
  }

  /** onWrapperDrain: a drain never re-matches the recipe, only re-checks activity. */
  function OnWrapperDrain(isProcessor: bool, isPort: bool, drained: Option<FluidStack>, doDrain: bool): (r: seq<Reaction>)
    ensures RefreshRecipe !in r
    ensures RefreshActivity in r <==> doDrain && drained.Some? && drained.value.amount != 0 && isProcessor
    ensures RefreshTargets in r <==> doDrain && drained.Some? && drained.value.amount != 0 && isPort
  {
    if doDrain && drained.Some? && drained.value.amount != 0 then
      (if isProcessor then [RefreshActivity] else [])
      + (if isPort then [RefreshTargets] else [])
    else []
  }

  // Tank settings in NBT

  /** The tank-setting keys written for tanks [0, n), after the separation flag. */
  function WrittenTanks(nbt: Compound, voids: seq<bool>, settings: seq<OutputSetting>, n: nat): Compound
    requires n <= |voids| == |settings|
  {
    if n == 0 then nbt
    else
      var c := WrittenTanks(nbt, voids, settings, n - 1);
      SetInteger(SetBoolean(c, VoidUnusableFluidInput(n - 1), voids[n - 1]), TankOutputSetting(n - 1), OutputSettingOrdinal(settings[n - 1]))
  }

  /** writeTankSettings */
  function WrittenTankSettings(nbt: Compound, separated: bool, voids: seq<bool>, settings: seq<OutputSetting>): Compound
    requires |voids| == |settings|
  {
    WrittenTanks(SetBoolean(nbt, InputTanksSeparated, separated), voids, settings, |voids|)
  }

  /** The ordinal readTankSettings uses for tank i: the legacy boolean key wins when present. */
  function SettingOrdinal(nbt: Compound, i: int): (r: int)
    ensures VoidExcessFluidOutput(i) in nbt ==> (r == 1 <==> GetBoolean(nbt, VoidExcessFluidOutput(i))) && 0 <= r <= 1
    ensures VoidExcessFluidOutput(i) !in nbt ==> r == GetInteger(nbt, TankOutputSetting(i))
  {
    if VoidExcessFluidOutput(i) in nbt then (if GetBoolean(nbt, VoidExcessFluidOutput(i)) then 1 else 0)
    else GetInteger(nbt, TankOutputSetting(i))
  }

  /** Tank i's stored ordinal names no output setting: reading it throws. */
  function BadOrdinal(nbt: Compound): int -> bool {
    i => OutputSettingOf(SettingOrdinal(nbt, i)).None?
  }

  /** The void-unusable flags after reading tanks [0, upto) of `nbt`. */
  function ReadVoids(nbt: Compound, prev: seq<bool>, upto: nat): (r: seq<bool>)
    ensures |r| == |prev|
  {
    seq(|prev|, i requires 0 <= i < |prev| =>
      if i < upto then GetBoolean(nbt, VoidUnusableFluidInput(i)) else prev[i])
  }

  /** The output settings after reading tanks [0, upto) of `nbt`. */
  function ReadSettings(nbt: Compound, prev: seq<OutputSetting>, upto: nat): (r: seq<OutputSetting>)
    ensures |r| == |prev|
  {
    seq(|prev|, i requires 0 <= i < |prev| =>
      if i < upto then OutputSettingOf(SettingOrdinal(nbt, i)).GetOr(prev[i]) else prev[i])
  }

  /** The tank keys written for tanks [0, n) hold exactly the flags and setting ordinals. */
  lemma {:induction false} WrittenTanksHolds(nbt: Compound, voids: seq<bool>, settings: seq<OutputSetting>, n: nat)
    requires n <= |voids| == |settings|
    ensures var c := WrittenTanks(nbt, voids, settings, n);
      && (forall i :: 0 <= i < n ==>
            VoidUnusableFluidInput(i) in c && c[VoidUnusableFluidInput(i)] == ByteTag(if voids[i] then 1 else 0))
      && (forall i :: 0 <= i < n ==>
            TankOutputSetting(i) in c && c[TankOutputSetting(i)] == IntTag(OutputSettingOrdinal(settings[i])))
  {
    if n > 0 {
      WrittenTanksHolds(nbt, voids, settings, n - 1);
    }
  }

  /** Writing the tank keys adds only tank keys and leaves every other key as it was. */
  lemma {:induction false} WrittenTanksFrame(nbt: Compound, voids: seq<bool>, settings: seq<OutputSetting>, n: nat)
    requires n <= |voids| == |settings|
    ensures var c := WrittenTanks(nbt, voids, settings, n);
      && (forall k :: k in nbt && !k.VoidUnusableFluidInput? && !k.TankOutputSetting? ==> k in c && c[k] == nbt[k])
      && (forall k :: k in c && !k.VoidUnusableFluidInput? && !k.TankOutputSetting? ==> k in nbt)
  {
    if n > 0 {
      WrittenTanksFrame(nbt, voids, settings, n - 1);
    }
  }

  /**
   * After writeTankSettings the separation flag and every tank's flag read
   * back as written, and, with no legacy key present, every tank's ordinal
   * is the one written.
   */
  lemma WrittenTankSettingsHold(nbt: Compound, separated: bool, voids: seq<bool>, settings: seq<OutputSetting>)
    requires |voids| == |settings|
    requires forall i :: 0 <= i < |voids| ==> VoidExcessFluidOutput(i) !in nbt
    ensures var c := WrittenTankSettings(nbt, separated, voids, settings);
      && GetBoolean(c, InputTanksSeparated) == separated
      && (forall i :: 0 <= i < |voids| ==> GetBoolean(c, VoidUnusableFluidInput(i)) == voids[i])
      && (forall i :: 0 <= i < |voids| ==> SettingOrdinal(c, i) == OutputSettingOrdinal(settings[i]))
  {
    var base := SetBoolean(nbt, InputTanksSeparated, separated);
    WrittenTanksHolds(base, voids, settings, |voids|);
    WrittenTanksFrame(base, voids, settings, |voids|);
    assert InputTanksSeparated in base && base[InputTanksSeparated] == ByteTag(if separated then 1 else 0);
    assert forall i :: 0 <= i < |voids| ==> VoidExcessFluidOutput(i) !in base;
  }

  /**
   * Writing the tank settings and reading them back gives the same settings,
   * whatever the tile held before, provided the compound carries no legacy
   * key for those tanks.
   */
  lemma TankSettingsRoundTrip(nbt: Compound, separated: bool, voids: seq<bool>, settings: seq<OutputSetting>,
                              prevVoids: seq<bool>, prevSettings: seq<OutputSetting>)
    requires |voids| == |settings| == |prevVoids| == |prevSettings|
    requires forall i :: 0 <= i < |voids| ==> VoidExcessFluidOutput(i) !in nbt
    ensures var c := WrittenTankSettings(nbt, separated, voids, settings);
      && GetBoolean(c, InputTanksSeparated) == separated
      && FirstFrom(|voids|, 0, BadOrdinal(c)).None?
      && ReadVoids(c, prevVoids, |voids|) == voids
      && ReadSettings(c, prevSettings, |voids|) == settings
  {
    var c := WrittenTankSettings(nbt, separated, voids, settings);
    WrittenTankSettingsHold(nbt, separated, voids, settings);
    var bad := BadOrdinal(c);
    forall i | 0 <= i < |voids|
      ensures OutputSettingOf(SettingOrdinal(c, i)) == Some(settings[i])
      ensures !bad(i)
    {
      OutputSettingOrdinalRoundTrip(settings[i]);
    }
    assert ReadVoids(c, prevVoids, |voids|) == voids;
    assert ReadSettings(c, prevSettings, |voids|) == settings;
  }

  /** A legacy boolean key always decodes to a valid setting: VOID_EXCESS when set, DEFAULT otherwise. */
  lemma LegacySettingWins(nbt: Compound, i: int)
    requires VoidExcessFluidOutput(i) in nbt
    ensures OutputSettingOf(SettingOrdinal(nbt, i))
            == Some(if GetBoolean(nbt, VoidExcessFluidOutput(i)) then VoidExcess else Default)
  {
  }

  /** ITileFluid.fluidConnectionAll: six faces, each with its own copy of the sorption list. */
  method FluidConnectionAll(sorptionList: seq<TankSorption>) returns (r: seq<FluidConnection>)
    ensures |r| == 6
    ensures forall f :: 0 <= f < 6 ==> r[f] == FluidConnection(sorptionList)
  {
    r := [];
    var i := 0;
    while i < 6
      invariant 0 <= i <= 6 && |r| == i
      invariant forall f :: 0 <= f < i ==> r[f] == FluidConnection(sorptionList)
    {
      r := r + [FluidConnection(sorptionList)];
      i := i + 1;
    }
  }

  /** The single-sorption overload: every face carries the one-tank list [sorption]. */
  method FluidConnectionAllOf(sorption: TankSorption) returns (r: seq<FluidConnection>)
    ensures |r| == 6
    ensures forall f :: 0 <= f < 6 ==> r[f].sorptions == [sorption]
  {
    r := FluidConnectionAll([sorption]);
  }

  /**
   * The fluid side of a tile: its tanks, its six face connections and its
   * per-tank settings. Whether connections are configurable and how a GUI
   * toggle steps a sorption (FluidConnection.toggleTankSorption) are fixed
   * per tile kind.
   */
  class FluidTile {
    var tanks: seq<Tank>
    var connections: seq<FluidConnection>
    var inputTanksSeparated: bool
    var voidUnusableFluidInput: seq<bool>
    var tankOutputSettings: seq<OutputSetting>
    const configurable: bool
    const toggle: (TankSorption, SorptionType, bool) -> TankSorption

    /** Six faces, one sorption and one pair of settings per tank. */
    ghost predicate Valid()
      reads this
    {
      && |connections| == 6
      && (forall f :: 0 <= f < 6 ==> |connections[f].sorptions| == |tanks|)
      && |voidUnusableFluidInput| == |tanks|
      && |tankOutputSettings| == |tanks|
    }

    constructor (tanks: seq<Tank>, connections: seq<FluidConnection>, configurable: bool,
                 toggle: (TankSorption, SorptionType, bool) -> TankSorption)
      requires |connections| == 6
      requires forall f :: 0 <= f < 6 ==> |connections[f].sorptions| == |tanks|
      ensures Valid()
      ensures this.tanks == tanks && this.connections == connections
      ensures this.configurable == configurable && this.toggle == toggle
      ensures !inputTanksSeparated
      ensures voidUnusableFluidInput == seq(|tanks|, _ => false)
      ensures tankOutputSettings == seq(|tanks|, _ => Default)
    {
      this.tanks := tanks;
      this.connections := connections;
      this.configurable := configurable;
      this.toggle := toggle;
      inputTanksSeparated := false;
      voidUnusableFluidInput := seq(|tanks|, _ => false);
      tankOutputSettings := seq(|tanks|, _ => Default);
    }

    /** getTankSorption(side, i) for every tank i. */
    function SideSorptions(side: Facing): (s: seq<TankSorption>)
      requires Valid()
      reads this
      ensures |s| == |tanks|
    {
      connections[FacingIndex(side)].sorptions
    }

    /** isNextToFill: a scan for another fill-able tank already holding the fluid. */
    method IsNextToFill(side: Facing, tankNumber: int, resource: FluidStack) returns (r: bool)
      requires Valid()
      ensures r == NextToFill(inputTanksSeparated, tanks, SideSorptions(side), tankNumber, resource)
      ensures !inputTanksSeparated ==> r
    {
      if !inputTanksSeparated {
        return true;
      }
      var sorptions := SideSorptions(side);
      var i := 0;
      while i < |tanks|
        invariant 0 <= i <= |tanks|
        invariant forall j :: 0 <= j < i && j != tankNumber && sorptions[j].CanFill() ==> !IsFluidEqual(resource, tanks[j].stored)
      {
        if i != tankNumber && sorptions[i].CanFill() {
          if tanks[i].stored.Some? && IsFluidEqual(resource, tanks[i].stored) {
            return false;
          }
        }
        i := i + 1;
      }
      return true;
    }

    /** clearTank: only tank n is emptied. */
    method ClearTank(n: int)
      requires 0 <= n < |tanks|
      modifies this`tanks
      ensures tanks == old(tanks)[n := Cleared(old(tanks)[n])]
    {
      tanks := tanks[n := Cleared(tanks[n])];
    }

    /** clearAllTanks: every tank emptied, capacities and filters kept. */
    method ClearAllTanks()
      modifies this`tanks
      ensures |tanks| == |old(tanks)|
      ensures forall i :: 0 <= i < |tanks| ==> tanks[i] == Cleared(old(tanks)[i])
      ensures forall i :: 0 <= i < |tanks| ==> tanks[i].IsEmpty()
    {
      var i := 0;
      while i < |tanks|
        invariant 0 <= i <= |tanks| == |old(tanks)|
        invariant forall j :: 0 <= j < i ==> tanks[j] == Cleared(old(tanks)[j])
        invariant forall j :: i <= j < |tanks| ==> tanks[j] == old(tanks)[j]
      {
        tanks := tanks[i := Cleared(tanks[i])];
        i := i + 1;
      }
    }

    /** toggleTankSorption: steps one sorption of one face, or does nothing on a fixed tile. */
    method ToggleTankSorption(side: Facing, tankNumber: int, kind: SorptionType, reverse: bool)
      requires Valid() && 0 <= tankNumber < |tanks|
      modifies this`connections
      ensures Valid()
      ensures !configurable ==> connections == old(connections)
      ensures configurable ==>
        var f := FacingIndex(side);
        var s := old(connections)[f].sorptions;
        connections == old(connections)[f := FluidConnection(s[tankNumber := toggle(s[tankNumber], kind, reverse)])]
    {
      if !configurable {
        return;
      }
      var f := FacingIndex(side);
      var s := connections[f].sorptions;
      connections := connections[f := FluidConnection(s[tankNumber := toggle(s[tankNumber], kind, reverse)])];
    }

    /** fill: the first eligible tank takes what it can; no eligible tank takes nothing. */
    method Fill(side: Facing, resource: FluidStack, doFill: bool) returns (filled: int)
      requires Valid()
      modifies this`tanks
      ensures Valid()
      ensures var t := FillTarget(inputTanksSeparated, old(tanks), SideSorptions(side), resource);
        && filled == (if t.None? then 0 else TankFillAmount(old(tanks)[t.value], resource))
        && tanks == (if t.Some? && doFill then old(tanks)[t.value := TankAfterFill(old(tanks)[t.value], resource)] else old(tanks))
    {
      var sorptions := SideSorptions(side);
      ghost var sep, ts := inputTanksSeparated, tanks;
      ghost var p := i => FillEligible(sep, ts, sorptions, i, resource);
      var i := 0;
      while i < |tanks|
        invariant 0 <= i <= |tanks|
        invariant tanks == old(tanks)
        invariant forall j :: 0 <= j < i ==> !p(j)
      {
        if sorptions[i].CanFill() {
          var tank := tanks[i];
          var next := IsNextToFill(side, i, resource);
          if tank.CanFillFluidType(resource) && next && tank.FluidAmount() < tank.capacity {
            if tank.stored.None? || IsFluidEqual(resource, tank.stored) {
              assert p(i);
              filled := TankFillAmount(tank, resource);
              if doFill {
                tanks := tanks[i := TankAfterFill(tank, resource)];
              }
              return;
            }
          }
        }
        i := i + 1;
      }
      filled := 0;
    }

    /** drain(resource): the first eligible tank gives up to the requested amount of that fluid. */
    method DrainResource(side: Facing, resource: FluidStack, doDrain: bool) returns (drained: Option<FluidStack>)
      requires Valid()
      modifies this`tanks
      ensures Valid()
      ensures var t := DrainResourceTarget(old(tanks), SideSorptions(side), resource);
        && drained == (if t.None? then None else TankDrainResource(old(tanks)[t.value], resource))
        && tanks == (if t.Some? && doDrain then old(tanks)[t.value := TankAfterDrain(old(tanks)[t.value], resource.amount)] else old(tanks))
    {
      var sorptions := SideSorptions(side);
      ghost var ts := tanks;
      ghost var p := i => DrainResourceEligible(ts, sorptions, i, resource);
      var i := 0;
      while i < |tanks|
        invariant 0 <= i <= |tanks|
        invariant tanks == old(tanks)
        invariant forall j :: 0 <= j < i ==> !p(j)
      {
        if sorptions[i].CanDrain() {
          var tank := tanks[i];
          if tank.FluidAmount() > 0 && IsFluidEqual(resource, tank.stored) && TankDrainResource(tank, resource).Some? {
            assert p(i);
            drained := TankDrainResource(tank, resource);
            if doDrain {
              tanks := tanks[i := TankAfterDrain(tank, resource.amount)];
            }
            return;
          }
        }
        i := i + 1;
      }
      drained := None;
    }

    /** drain(maxDrain): the first eligible tank gives up to `maxDrain` of whatever it holds. */
    method DrainAmount(side: Facing, maxDrain: int, doDrain: bool) returns (drained: Option<FluidStack>)
      requires Valid()
      modifies this`tanks
      ensures Valid()
      ensures var t := DrainAmountTarget(old(tanks), SideSorptions(side), maxDrain);
        && drained == (if t.None? then None else TankDrainAmount(old(tanks)[t.value], maxDrain))
        && tanks == (if t.Some? && doDrain then old(tanks)[t.value := TankAfterDrain(old(tanks)[t.value], maxDrain)] else old(tanks))
    {
      var sorptions := SideSorptions(side);
      ghost var ts := tanks;
      ghost var p := i => DrainAmountEligible(ts, sorptions, i, maxDrain);
      var i := 0;
      while i < |tanks|
        invariant 0 <= i <= |tanks|
        invariant tanks == old(tanks)
        invariant forall j :: 0 <= j < i ==> !p(j)
      {
        if sorptions[i].CanDrain() {
          var tank := tanks[i];
          if tank.FluidAmount() > 0 && TankDrainAmount(tank, maxDrain).Some? {
            assert p(i);
            drained := TankDrainAmount(tank, maxDrain);
            if doDrain {
              tanks := tanks[i := TankAfterDrain(tank, maxDrain)];
            }
            return;
          }
        }
        i := i + 1;
      }
      drained := None;
    }

    /** hasFluidSideCapability: always for the internal (null) side, else when the face connects. */
    function HasFluidSideCapability(side: Option<Facing>): (r: bool)
      requires Valid()
      reads this
      ensures side.None? ==> r
      ensures side.Some? ==> (r <==> exists i :: 0 <= i < |tanks| && SideSorptions(side.value)[i] != Non)
    {
      if side.None? then true
      else
        var s := SideSorptions(side.value);
        assert |s| == |tanks|;
        connections[FacingIndex(side.value)].CanConnect()
    }

    /** writeTankSettings: the separation flag, then each tank's flag and setting ordinal. */
    method WriteTankSettings(nbt: Compound) returns (r: Compound)
      requires Valid()
      ensures r == WrittenTankSettings(nbt, inputTanksSeparated, voidUnusableFluidInput, tankOutputSettings)
    {
      var voids, settings := voidUnusableFluidInput, tankOutputSettings;
      var base := SetBoolean(nbt, InputTanksSeparated, inputTanksSeparated);
      r := base;
      var i := 0;
      while i < |tanks|
        invariant 0 <= i <= |voids| == |settings| == |tanks|
        invariant r == WrittenTanks(base, voids, settings, i)
      {
        r := SetBoolean(r, VoidUnusableFluidInput(i), voids[i]);
        r := SetInteger(r, TankOutputSetting(i), OutputSettingOrdinal(settings[i]));
        i := i + 1;
      }
    }

    /**
     * readTankSettings: tank by tank, the void flag and then the output
     * setting. An ordinal that names no setting makes the source throw: the
     * flags up to and including that tank and the settings before it are
     * already replaced, `ok` is false and nothing further is read.
     */
    method ReadTankSettings(nbt: Compound) returns (ok: bool)
      requires Valid()
      modifies this`inputTanksSeparated, this`voidUnusableFluidInput, this`tankOutputSettings
      ensures Valid()
      ensures inputTanksSeparated == GetBoolean(nbt, InputTanksSeparated)
      ensures var bad := FirstFrom(|tanks|, 0, BadOrdinal(nbt));
        && ok == bad.None?
        && voidUnusableFluidInput == ReadVoids(nbt, old(voidUnusableFluidInput), if ok then |tanks| else bad.value + 1)
        && tankOutputSettings == ReadSettings(nbt, old(tankOutputSettings), if ok then |tanks| else bad.value)
    {
      inputTanksSeparated := GetBoolean(nbt, InputTanksSeparated);
      ghost var p := BadOrdinal(nbt);
      var i := 0;
      while i < |tanks|
        invariant 0 <= i <= |tanks|
        invariant |voidUnusableFluidInput| == |tankOutputSettings| == |tanks|
        invariant inputTanksSeparated == GetBoolean(nbt, InputTanksSeparated)
        invariant forall j :: 0 <= j < i ==> !p(j)
        invariant voidUnusableFluidInput == ReadVoids(nbt, old(voidUnusableFluidInput), i)
        invariant tankOutputSettings == ReadSettings(nbt, old(tankOutputSettings), i)
      {
        voidUnusableFluidInput := voidUnusableFluidInput[i := GetBoolean(nbt, VoidUnusableFluidInput(i))];
        var ordinal := SettingOrdinal(nbt, i);
        var setting := OutputSettingOf(ordinal);
        if setting.None? {
          assert p(i);
          assert voidUnusableFluidInput == ReadVoids(nbt, old(voidUnusableFluidInput), i + 1);
          return false;
        }
        tankOutputSettings := tankOutputSettings[i := setting.value];
        i := i + 1;
      }
      return true;
    }
  }
}
