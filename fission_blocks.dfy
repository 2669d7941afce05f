/**
 * Block-state <-> metadata packing of the salt fission controller
 * (nc/block/fission/BlockSaltFissionController.java).
 *
 * The state has a facing (all six directions) and an "active" flag; the
 * metadata is a 4-bit value whose low three bits hold the facing index and
 * whose bit of weight 8 holds the active flag.
 */
module SaltFissionController {
  import opened EnumFacing


  datatype ControllerState = ControllerState(facing: Facing, active: bool)

  /** The block's default state: facing north, inactive. */
  function DefaultState(): ControllerState
  {
    ControllerState(North, false)
  }

  /**
   * getStateForPlacement: the facing comes from the placer (a parameter
   * here); the placed block is never active.
   */
  function StateForPlacement(placerFacing: Facing): ControllerState
  {
    DefaultState().(facing := placerFacing).(active := false)
  }

  /** getStateFromMeta: facing from `meta & 7`, active from `(meta & 8) > 0`. */
  function StateFromMeta(meta: bv32): (s: ControllerState)
    ensures s.active <==> meta & 8 != 0
    ensures (meta & 7) as int < 6 ==> FacingIndex(s.facing) == (meta & 7) as int
  {
    DefaultState().(facing := FacingByIndex((meta & 7) as int)).(active := meta & 8 != 0)
  }

  /** getMetaFromState: the facing index, with bit 8 set when active. */
  function MetaFromState(s: ControllerState): (meta: bv32)
    ensures meta < 16
    ensures (meta & 7) as int == FacingIndex(s.facing)
    ensures (meta & 8 != 0) <==> s.active
  {
    var i := FacingIndex(s.facing) as bv32;
    if s.active then i | 8 else i
  }

  /** Packing a state and unpacking it gives the same state back. */
  lemma StateMetaRoundTrip(s: ControllerState)
    ensures StateFromMeta(MetaFromState(s)) == s
  {
  }

  /**
   * Every metadata value a state packs to is distinct: the twelve states use
   * twelve different values.
   */
  lemma MetaFromStateInjective(s: ControllerState, t: ControllerState)
    requires MetaFromState(s) == MetaFromState(t)
    ensures s == t
  {
    StateMetaRoundTrip(s);
    StateMetaRoundTrip(t);
  }

  /**
   * A placed controller is stored inactive: its metadata is just the
   * placer's facing index, and it reads back as that facing, inactive.
   */
  lemma PlacementStoredInactive(f: Facing)
    ensures MetaFromState(StateForPlacement(f)) == FacingIndex(f) as bv32
    ensures MetaFromState(StateForPlacement(f)) & 8 == 0
    ensures StateFromMeta(MetaFromState(StateForPlacement(f))) == ControllerState(f, false)
  {
    StateMetaRoundTrip(StateForPlacement(f));
  }
}

/**
 * Block-state <-> metadata packing of fission ports
 * (nc/block/fission/port/BlockFissionPort.java).
 *
 * The state has an axis and an "active" flag; the metadata holds the axis
 * ordinal in its low two bits and the active flag in the bit of weight 4.
 */
module FissionPort {
  import opened Wrappers

  /** Minecraft's EnumFacing.Axis, in ordinal order. */
  datatype Axis = X | Y | Z

  function AxisOrdinal(a: Axis): (i: nat)
    ensures i < 3
  {
    match a
    case X => 0
    case Y => 1
    case Z => 2
  }

  /** PosHelper.AXES, taken to list the axes in ordinal order. */
  const Axes: seq<Axis> := [X, Y, Z]

  datatype PortState = PortState(axis: Axis, active: bool)

  /** The block's default state: axis Z, inactive. */
  function DefaultState(): PortState
  {
    PortState(Z, false)
  }

  /**
   * getStateForPlacement: the axis of the placer's facing (a parameter
   * here); the active flag is kept from the default state.
   */
  function StateForPlacement(placerAxis: Axis): (s: PortState)
    ensures s.axis == placerAxis && !s.active
  {
    DefaultState().(axis := placerAxis)
  }

  /**
   * getStateFromMeta: the axis is `AXES[meta & 3]` and active is
   * `(meta & 4) > 0`. `meta & 3 == 3` indexes past the three axes, which in
   * the source is an out-of-bounds exception; here it is `None`.
   */
  function StateFromMeta(meta: bv32): (r: Option<PortState>)
    ensures r.Some? <==> meta & 3 != 3
    ensures r.Some? ==> AxisOrdinal(r.value.axis) == (meta & 3) as int
    ensures r.Some? ==> (r.value.active <==> meta & 4 != 0)
  {
    var k := (meta & 3) as int;
    if k < |Axes| then Some(DefaultState().(axis := Axes[k]).(active := meta & 4 != 0))
    else None
  }

  /** getMetaFromState: the axis ordinal, OR'd with 4 when active. */
  function MetaFromState(s: PortState): (meta: bv32)
    ensures meta < 8
    ensures (meta & 3) as int == AxisOrdinal(s.axis)
    ensures (meta & 4 != 0) <==> s.active
  {
    var i := AxisOrdinal(s.axis) as bv32;
    if s.active then i | 4 else i
  }

  /** Packing a state and unpacking it gives the same state back. */
  lemma StateMetaRoundTrip(s: PortState)
    ensures StateFromMeta(MetaFromState(s)) == Some(s)
  {
  }

  /** Every metadata value a state packs to unpacks successfully. */
  lemma MetaFromStateNeverOutOfRange(s: PortState)
    ensures MetaFromState(s) & 3 != 3
  {
  }

  /**
   * A placed port is stored inactive: its metadata is just the axis
   * ordinal, and it reads back as that axis, inactive.
   */
  lemma PlacementStoredInactive(a: Axis)
    ensures MetaFromState(StateForPlacement(a)) == AxisOrdinal(a) as bv32
    ensures MetaFromState(StateForPlacement(a)) & 4 == 0
    ensures StateFromMeta(MetaFromState(StateForPlacement(a))) == Some(PortState(a, false))
  {
    StateMetaRoundTrip(StateForPlacement(a));
  }
}
