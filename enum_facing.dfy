/** Minecraft's six block faces (net.minecraft.util.EnumFacing), by index. */
module EnumFacing {

  /** In index order: DOWN = 0 ... EAST = 5. */
  datatype Facing = Down | Up | North | South | West | East

  function FacingIndex(f: Facing): (i: nat)
    ensures i < 6
  {
    match f
    case Down => 0
    case Up => 1
    case North => 2
    case South => 3
    case West => 4
    case East => 5
  }

  /**
   * EnumFacing.byIndex: the facing at `abs(i % 6)` (Java's `%` truncates,
   * so a negative `i` gives a non-positive remainder).
   */
  function FacingByIndex(i: int): (f: Facing)
    ensures 0 <= i < 6 ==> FacingIndex(f) == i
  {
    var r := if i >= 0 then i % 6 else -((-i) % 6);
    var k := if r < 0 then -r else r;
    if k == 0 then Down
    else if k == 1 then Up
    else if k == 2 then North
    else if k == 3 then South
    else if k == 4 then West
    else East
  }
}
