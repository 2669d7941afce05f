/**
 * The part of Minecraft's NBTTagCompound the processor and tank settings use:
 * a map from keys to numeric tags, with the numeric getters' conversions and
 * their defaults for a missing key.
 *
 * The engine's keys are strings built from a field name and, for per-tank
 * settings, the tank index ("tankOutputSetting" + i); they are modelled as a
 * datatype, so distinct keys are distinct by construction.
 */
module Nbt {

  datatype Key =
    | InputTanksSeparated
    | VoidUnusableFluidInput(tank: int)
    | TankOutputSetting(tank: int)
    | VoidExcessFluidOutput(tank: int)      // the legacy per-tank key
    | Time
    | ResetTime
    | IsProcessing
    | CanProcessInputs
    | HasConsumed

  /** A numeric tag: setBoolean writes a byte, setInteger an int, setDouble a double. */
  datatype Tag = ByteTag(b: int) | IntTag(i: int) | DoubleTag(d: real)

  type Compound = map<Key, Tag>

  /** MathHelper.floor */
  function Floor(d: real): int {
    d.Floor
  }

  /** getByte then `!= 0`: a numeric tag's low eight bits; a missing key reads false. */
  function GetBoolean(c: Compound, k: Key): (r: bool)
    ensures k !in c ==> !r
  {
    if k !in c then false
    else match c[k]
      case ByteTag(b) => b % 256 != 0
      case IntTag(i) => i % 256 != 0
      case DoubleTag(d) => Floor(d) % 256 != 0
  }

  /** getInteger: a double is floored; a missing key reads 0. */
  function GetInteger(c: Compound, k: Key): (r: int)
    ensures k !in c ==> r == 0
  {
    if k !in c then 0
    else match c[k]
      case ByteTag(b) => b
      case IntTag(i) => i
      case DoubleTag(d) => Floor(d)
  }

  /** getDouble: a missing key reads 0. */
  function GetDouble(c: Compound, k: Key): (r: real)
    ensures k !in c ==> r == 0.0
  {
    if k !in c then 0.0
    else match c[k]
      case ByteTag(b) => b as real
      case IntTag(i) => i as real
      case DoubleTag(d) => d
  }

  /** setBoolean: a byte 1 or 0. */
  function SetBoolean(c: Compound, k: Key, v: bool): (r: Compound)
  {
    c[k := ByteTag(if v then 1 else 0)]
  }

  function SetInteger(c: Compound, k: Key, v: int): (r: Compound)
  {
    c[k := IntTag(v)]
  }

  function SetDouble(c: Compound, k: Key, v: real): (r: Compound)
  {
    c[k := DoubleTag(v)]
  }

  /**
   * Each setter's value reads back through the matching getter, the key is
   * present afterwards, and every other key keeps its tag.
   */
  lemma SetThenGet(c: Compound, k: Key, b: bool, i: int, d: real)
    ensures GetBoolean(SetBoolean(c, k, b), k) == b
    ensures GetInteger(SetInteger(c, k, i), k) == i
    ensures GetDouble(SetDouble(c, k, d), k) == d
    ensures forall k' :: k' in SetBoolean(c, k, b) <==> k' in c || k' == k
    ensures forall k' :: k' in c && k' != k ==>
              SetBoolean(c, k, b)[k'] == SetInteger(c, k, i)[k'] == SetDouble(c, k, d)[k'] == c[k']
  {
  }
}
