/**
 * Slot and button layout of upgradable processors
 * (nc/tile/processor/info/UpgradableProcessorContainerInfo.java).
 *
 * An upgradable processor's inventory is its item inputs, then its item
 * outputs, then a speed-upgrade slot and an energy-upgrade slot.
 */
module UpgradableContainerInfo {

  /** Item sorption of a slot; only IN matters to this layout. */
  datatype ItemSorption = Non | In | Out | Both

  /** The four I/O counts a processor kind declares. */
  datatype Sizes = Sizes(itemInputSize: nat, fluidInputSize: nat, itemOutputSize: nat, fluidOutputSize: nat)

  /** Index of the speed-upgrade slot: right after the item outputs. */
  function SpeedUpgradeSlot(s: Sizes): nat
  {
    s.itemInputSize + s.itemOutputSize
  }

  /** Index of the energy-upgrade slot: right after the speed-upgrade slot. */
  function EnergyUpgradeSlot(s: Sizes): nat
  {
    SpeedUpgradeSlot(s) + 1
  }

  /** getInventorySize: the I/O item slots plus the two upgrade slots. */
  function InventorySize(s: Sizes): nat
  {
    s.itemInputSize + s.itemOutputSize + 2
  }

  /** Sorption-button ID of the speed upgrade: after one button per I/O slot or tank. */
  function SpeedUpgradeSorptionButtonID(s: Sizes): nat
  {
    s.itemInputSize + s.fluidInputSize + s.itemOutputSize + s.fluidOutputSize
  }

  function EnergyUpgradeSorptionButtonID(s: Sizes): nat
  {
    SpeedUpgradeSorptionButtonID(s) + 1
  }

  /**
   * The two upgrade slots are exactly the last two valid inventory indices,
   * so neither is an item input or output slot.
   */
  lemma UpgradeSlotsAreLastTwo(s: Sizes)
    ensures EnergyUpgradeSlot(s) == InventorySize(s) - 1
    ensures SpeedUpgradeSlot(s) == InventorySize(s) - 2
    ensures SpeedUpgradeSlot(s) >= s.itemInputSize + s.itemOutputSize
  {
  }

  /**
   * The two sorption buttons of the upgrades are distinct, consecutive, and
   * come after every I/O button (IDs 0 to the sum of the four sizes minus one).
   */
  lemma SorptionButtonsDistinct(s: Sizes)
    ensures SpeedUpgradeSorptionButtonID(s) != EnergyUpgradeSorptionButtonID(s)
    ensures EnergyUpgradeSorptionButtonID(s) == SpeedUpgradeSorptionButtonID(s) + 1
    ensures SpeedUpgradeSorptionButtonID(s) >= s.itemInputSize + s.fluidInputSize + s.itemOutputSize + s.fluidOutputSize
  {
  }

  /**
   * defaultItemSorptions: the parent's default list (one entry per I/O slot)
   * with IN appended for each of the two upgrade slots.
   */
  method DefaultItemSorptions(parent: seq<ItemSorption>) returns (sorptions: seq<ItemSorption>)
    ensures |sorptions| == |parent| + 2
    ensures sorptions[..|parent|] == parent
    ensures sorptions[|parent|] == In && sorptions[|parent| + 1] == In
  {
    sorptions := parent;
    sorptions := sorptions + [In];
    sorptions := sorptions + [In];
  }

  /**
   * With one parent entry per item I/O slot, the default sorption list has one
   * entry per inventory slot and the upgrade slots accept insertion.
   */
  lemma DefaultSorptionsCoverInventory(s: Sizes, parent: seq<ItemSorption>, sorptions: seq<ItemSorption>)
    requires |parent| == s.itemInputSize + s.itemOutputSize
    requires sorptions == parent + [In, In]
    ensures |sorptions| == InventorySize(s)
    ensures sorptions[SpeedUpgradeSlot(s)] == In && sorptions[EnergyUpgradeSlot(s)] == In
  {
  }
}
