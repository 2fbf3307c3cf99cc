/** The trade goods of the game and the inventory view every holder of goods shares. */
module Goods {

  datatype Good =
    | Ore | Organics | Equipment
    | Holds | Fighters | Mines | Genesis
    | Plasma | Pulsar | EmWarp | Turns
    | Cloak | AntiCloak | PulsarTube | FusionCell | PlanetScanner | MineDeflector

  /** Goods that fill a cargo hold each; everything else takes none. */
  predicate IsCargo(g: Good) {
    g.Ore? || g.Organics? || g.Equipment?
  }

  /** An inventory maps the goods it lists to their quantities; a good it does not list counts zero. */
  type Inventory = map<Good, nat>

  function Qty(inv: Inventory, g: Good): nat {
    if g in inv then inv[g] else 0
  }

  /** Some listed quantity is positive. */
  predicate HasInventory(inv: Inventory) {
    exists g :: g in inv && inv[g] > 0
  }

  /** Whether adjusting by `amount` would take the quantity below zero, the case the engine logs as a bug. */
  predicate Overdrawn(inv: Inventory, g: Good, amount: int) {
    Qty(inv, g) + amount < 0
  }

  /** An adjustment moves one quantity, stopping at zero. */
  function Adjusted(inv: Inventory, g: Good, amount: int): (r: Inventory)
    ensures Qty(r, g) == if Overdrawn(inv, g, amount) then 0 else Qty(inv, g) + amount
    ensures forall h :: h != g ==> Qty(r, h) == Qty(inv, h)
  {
    if g in inv then
      inv[g := if inv[g] + amount < 0 then 0 else inv[g] + amount]
    else if amount > 0 then
      inv[g := amount]
    else
      inv
  }

  function Stored(inv: Inventory, g: Good, amount: int): (r: Inventory)
    ensures Qty(r, g) == if amount < 0 then 0 else amount
    ensures forall h :: h != g ==> Qty(r, h) == Qty(inv, h)
  {
    var n := if amount < 0 then 0 else amount;
    if g in inv then inv[g := n] else if n > 0 then inv[g := n] else inv
  }

  /** Unoccupied cargo holds. */
  function FreeHolds(inv: Inventory): int {
    Qty(inv, Holds) - Qty(inv, Ore) - Qty(inv, Organics) - Qty(inv, Equipment)
  }
}
