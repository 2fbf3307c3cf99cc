/** Inventories as the engine keeps them, lists of lines searched one by one (base.go). */
module Inventories {
  import opened Goods

  /** A commodity line. */
  datatype Line = Line(name: Good, prod: int, quantity: int, buyPrice: real, sellPrice: real, sells: bool, lastRestock: int)

  /** No good has two lines, and no line a negative quantity. */
  ghost predicate WellKept(list: seq<Line>) {
    && (forall i, j :: 0 <= i < j < |list| ==> list[i].name != list[j].name)
    && (forall i :: 0 <= i < |list| ==> list[i].quantity >= 0)
  }

  /** What the list says of each good it lists. */
  function Stock(list: seq<Line>): Inventory {
    if list == [] then map[]
    else
      var last := list[|list| - 1];
      Stock(list[..|list| - 1])[last.name := if last.quantity >= 0 then last.quantity else 0]
  }

  lemma {:induction false} Listed(list: seq<Line>, g: Good)
    ensures g in Stock(list) <==> exists i :: 0 <= i < |list| && list[i].name == g
  {
    if list != [] {
      Listed(list[..|list| - 1], g);
    }
  }

  lemma {:induction false} StockAt(list: seq<Line>, i: nat)
    requires WellKept(list) && i < |list|
    ensures list[i].name in Stock(list) && Stock(list)[list[i].name] == list[i].quantity
  {
    if i < |list| - 1 {
      StockAt(list[..|list| - 1], i);
    }
  }

  lemma {:induction false} StockUpdated(list: seq<Line>, i: nat, quantity: nat)
    requires WellKept(list) && i < |list|
    ensures var after := list[i := list[i].(quantity := quantity)];
            WellKept(after) && Stock(after) == Stock(list)[list[i].name := quantity]
  {
    var last := |list| - 1;
    var after := list[i := list[i].(quantity := quantity)];
    if i < last {
      StockUpdated(list[..last], i, quantity);
      assert after[..last] == list[..last][i := list[i].(quantity := quantity)];
    } else {
      assert after[..last] == list[..last];
    }
  }

  /** The holds a list's cargo fills. */
  function CargoIn(list: seq<Line>): int {
    if list == [] then 0
    else CargoIn(list[..|list| - 1]) + if IsCargo(list[|list| - 1].name) then list[|list| - 1].quantity else 0
  }

  lemma {:induction false} CargoCounted(list: seq<Line>)
    requires WellKept(list)
    ensures CargoIn(list) == Qty(Stock(list), Ore) + Qty(Stock(list), Organics) + Qty(Stock(list), Equipment)
  {
    if list != [] {
      var init, last := list[..|list| - 1], list[|list| - 1];
      CargoCounted(init);
      Listed(init, last.name);
    }
  }

  /** Prices a good is defined with: what ports pay for it, and what they ask. */
  function Defined(g: Good): (real, real) {
    match g
    case Ore => (8.0, 5.0)
    case Organics => (14.0, 10.0)
    case Equipment => (25.0, 20.0)
    case Holds => (0.0, 500.0)
    case Fighters => (0.0, 98.0)
    case Mines => (0.0, 15000.0)
    case Genesis => (0.0, 10000.0)
    case Plasma => (0.0, 56000.0)
    case Pulsar => (0.0, 215000.0)
    case EmWarp => (0.0, 27000.0)
    case Turns => (0.0, 1500.0)
    case Cloak => (0.0, 18000.0)
    case AntiCloak => (0.0, 22000.0)
    case PulsarTube => (0.0, 350000.0)
    case FusionCell => (0.0, 45000.0)
    case PlanetScanner => (0.0, 40000.0)
    case MineDeflector => (0.0, 6000.0)
  }

  class InventoryBase {
    var list: seq<Line>
    var money: int
    /** Set where the engine logs a bug and clamps. */
    ghost var clamped: bool

    ghost predicate Valid()
      reads this
    {
      WellKept(list) && money >= 0
    }

    constructor ()
      ensures Valid() && list == [] && money == 0 && !clamped
    {
      list, money, clamped := [], 0, false;
    }

    /** The first line for the good, or -1. */
    method GetCommodity(g: Good) returns (k: int)
      requires Valid()
      ensures -1 <= k < |list|
      ensures k >= 0 ==> list[k].name == g && g in Stock(list) && Stock(list)[g] == list[k].quantity
      ensures k == -1 ==> g !in Stock(list)
    {
      for i := 0 to |list|
        invariant forall j :: 0 <= j < i ==> list[j].name != g
      {
        if list[i].name == g {
          StockAt(list, i);
          return i;
        }
      }
      Listed(list, g);
      return -1;
    }

    method GetQuantity(g: Good) returns (quantity: int)
      requires Valid()
      ensures quantity == Qty(Stock(list), g)
    {
      var k := GetCommodity(g);
      return if k == -1 then 0 else list[k].quantity;
    }

    method SomeInventory() returns (has: bool)
      requires Valid()
      ensures has <==> HasInventory(Stock(list))
    {
      for i := 0 to |list|
        invariant forall j :: 0 <= j < i ==> list[j].quantity == 0
      {
        if list[i].quantity > 0 {
          StockAt(list, i);
          return true;
        }
      }
      forall g | g in Stock(list) ensures Stock(list)[g] == 0 {
        Listed(list, g);
        var i :| 0 <= i < |list| && list[i].name == g;
        StockAt(list, i);
      }
      return false;
    }

    /** Holds not filled by any line's cargo. */
    method GetFreeHolds() returns (free: int)
      requires Valid()
      ensures free == FreeHolds(Stock(list))
    {
      free := GetQuantity(Holds);
      for i := 0 to |list|
        invariant free == Qty(Stock(list), Holds) - CargoIn(list[..i])
      {
        assert list[..i + 1][..i] == list[..i];
        free := free - (if IsCargo(list[i].name) then 1 else 0) * list[i].quantity;
      }
      assert list[..|list|] == list;
      CargoCounted(list);
    }

    /** Setting a quantity is setting it in the inventory the list stands for. */
    method SetQuantity(g: Good, amount: int)
      requires Valid()
      modifies this`list, this`clamped
      ensures Valid() && Stock(list) == Stored(Stock(old(list)), g, amount)
      ensures clamped == (old(clamped) || amount < 0)
    {
      hide WellKept, Stock;
      clamped := clamped || amount < 0;
      var n := if amount < 0 then 0 else amount;
      var k := GetCommodity(g);
      if k != -1 {
        StockUpdated(list, k, n);
        list := list[k := list[k].(quantity := n)];
      } else if n > 0 {
        Appended(list, Line(g, 0, n, Defined(g).0, Defined(g).1, false, 0));
        list := list + [Line(g, 0, n, Defined(g).0, Defined(g).1, false, 0)];
      }
    }

    /** Adjusting a quantity is adjusting it in the inventory the list stands for, and clamps just when that is overdrawn. */
    method AdjustQuantity(g: Good, amount: int)
      requires Valid()
      modifies this`list, this`clamped
      ensures Valid() && Stock(list) == Adjusted(Stock(old(list)), g, amount)
      ensures clamped == (old(clamped) || Overdrawn(Stock(old(list)), g, amount))
    {
      hide WellKept, Stock;
      var k := GetCommodity(g);
      if k != -1 {
        var quantity := list[k].quantity + amount;
        if quantity < 0 {
          clamped := true;
          quantity := 0;
        }
        StockUpdated(list, k, quantity);
        list := list[k := list[k].(quantity := quantity)];
      } else if amount > 0 {
        SetQuantity(g, amount);
      } else if amount < 0 {
        clamped := true;
      }
    }

    method AdjustMoney(amount: int)
      requires Valid()
      modifies this`money, this`clamped
      ensures Valid() && clamped == (old(clamped) || old(money) + amount < 0)
      ensures money == if old(money) + amount < 0 then 0 else old(money) + amount
    {
      money := money + amount;
      if money < 0 {
        clamped := true;
        money := 0;
      }
    }
  }

  lemma Appended(list: seq<Line>, line: Line)
    requires WellKept(list) && line.quantity >= 0 && line.name !in Stock(list)
    ensures WellKept(list + [line]) && Stock(list + [line]) == Stock(list)[line.name := line.quantity]
  {
    Listed(list, line.name);
    assert (list + [line])[..|list|] == list;
  }
}
