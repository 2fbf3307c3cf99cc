/** Volume scaling and trades (ops.go), ports and docking (port.go, commands.go:162-184). */
module Trading {
  import opened Goods
  import opened Entities
  import opened Worlds
  import opened Commands
  import opened Commodities

  // ----- Scaling

  /** Ships with 50 holds or more deal in multiplied lots, up to 275 times. */
  function ScaleFactor(holds: nat): (f: real)
    ensures 1.0 <= f <= 275.0
  {
    if holds < 50 then 1.0 else if holds as real / 50.0 > 275.0 then 275.0 else holds as real / 50.0
  }

  /** Port units as quoted to the player. */
  function ScaleUp(f: real, units: nat): (r: nat)
    requires f >= 1.0
    ensures units <= r && r as real <= units as real * f < r as real + 1.0
  {
    Times(units as real, 1.0, f);
    (units as real * f).Floor
  }

  lemma Times(a: real, b: real, c: real)
    requires 0.0 <= a && b <= c
    ensures a * b <= a * c
  {
  }

  lemma ScaleUpGrows(f: real, a: nat, b: nat)
    requires f >= 1.0 && a < b
    ensures ScaleUp(f, a) + (b - a) <= ScaleUp(f, b)
  {
    Times((b - a) as real, 1.0, f);
    assert b as real * f == a as real * f + (b - a) as real * f;
  }

  /** The fewest port units whose quoted volume covers what was traded. */
  ghost predicate Covers(f: real, traded: int, units: nat)
    requires f >= 1.0
  {
    ScaleUp(f, units) >= traded && (units > 0 ==> ScaleUp(f, units - 1) < traded)
  }

  lemma CoverIsLeast(f: real, traded: int, units: nat, other: nat)
    requires f >= 1.0 && Covers(f, traded, units) && ScaleUp(f, other) >= traded
    ensures units <= other
  {
    if other < units {
      if other < units - 1 {
        ScaleUpGrows(f, other, units - 1);
      }
    }
  }

  /** Traded units come back to port units by the least inverse of scaling up, which never exceeds a stock that covered them. */
  method ScaleDown(f: real, traded: int) returns (units: nat)
    requires f >= 1.0
    ensures Covers(f, traded, units)
    ensures forall stock: nat :: ScaleUp(f, stock) >= traded ==> units <= stock
  {
    if traded <= 0 {
      return 0;
    }
    var d: nat := StartingPoint(f, traded);
    while ScaleUp(f, d) < traded
      invariant d >= 1 && ScaleUp(f, d - 1) < traded
      decreases traded - ScaleUp(f, d)
    {
      ScaleUpGrows(f, d, d + 1);
      d := d + 1;
    }
    units := d;
    forall stock: nat | ScaleUp(f, stock) >= traded ensures units <= stock {
      CoverIsLeast(f, traded, units, stock);
    }
  }

  /** The search starts from the quotient, or from one, never past the answer. */
  function StartingPoint(f: real, traded: int): (d: nat)
    requires f >= 1.0 && traded > 0
    ensures d >= 1 && ScaleUp(f, d - 1) < traded
  {
    Divided(traded as real, f);
    var d := (traded as real / f).Floor;
    if d < 1 then assert ScaleUp(f, 0) == 0; 1
    else
      BelowQuotient(f, traded, d);
      d
  }

  lemma Divided(a: real, f: real)
    requires a >= 0.0 && f >= 1.0
    ensures a / f >= 0.0 && (a / f) * f == a
  {
  }

  lemma BelowQuotient(f: real, traded: int, d: int)
    requires f >= 1.0 && traded > 0 && 1 <= d && d as real <= traded as real / f
    ensures ScaleUp(f, d - 1) < traded
  {
    Divided(traded as real, f);
    Times(f, d as real, traded as real / f);
    assert (d - 1) as real * f == f * d as real - f;
  }

  /** The answer is the quotient rounded up. */
  lemma CoverIsCeiling(f: real, traded: nat, units: nat)
    requires f >= 1.0 && Covers(f, traded, units)
    ensures traded as real <= units as real * f && (units > 0 ==> (units - 1) as real * f < traded as real)
  {
  }

  /** Splitting a trade in two never consumes less port stock than doing it at once. */
  lemma SplittingCostsMore(f: real, a: int, b: int, units: nat, unitsA: nat, unitsB: nat)
    requires f >= 1.0 && Covers(f, a + b, units) && Covers(f, a, unitsA) && Covers(f, b, unitsB)
    ensures units <= unitsA + unitsB
  {
    hide ScaleUp;
    ScaleUpAdds(f, unitsA, unitsB);
    CoverIsLeast(f, a + b, units, unitsA + unitsB);
  }

  lemma ScaleUpAdds(f: real, a: nat, b: nat)
    requires f >= 1.0
    ensures ScaleUp(f, a) + ScaleUp(f, b) <= ScaleUp(f, a + b)
  {
    var both := ScaleUp(f, a + b);
    Distributes(a as real, b as real, f);
    assert (a + b) as real == a as real + b as real;
    hide ScaleUp;
  }

  lemma Distributes(a: real, b: real, f: real)
    ensures (a + b) * f == a * f + b * f
  {
  }

  // ----- Ports

  datatype PortKind = TradingPort | Sol | AmazingDevices | Interstel

  class Port {
    const kind: PortKind
    const name: string
    const sector: nat
    const goods: seq<Commodity>

    constructor (kind: PortKind, name: string, sector: nat, goods: seq<Commodity>)
      ensures this.kind == kind && this.name == name && this.sector == sector && this.goods == goods
    {
      this.kind, this.name, this.sector, this.goods := kind, name, sector, goods;
    }

    predicate IsService() { !kind.TradingPort? }

    /** No good is listed twice, and prices are not negative. */
    ghost predicate Valid() {
      && (forall i, j :: 0 <= i < j < |goods| ==> goods[i].good != goods[j].good)
      && (forall i :: 0 <= i < |goods| ==> goods[i].buyPrice >= 0.0 && goods[i].sellPrice >= 0.0)
    }

    /** Where the good is listed, or -1. */
    function IndexOf(g: Good): (i: int)
      ensures -1 <= i < |goods|
      ensures i >= 0 ==> goods[i].good == g
      ensures i == -1 ==> forall j :: 0 <= j < |goods| ==> goods[j].good != g
    {
      Find(goods, g)
    }

    /** Every listed good is brought up to date. */
    method Restock(now: int)
      requires Valid()
      modifies set c | c in goods
      ensures forall i :: 0 <= i < |goods| ==> goods[i].State() == Polled(old(goods[i].State()), now)
    {
      hide Polled;
      for i := 0 to |goods|
        invariant forall j :: 0 <= j < i ==> goods[j].State() == Polled(old(goods[j].State()), now)
        invariant forall j :: i <= j < |goods| ==> goods[j].State() == old(goods[j].State())
      {
        goods[i].Restock(now);
      }
    }
  }

  /** All the stocks of all the ports. */
  ghost function Stocks(ports: seq<Port>): set<Commodity> {
    set i, j | 0 <= i < |ports| && 0 <= j < |ports[i].goods| :: ports[i].goods[j]
  }

  /** No two ports share a stock. */
  ghost predicate Separate(ports: seq<Port>) {
    && (forall i :: 0 <= i < |ports| ==> ports[i].Valid())
    && forall i, j :: 0 <= i < j < |ports| ==> forall c :: c in ports[i].goods ==> c !in ports[j].goods
  }

  /** Every stock of every port is brought up to date. */
  method RestockAll(ports: seq<Port>, now: int)
    requires Separate(ports)
    modifies Stocks(ports)
    ensures forall c :: c in Stocks(ports) ==> c.State() == Polled(old(c.State()), now)
  {
    hide Polled;
    for n := 0 to |ports|
      invariant forall i, j :: 0 <= i < n && 0 <= j < |ports[i].goods| ==> ports[i].goods[j].State() == Polled(old(ports[i].goods[j].State()), now)
      invariant forall i, j :: n <= i < |ports| && 0 <= j < |ports[i].goods| ==> ports[i].goods[j].State() == old(ports[i].goods[j].State())
    {
      ports[n].Restock(now);
    }
  }

  function Find(goods: seq<Commodity>, g: Good): (i: int)
    ensures -1 <= i < |goods|
    ensures i >= 0 ==> goods[i].good == g
    ensures i == -1 ==> forall j :: 0 <= j < |goods| ==> goods[j].good != g
  {
    if goods == [] then -1
    else if goods[0].good == g then 0
    else
      var i := Find(goods[1..], g);
      assert forall j :: 1 <= j < |goods| ==> goods[j] == goods[1..][j - 1];
      if i == -1 then -1 else i + 1
  }

  /** Docking at a trading port costs a turn and brings its stocks up to date; elsewhere it is free. */
  method Dock(w: World, p: PlayerId, port: Port, now: Time) returns (err: Error)
    requires w.Valid() && p < |w.players| && port.Valid()
    modifies w`players, w`clamped, set c | c in port.goods
    ensures w.Valid()
    ensures var ship := old(w.players[p]);
            err == if ship.IsDead() then Dead else if SystemDown(ship, CARGO_BAY) then Unknown
                   else if !port.IsService() && !HasTurn(ship) then NoTurns else NoError
    ensures w.View() == if err.NoError? && !port.IsService()
                        then old(w.View()).(players := old(w.players)[p := TurnSpent(old(w.players[p]))]) else old(w.View())
    ensures forall i :: 0 <= i < |port.goods| ==>
              port.goods[i].State() == if err.NoError? && !port.IsService() then Polled(old(port.goods[i].State()), now)
                                       else old(port.goods[i].State())
  {
    hide SoundState, Polled;
    if w.players[p].IsDead() {
      return Dead;
    }
    if SystemDown(w.players[p], CARGO_BAY) {
      return Unknown;
    }
    if port.IsService() {
      return NoError;
    }
    ghost var s := w.View();
    err := SpendTurn(w, p);
    if err.NoError? {
      ShipOk(s, w.numsec, p);
      Refitted(s, w.numsec, p, w.players[p]);
      port.Restock(now);
    }
  }

  // ----- Trades

  /** Why a purchase is refused. */
  function BuyRefusal(ship: Player, listed: bool, stock: nat, unit: real, g: Good, quantity: int): (r: Error)
    requires unit >= 0.0
    ensures r.NoError? <==>
              && !ship.IsDead() && quantity >= 0 && listed && quantity <= ScaleUp(ScaleFactor(ship.Has(Holds)), stock)
              && LotPrice(unit, quantity) <= ship.money && (IsCargo(g) ==> quantity <= FreeHolds(ship.inv))
  {
    if ship.IsDead() then Dead
    else if quantity < 0 then NegativeQuantity
    else if !listed then Unknown
    else if ScaleUp(ScaleFactor(ship.Has(Holds)), stock) < quantity then NotEnoughQuantity
    else if ship.money < LotPrice(unit, quantity) then NotEnoughMoney
    else if IsCargo(g) && quantity > FreeHolds(ship.inv) then NotEnoughHolds
    else NoError
  }

  /** The ship after a deal: so many more credits, and so many more of the goods. */
  function AfterDeal(p: Player, g: Good, credits: int, goods: int): (r: Player)
    requires p.money + credits >= 0
    ensures r.money == p.money + credits && (p.Has(g) + goods >= 0 ==> r.Has(g) == p.Has(g) + goods)
    ensures forall h :: h != g ==> r.Has(h) == p.Has(h)
  {
    p.(money := p.money + credits, inv := Adjusted(p.inv, g, goods))
  }

  lemma RoomAfter(p: Player, g: Good, credits: int, goods: int)
    requires p.money + credits >= 0 && p.Has(g) + goods >= 0
    ensures FreeHolds(AfterDeal(p, g, credits, goods).inv)
            == FreeHolds(p.inv) + if IsCargo(g) then 0 - goods else if g.Holds? then goods else 0
  {
    var q := AfterDeal(p, g, credits, goods);
    assert forall h :: q.Has(h) == if h == g then p.Has(h) + goods else p.Has(h);
    hide AfterDeal;
  }

  function SellPriceOf(c: Commodity): real
    reads c
  {
    EffectiveSell(c.sellPrice, c.prod, c.quantity)
  }

  function BuyPriceOf(c: Commodity): real
    reads c
  {
    EffectiveBuy(c.buyPrice, c.prod, c.quantity)
  }

  /** Credits and goods change hands. */
  method Settle(w: World, p: PlayerId, g: Good, credits: int, goods: int)
    requires w.Valid() && p < |w.players| && w.players[p].money + credits >= 0 && w.players[p].Has(g) + goods >= 0
    modifies w`players, w`clamped
    ensures w.Valid()
    ensures w.View() == old(w.View()).(players := old(w.players)[p := AfterDeal(old(w.players[p]), g, credits, goods)])
  {
    hide SoundState;
    ghost var s := w.View();
    w.AdjustMoney(p, credits);
    w.AdjustShip(p, g, goods);
    ShipOk(s, w.numsec, p);
    Refitted(s, w.numsec, p, AfterDeal(s.players[p], g, credits, goods));
    assert w.View() == s.(players := s.players[p := AfterDeal(s.players[p], g, credits, goods)]);
  }

  /** A lot taken from a commodity's stock, in port units. */
  method Deplete(c: Commodity, f: real, quantity: nat)
    requires f >= 1.0 && quantity <= ScaleUp(f, c.quantity)
    modifies c`quantity
    ensures c.quantity <= old(c.quantity) && Covers(f, quantity, old(c.quantity) - c.quantity)
  {
    var units := ScaleDown(f, quantity);
    c.quantity := c.quantity - units;
  }

  lemma PricesNotNegative(price: real, prod: int, quantity: nat)
    requires price >= 0.0
    ensures EffectiveSell(price, prod, quantity) >= 0.0 && EffectiveBuy(price, prod, quantity) >= 0.0
  {
    ScarcityPrices(price, prod, quantity, quantity);
  }

  /**
    * A purchase from a port. Refused purchases change nothing. Otherwise the ship pays the quoted price for its goods,
    * the port gives up the fewest units that cover them, and cargo that fits leaves no hold overfilled.
    */
  method TradeBuy(w: World, p: PlayerId, port: Port, g: Good, quantity: int) returns (err: Error)
    requires w.Valid() && p < |w.players| && port.Valid()
    modifies w`players, w`clamped, set c | c in port.goods
    ensures w.Valid()
    ensures var i := port.IndexOf(g); var unit := if i == -1 then 0.0 else old(SellPriceOf(port.goods[i]));
            && unit >= 0.0
            && err == BuyRefusal(old(w.players[p]), i != -1, if i == -1 then 0 else old(port.goods[i].quantity), unit, g, quantity)
            && (err.NoError? ==>
                  var ship := old(w.players[p]);
                  && LotPrice(unit, quantity) <= ship.money
                  && w.View() == old(w.View()).(players := old(w.players)[p := AfterDeal(ship, g, 0 - LotPrice(unit, quantity), quantity)])
                  && port.goods[i].quantity <= old(port.goods[i].quantity)
                  && Covers(ScaleFactor(ship.Has(Holds)), quantity, old(port.goods[i].quantity) - port.goods[i].quantity))
    ensures !err.NoError? ==> w.View() == old(w.View())
    ensures forall j :: 0 <= j < |port.goods| && (!err.NoError? || j != port.IndexOf(g)) ==> port.goods[j].State() == old(port.goods[j].State())
    ensures err.NoError? && FreeHolds(old(w.players[p]).inv) >= 0 ==> FreeHolds(w.players[p].inv) >= 0
    ensures err.NoError? ==> FreeHolds(w.players[p].inv)
                             == FreeHolds(old(w.players[p]).inv) - if IsCargo(g) then quantity else if g.Holds? then 0 - quantity else 0
  {
    hide SoundState, Manned, ScaleUp, ScaleFactor, LotPrice, EffectiveSell, EffectiveBuy, FreeHolds, AfterDeal, Covers;
    var i := port.IndexOf(g);
    if i != -1 {
      PricesNotNegative(port.goods[i].sellPrice, port.goods[i].prod, port.goods[i].quantity);
    }
    var unit := if i == -1 then 0.0 else SellPriceOf(port.goods[i]);
    err := BuyRefusal(w.players[p], i != -1, if i == -1 then 0 else port.goods[i].quantity, unit, g, quantity);
    if err.NoError? {
      Deplete(port.goods[i], ScaleFactor(w.players[p].Has(Holds)), quantity);
      RoomAfter(w.players[p], g, 0 - LotPrice(unit, quantity), quantity);
      Settle(w, p, g, 0 - LotPrice(unit, quantity), quantity);
    }
  }

  function SellRefusal(ship: Player, listed: bool, stock: nat, g: Good, quantity: int): (r: Error)
    ensures r.NoError? <==>
              !ship.IsDead() && quantity >= 0 && listed && quantity <= ScaleUp(ScaleFactor(ship.Has(Holds)), stock) && quantity <= ship.Has(g)
  {
    if ship.IsDead() then Dead
    else if quantity < 0 then NegativeQuantity
    else if !listed then Unknown
    else if ScaleUp(ScaleFactor(ship.Has(Holds)), stock) < quantity then NotEnoughQuantity
    else if ship.Has(g) < quantity then NotEnoughQuantity
    else NoError
  }

  /** A sale to a port, which wants that much less of the good afterwards. */
  method TradeSell(w: World, p: PlayerId, port: Port, g: Good, quantity: int) returns (err: Error)
    requires w.Valid() && p < |w.players| && port.Valid()
    modifies w`players, w`clamped, set c | c in port.goods
    ensures w.Valid()
    ensures var i := port.IndexOf(g);
            && err == SellRefusal(old(w.players[p]), i != -1, if i == -1 then 0 else old(port.goods[i].quantity), g, quantity)
            && (err.NoError? ==>
                  var ship, unit := old(w.players[p]), old(BuyPriceOf(port.goods[i]));
                  && unit >= 0.0
                  && w.View() == old(w.View()).(players := old(w.players)[p := AfterDeal(ship, g, LotPrice(unit, quantity), 0 - quantity)])
                  && port.goods[i].quantity <= old(port.goods[i].quantity)
                  && Covers(ScaleFactor(ship.Has(Holds)), quantity, old(port.goods[i].quantity) - port.goods[i].quantity))
    ensures !err.NoError? ==> w.View() == old(w.View())
    ensures forall j :: 0 <= j < |port.goods| && (!err.NoError? || j != port.IndexOf(g)) ==> port.goods[j].State() == old(port.goods[j].State())
    ensures err.NoError? ==> FreeHolds(w.players[p].inv)
                             == FreeHolds(old(w.players[p]).inv) + if IsCargo(g) then quantity else if g.Holds? then 0 - quantity else 0
  {
    hide SoundState, Manned, ScaleUp, ScaleFactor, LotPrice, EffectiveSell, EffectiveBuy, FreeHolds, AfterDeal, Covers;
    var i := port.IndexOf(g);
    err := SellRefusal(w.players[p], i != -1, if i == -1 then 0 else port.goods[i].quantity, g, quantity);
    if err.NoError? {
      PricesNotNegative(port.goods[i].buyPrice, port.goods[i].prod, port.goods[i].quantity);
      var price := LotPrice(BuyPriceOf(port.goods[i]), quantity);
      Deplete(port.goods[i], ScaleFactor(w.players[p].Has(Holds)), quantity);
      RoomAfter(w.players[p], g, price, 0 - quantity);
      Settle(w, p, g, price, 0 - quantity);
    }
  }

  /** Goods at Sol and the device shop have no stock to run out. */
  method TradeBuyNoLimit(w: World, p: PlayerId, g: Good, unit: real, quantity: int) returns (err: Error)
    requires w.Valid() && p < |w.players| && unit >= 0.0
    modifies w`players, w`clamped
    ensures w.Valid()
    ensures var ship := old(w.players[p]);
            && err == (if ship.IsDead() then Dead else if quantity < 0 then NegativeQuantity
                       else if ship.money < LotPrice(unit, quantity) then NotEnoughMoney else NoError)
            && (err.NoError? ==>
                  quantity >= 0 && LotPrice(unit, quantity) <= ship.money
                  && w.View() == old(w.View()).(players := old(w.players)[p := AfterDeal(ship, g, 0 - LotPrice(unit, quantity), quantity)]))
    ensures !err.NoError? ==> w.View() == old(w.View())
    ensures err.NoError? ==> FreeHolds(w.players[p].inv)
                             == FreeHolds(old(w.players[p]).inv) - if IsCargo(g) then quantity else if g.Holds? then 0 - quantity else 0
  {
    hide SoundState, Manned, ScaleUp, ScaleFactor, LotPrice, EffectiveSell, EffectiveBuy, FreeHolds, AfterDeal, Covers;
    if w.players[p].IsDead() {
      return Dead;
    }
    if quantity < 0 {
      return NegativeQuantity;
    }
    var price: int := LotPrice(unit, quantity);
    if w.players[p].money < price {
      return NotEnoughMoney;
    }
    RoomAfter(w.players[p], g, 0 - price, quantity);
    Settle(w, p, g, 0 - price, quantity);
    return NoError;
  }
}
