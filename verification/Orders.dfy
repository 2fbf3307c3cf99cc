/** The commands players give, and what serving each of them comes to (actor.go, and the commands of the galwar package). */
module Orders {
  import opened Goods
  import opened Entities
  import opened Worlds
  import opened Sessions
  import opened Fights
  import opened Garrisons
  import opened Commands
  import opened Combat
  import opened Invasion
  import opened Fleets
  import opened Holdings
  import opened PlanetCommands
  import opened Bombardment
  import opened Rewiring
  import opened Commodities
  import opened Trading
  import opened Factions
  import opened Maintenance
  import opened Sectors
  import opened Links
  import opened Graphs

  /** A command, with the player who gives it. */
  datatype Command =
    | Move(who: PlayerId, dest: int)
    | Attack(who: PlayerId, target: int, commit: int)
    | Invade(who: PlayerId, commit: int)
    | Launch(who: PlayerId, target: int, ships: int)
    | Deploy(who: PlayerId, kind: Good, amount: int)
    | Create(who: PlayerId, name: string, nameOk: bool)
    | Store(who: PlayerId, good: Good, amount: int)
    | Fetch(who: PlayerId, good: Good, amount: int)
    | Unload(who: PlayerId)
    | Bomb(who: PlayerId, bombs: int)
    | BombFromOrbit(who: PlayerId, bombs: int)
    | Rewire(who: PlayerId, link: bool, target: int)
    | Deposit(who: PlayerId, credits: int)
    | Withdraw(who: PlayerId, credits: int)
    | Repair(who: PlayerId)
    | Moor(who: PlayerId, port: Port)
    | Buy(who: PlayerId, port: Port, good: Good, quantity: int)
    | Sell(who: PlayerId, port: Port, good: Good, quantity: int)
    | BuyGear(who: PlayerId, good: Good, unit: real, quantity: int)
    | Arrive(who: PlayerId)
    | Register(handleOk: bool, handleFree: bool)
    | Night
  {
    predicate ByPlayer() { !Register? && !Night? }

    predicate IsFight() { Move? || Attack? || Invade? || Launch? }

    predicate IsTrade() { Moor? || Buy? || Sell? || BuyGear? }

    predicate IsPlacement() { Deploy? || Create? || Store? || Fetch? || Unload? || Bomb? || BombFromOrbit? || Rewire? }

    ghost predicate WellFormed(ports: seq<Port>) {
      && (Moor? || Buy? || Sell? ==> port in ports && port.Valid())
      && (BuyGear? ==> unit >= 0.0)
    }
  }

  datatype Event = Event(command: Command, now: Time)

  /** The command's giver is a trader with a record. */
  predicate Given(players: seq<Player>, c: Command) {
    c.ByPlayer() ==> c.who < |players| && !players[c.who].IsNpc()
  }

  /** All that a command may change, but for the ports' stocks and the news. */
  datatype Moment = Moment(state: State, chart: Chart, day: int, cabal: bool, renegades: bool)

  ghost function Now(w: World): Moment
    reads w, w.sectors
  {
    Moment(w.View(), ChartOf(w.sectors), w.lastMaint, w.cabalActive, w.renActive)
  }

  /** A refused fight changes nothing; any other is fought as its rules say. */
  ghost predicate FightFought(s: State, t: State, cfg: Config, g: Chart, e: Event)
    requires Given(s.players, e.command)
  {
    match e.command
    case Move(p, dest) =>
      if !MoveRefusal(s.players[p], g, dest).NoError? then t == s
      else Moved(s, t, p, dest, e.now)
    case Attack(p, target, commit) =>
      if !AttackRefusal(s.players, cfg, p, target, commit, e.now).NoError? then t == s
      else AttackMade(s, t, cfg, p, target, commit, e.now)
    case Invade(p, commit) =>
      if !InvadeRefusal(s.players[p], s.planets, p, commit).NoError? then t == s
      else exists outcome :: Invaded(Charged(s, p), t, p, PlanetIn(s.planets, s.players[p].sector), commit, outcome, e.now)
    case Launch(p, target, ships) =>
      if !LaunchRefusal(s.players[p], g, target, ships).NoError? then t == s
      else exists path, survivors: nat :: StruckBy(s, t, cfg, g, p, target, path, ships, survivors, e.now)
    case _ => true
  }

  ghost predicate Moved(s: State, t: State, p: PlayerId, dest: nat, now: Time)
    requires p < |s.players|
  {
    && p < |t.players| && Worn(s, t, {p}, {dest})
    && Fought(Underway(s.players[p]).(sector := dest), t.players[p], 0, now)
    && Contested(Underway(s.players[p]).(sector := dest), t.players[p], HostileStores(s.bgs, p, dest), HostileStores(t.bgs, p, dest))
  }

  ghost predicate AttackMade(s: State, t: State, cfg: Config, a: PlayerId, b: PlayerId, commit: nat, now: Time)
    requires a < |s.players| && b < |s.players|
  {
    && Melee(Charged(s, a), t, a, b, cfg.maxHolds, now)
    && a < |t.players| && b < |t.players|
    && Attacked(cfg, TurnSpent(s.players[a]), s.players[b], commit, t.players[a], t.players[b])
  }

  ghost predicate StruckBy(s: State, t: State, cfg: Config, g: Chart, p: PlayerId, target: nat, path: seq<nat>, ships: nat, survivors: nat, now: Time)
    requires p < |s.players|
  {
    && |path| >= 1 && Joins(g, path, s.players[p].sector, target) && Distance(g, s.players[p].sector, target, |path| - 1)
    && StruckAlong(s, t, cfg, p, path[1..], ships, survivors, now)
  }

  /** A refused placement changes nothing; any other does just what was asked. */
  ghost predicate PlacementMade(s: State, t: State, g: Chart, h: Chart, cfg: Config, e: Event)
    requires Given(s.players, e.command)
  {
    match e.command
    case Rewire(p, link, target) =>
      if !PlasmaRefusal(s.players[p], g, cfg.maxWarps, link, target).NoError? then t == s && h == g
      else t == s.(players := s.players[p := Rewirer(s.players[p])]) && TwoWay(g, h, s.players[p].sector, target, link)
    case Deploy(p, kind, amount) =>
      && h == g
      && if !DeployRefusal(s.bgs, s.players[p], p, s.players[p].sector, kind, amount).NoError? then t == s
         else Deployed(s, t, p, s.players[p].sector, kind, amount)
    case Create(p, name, nameOk) =>
      && h == g
      && if !GenesisRefusal(s.planets, s.players[p], s.players[p].sector, nameOk).NoError? then t == s
         else t == s.(players := s.players[p := s.players[p].(inv := Adjusted(s.players[p].inv, Genesis, -1))],
                      planets := s.planets + [NewPlanet(p, s.players[p].sector, name)])
    case Store(_, _, _) => h == g && ProvisionMade(s, t, e)
    case Fetch(_, _, _) => h == g && ProvisionMade(s, t, e)
    case Unload(_) => h == g && ProvisionMade(s, t, e)
    case Bomb(_, _) => h == g && ProvisionMade(s, t, e)
    case BombFromOrbit(_, _) => h == g && ProvisionMade(s, t, e)
    case _ => true
  }

  /** So does business with the planet here. */
  ghost predicate ProvisionMade(s: State, t: State, e: Event)
    requires Given(s.players, e.command)
  {
    match e.command
    case Store(p, good, amount) =>
      var ship, k := s.players[p], PlanetIn(s.planets, s.players[p].sector);
      if !LandingRefusal(s.planets, ship, p, ship.sector, good, amount).NoError? then t == s
      else Transferred(s, t, p, k, good, amount, Qty(s.planets[k].inv, good) + ship.Has(good) - amount)
    case Fetch(p, good, amount) =>
      var ship, k := s.players[p], PlanetIn(s.planets, s.players[p].sector);
      if !LoadingRefusal(s.planets, ship, p, ship.sector, good, amount).NoError? then t == s
      else Transferred(s, t, p, k, good, Qty(s.planets[k].inv, good) - amount, ship.Has(good) + amount)
    case Unload(p) =>
      if !OwnershipError(s.planets, p, s.players[p].sector).NoError? then t == s
      else Unloaded(s, t, p, PlanetIn(s.planets, s.players[p].sector), PRODUCTS)
    case Bomb(p, bombs) =>
      if !PulsarRefusal(s.planets, s.players[p], p, bombs).NoError? then t == s
      else BombsDropped(s, t, p, PlanetIn(s.planets, s.players[p].sector), bombs, 1000 * bombs)
    case BombFromOrbit(p, bombs) =>
      if !TubeRefusal(s.planets, s.players[p], bombs).NoError? then t == s
      else BombsDropped(s, t, p, PlanetIn(s.planets, s.players[p].sector), bombs, 500 * bombs)
    case _ => true
  }

  /** What a port has to say of a good: whether it is listed, how much is in stock, and at what price. */
  datatype Quote = Quote(listed: bool, stock: nat, unit: real)

  ghost function Asked(port: Port, g: Good): Quote
    reads port.goods
  {
    var i := port.IndexOf(g);
    if i == -1 then Quote(false, 0, 0.0) else Quote(true, port.goods[i].quantity, SellPriceOf(port.goods[i]))
  }

  ghost function Offered(port: Port, g: Good): Quote
    reads port.goods
  {
    var i := port.IndexOf(g);
    if i == -1 then Quote(false, 0, 0.0) else Quote(true, port.goods[i].quantity, BuyPriceOf(port.goods[i]))
  }

  /** A purchase on those terms. */
  ghost predicate Bought(s: State, t: State, p: PlayerId, g: Good, quantity: int, q: Quote)
    requires p < |s.players|
  {
    && q.unit >= 0.0
    && if !BuyRefusal(s.players[p], q.listed, q.stock, q.unit, g, quantity).NoError? then t == s
       else t == s.(players := s.players[p := AfterDeal(s.players[p], g, 0 - LotPrice(q.unit, quantity), quantity)])
  }

  /** A sale on those terms. */
  ghost predicate Sold(s: State, t: State, p: PlayerId, g: Good, quantity: int, q: Quote)
    requires p < |s.players|
  {
    if !SellRefusal(s.players[p], q.listed, q.stock, g, quantity).NoError? then t == s
    else
      && q.unit >= 0.0
      && t == s.(players := s.players[p := AfterDeal(s.players[p], g, LotPrice(q.unit, quantity), 0 - quantity)])
  }

  /** A deal is refused, or struck on some terms. */
  ghost predicate DealMade(s: State, t: State, e: Event)
    requires Given(s.players, e.command)
  {
    match e.command
    case Moor(p, port) =>
      var ship := s.players[p];
      t == if ship.IsDead() || SystemDown(ship, CARGO_BAY) || port.IsService() || !HasTurn(ship) then s
           else s.(players := s.players[p := TurnSpent(ship)])
    case Buy(p, port, good, quantity) =>
      exists quote :: Bought(s, t, p, good, quantity, quote)
    case Sell(p, port, good, quantity) =>
      exists quote :: Sold(s, t, p, good, quantity, quote)
    case BuyGear(p, good, unit, quantity) =>
      var ship := s.players[p];
      t == if ship.IsDead() || quantity < 0 || unit < 0.0 || ship.money < LotPrice(unit, quantity) then s
           else s.(players := s.players[p := AfterDeal(ship, good, 0 - LotPrice(unit, quantity), quantity)])
    case _ => true
  }

  /** What is served at Sol's bank and yard, at the door, and at night. */
  ghost predicate Attended(m: Moment, n: Moment, numsec: int, cfg: Config, e: Event)
    requires Given(m.state.players, e.command) && cfg.costFighter > 0
  {
    var s, t := m.state, n.state;
    match e.command
    case Deposit(p, credits) =>
      var ship := s.players[p];
      && n == m.(state := t)
      && if ship.IsDead() || credits < 1 || ship.money < credits then t == s
         else Banked(s, t, p, ship.money - credits, ship.bank + credits, cfg)
    case Withdraw(p, credits) =>
      var ship := s.players[p];
      && n == m.(state := t)
      && if ship.IsDead() || credits < 1 || ship.bank < credits then t == s
         else Banked(s, t, p, ship.money + credits, ship.bank - credits, cfg)
    case Repair(p) =>
      var ship := s.players[p];
      var cost := TotalDamage(ship.systems) * cfg.costOfRepair;
      && n == m.(state := t)
      && t == if ship.systems == INTACT || ship.money < cost then s
              else s.(players := s.players[p := ship.(systems := INTACT, money := ship.money - cost)])
    case Arrive(p) => n == m.(state := s.(players := s.players[p := Welcomed(cfg, s.players[p], e.now)]))
    case Register(handleOk, handleFree) =>
      n == if handleOk && handleFree then m.(state := s.(players := s.players + [Recruit(cfg)])) else m
    case Night => if m.day == e.now / DAY then n == m else SleptOn(m, n, numsec, cfg, e.now)
    case _ => true
  }

  /** One night: the housekeeping, and then the factions' turn. */
  ghost predicate SleptOn(m: Moment, n: Moment, numsec: int, cfg: Config, now: Time)
    requires cfg.costFighter > 0
  {
    && n == m.(state := n.state, day := now / DAY, cabal := n.cabal, renegades := n.renegades)
    && exists eve: State :: && Eve(m.state, eve, cfg, now) && Roused(eve, cfg, now, m.cabal, n.cabal, n.renegades)
                            && FactionNight(eve, n.state, numsec, cfg, m.chart, now, n.cabal, n.renegades)
  }

  /** What serving an event comes to. */
  ghost predicate Answered(m: Moment, n: Moment, numsec: int, cfg: Config, e: Event)
    requires cfg.costFighter > 0
  {
    var c := e.command;
    if !Given(m.state.players, c) then n == m
    else if c.IsFight() then n == m.(state := n.state) && FightFought(m.state, n.state, cfg, m.chart, e)
    else if c.IsPlacement() then
      n == m.(state := n.state, chart := n.chart) && PlacementMade(m.state, n.state, m.chart, n.chart, cfg, e)
    else if c.IsTrade() then n == m.(state := n.state) && DealMade(m.state, n.state, e)
    else Attended(m, n, numsec, cfg, e)
  }
}
