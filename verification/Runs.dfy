/** Whole runs: commands served one after another by the single writer (actor.go). */
module Runs {
  import opened Goods
  import opened Entities
  import opened Worlds
  import opened Sessions
  import opened Fights
  import opened Garrisons
  import opened Ledger
  import opened Commands
  import opened Combat
  import opened Invasion
  import opened Fleets
  import opened Holdings
  import opened PlanetCommands
  import opened Rewiring
  import opened Commodities
  import opened Trading
  import opened Fortunes
  import opened Factions
  import opened Maintenance
  import opened News
  import opened Sectors
  import opened Links
  import opened Routing
  import opened Graphs
  import opened Orders

  /** A port's stocks are among all the ports'. */
  lemma StocksOf(ports: seq<Port>, port: Port)
    requires port in ports
    ensures (set c | c in port.goods) <= Stocks(ports)
  {
    var i :| 0 <= i < |ports| && ports[i] == port;
    forall c | c in port.goods ensures c in Stocks(ports) {
      var j :| 0 <= j < |port.goods| && port.goods[j] == c;
      assert ports[i].goods[j] == c;
    }
  }

  /** The same ship in the same place in the same repair: nothing aboard is missing but turns, and no credits are. */
  ghost predicate Unscathed(before: Player, after: Player) {
    && after == before.(inv := after.inv, bankedTurns := after.bankedTurns, bank := after.bank)
    && (forall g :: g != Turns ==> after.Has(g) == before.Has(g))
    && after.bank >= before.bank
  }

  lemma UnscathedOn(a: Player, b: Player, c: Player)
    requires Unscathed(a, b) && Unscathed(b, c)
    ensures Unscathed(a, c)
  {
  }

  /** A living trader in Federation space. */
  predicate Docked(p: Player) {
    !p.IsNpc() && !p.IsDead() && p.InFedSpace()
  }

  /** Whether the event is the player's own doing, or the night the player is repossessed for absence. */
  predicate Concerns(e: Event, i: PlayerId, p: Player, cfg: Config) {
    if e.command.Night? then Overdue(p, cfg, e.now) else e.command.ByPlayer() && e.command.who == i
  }

  /** One event: the list of players only grows, and nobody in dock whom it does not concern is any worse off. */
  ghost predicate Stepped(s: State, t: State, cfg: Config, e: Event) {
    && |s.players| <= |t.players|
    && (forall i: nat :: i < |s.players| ==> t.players[i].kind == s.players[i].kind)
    && (forall i: nat :: i < |s.players| && Docked(s.players[i]) && !Concerns(e, i, s.players[i], cfg) ==>
          Unscathed(s.players[i], t.players[i]))
  }

  lemma StandStill(s: State, cfg: Config, e: Event)
    ensures Stepped(s, s, cfg, e)
  {
  }

  lemma OthersKept(s: State, t: State, who: set<PlayerId>, cfg: Config, e: Event)
    requires KeptBut(s.players, t.players, who) && e.command.ByPlayer()
    requires forall i: nat :: i in who && i < |s.players| && Docked(s.players[i]) ==> i == e.command.who
    ensures Stepped(s, t, cfg, e)
  {
  }

  lemma OwnShipOnly(s: State, t: State, cfg: Config, e: Event)
    requires e.command.ByPlayer() && e.command.who < |s.players| == |t.players|
    requires t.players == s.players[e.command.who := t.players[e.command.who]]
    requires t.players[e.command.who].kind == s.players[e.command.who].kind
    ensures Stepped(s, t, cfg, e)
  {
  }

  /** There are no more fighters or mines in the world than there were. */
  ghost predicate NoMoreForces(s: State, t: State) {
    Total(t, Fighters) <= Total(s, Fighters) && Total(t, Mines) <= Total(s, Mines)
  }

  lemma WornForcesOnly(s: State, t: State, who: set<PlayerId>, where: set<int>)
    requires Worn(s, t, who, where)
    ensures NoMoreForces(s, t) && KeptBut(s.players, t.players, who)
  {
  }

  /** An attack, from the moment before its turn is paid. */
  lemma AttackKeeps(s: State, t: State, numsec: int, cfg: Config, e: Event)
    requires SoundState(s, numsec) && e.command.Attack? && e.command.who < |s.players|
    requires AttackRefusal(s.players, cfg, e.command.who, e.command.target, e.command.commit, e.now).NoError?
    requires Melee(Charged(s, e.command.who), t, e.command.who, e.command.target, cfg.maxHolds, e.now)
    ensures Stepped(s, t, cfg, e) && NoMoreForces(s, t)
  {
    hide Fought, Melee, Total, AttackRefusal, SoundState, NoMoreForces, Stepped;
    var a, b, u := e.command.who, e.command.target, Charged(s, e.command.who);
    assert !Docked(s.players[b]);
    MeleeCounts(u, t, a, b, cfg.maxHolds, e.now);
    ChargeCounts(s, a);
    NeverMore(s, u, t);
    assert KeptBut(s.players, t.players, {a, b});
    OthersKept(s, t, {a, b}, cfg, e);
  }

  lemma ChargeCounts(s: State, p: PlayerId)
    requires p < |s.players|
    ensures NoMoreForces(s, Charged(s, p))
  {
    hide Total;
    ShipTotal(s, p, TurnSpent(s.players[p]), Fighters);
    ShipTotal(s, p, TurnSpent(s.players[p]), Mines);
  }

  lemma MeleeCounts(s: State, t: State, a: PlayerId, b: PlayerId, cap: nat, now: Time)
    requires Melee(s, t, a, b, cap, now)
    ensures KeptBut(s.players, t.players, {a, b}) && NoMoreForces(s, t)
  {
    assert forall p: nat :: p in {a, b} ==> t.players[p].Has(Fighters) <= s.players[p].Has(Fighters) && t.players[p].Has(Mines) <= s.players[p].Has(Mines);
    hide Fought, Total;
    FightsCreateNothing(s, t, {a, b}, Fighters);
    FightsCreateNothing(s, t, {a, b}, Mines);
  }

  lemma NoForcesMade(s: State)
    ensures NoMoreForces(s, s)
  {
  }

  method Fight(w: World, e: Event)
    requires w.Valid() && Charted(w.sectors) && |w.sectors| < MAX_INT && e.command.IsFight() && Given(w.players, e.command)
    modifies w`players, w`planets, w`bgs, w`clamped
    ensures w.Valid() && Stepped(old(w.View()), w.View(), w.cfg, e) && NoMoreForces(old(w.View()), w.View())
    ensures FightFought(old(w.View()), w.View(), w.cfg, ChartOf(w.sectors), e)
  {
    hide SoundState, Manned, Worn, Melee, Stepped, NoMoreForces, Charted, ChartOf, KeptBut, Fought, Exposed, Invaded, Cleared, Total;
    hide AllClear, ForcesWorn, LaunchRefusal, AttackRefusal, MoveRefusal, InvadeRefusal, Returned, Contested, Attacked, Crossed;
    hide StruckAlong, SeenOff, Unopposed, Joins, Distance, Underway, TurnSpent, Charged, HostileStores, PaidForKill;
    ghost var s := w.View();
    var c := e.command;
    StandStill(s, w.cfg, e);
    NoForcesMade(s);
    match c
    case Move(p, dest) =>
      var err := MovePlayer(w, p, dest, e.now);
      if err.NoError? {
        WornForcesOnly(s, w.View(), {p}, {dest});
        OthersKept(s, w.View(), {p}, w.cfg, e);
      }
    case Attack(p, target, commit) =>
      var err := AttackPlayer(w, p, target, commit, e.now);
      if err.NoError? {
        AttackKeeps(s, w.View(), w.numsec, w.cfg, e);
        MeleeSeats(Charged(s, p), w.View(), p, target, w.cfg.maxHolds, e.now);
      }
    case Invade(p, commit) =>
      var err, outcome := InvadePlanet(w, p, commit, e.now);
      if err.NoError? {
        OthersKept(s, w.View(), {p}, w.cfg, e);
        Counted(s, w.View());
      }
    case Launch(p, target, ships) =>
      var err, survivors;
      ghost var path;
      err, survivors, path := LaunchBattleGroup(w, p, target, ships, e.now);
      if err.NoError? {
        NobodyDocked(s.players, p);
        OthersKept(s, w.View(), Exposed(s.players, p) + {p}, w.cfg, e);
        Counted(s, w.View());
        assert StruckBy(s, w.View(), w.cfg, ChartOf(w.sectors), p, target, path, ships, survivors, e.now);
      }
    case _ =>
  }

  lemma Counted(s: State, t: State)
    requires Total(t, Fighters) <= Total(s, Fighters) && Total(t, Mines) <= Total(s, Mines)
    ensures NoMoreForces(s, t)
  {
  }

  lemma NobodyDocked(players: seq<Player>, p: PlayerId)
    ensures forall i: nat :: i in Exposed(players, p) + {p} && i < |players| && Docked(players[i]) ==> i == p
  {
  }

  /** Placing things about the sector, always where the ship is. */
  method Place(w: World, e: Event)
    requires w.Valid() && Charted(w.sectors) && e.command.IsPlacement() && Given(w.players, e.command)
    modifies w`players, w`planets, w`bgs, w`clamped, set s | s in w.sectors
    ensures w.Valid() && Stepped(old(w.View()), w.View(), w.cfg, e)
    ensures Charted(w.sectors) && (Tidy(old(ChartOf(w.sectors))) ==> Tidy(ChartOf(w.sectors)))
    ensures PlacementMade(old(w.View()), w.View(), old(ChartOf(w.sectors)), ChartOf(w.sectors), w.cfg, e)
  {
    hide SoundState, Manned, Stepped, Charted, Tidy, ChartOf, TwoWay, WorthKept, Rewired, PlasmaRefusal, DeployRefusal, GenesisRefusal, Deployed;
    hide ProvisionMade, NewPlanet, Adjusted;
    ghost var s := w.View();
    var c := e.command;
    StandStill(s, w.cfg, e);
    if c.Deploy? {
      var err := AdjustBattlegroup(w, c.who, w.players[c.who].sector, c.kind, c.amount);
      if err.NoError? {
        DeployedShip(s, w.View(), c.who, s.players[c.who].sector, c.kind, c.amount);
        OwnShipOnly(s, w.View(), w.cfg, e);
      }
    } else if c.Create? {
      var err := UseGenesisDevice(w, c.who, w.players[c.who].sector, c.name, c.nameOk);
      if err.NoError? {
        OwnShipOnly(s, w.View(), w.cfg, e);
      }
    } else if c.Rewire? {
      ghost var g := ChartOf(w.sectors);
      var err := UsePlasma(w, c.who, c.link, c.target);
      StillTidy(g, ChartOf(w.sectors), w.cfg.maxWarps);
      if err.NoError? {
        OwnShipOnly(s, w.View(), w.cfg, e);
      }
    } else {
      Provision(w, e);
    }
  }

  lemma StillTidy(g: Chart, h: Chart, maxWarps: nat)
    requires Rewired(g, h, maxWarps)
    ensures Tidy(g) ==> Tidy(h)
  {
  }

  lemma DeployedShip(s: State, t: State, p: PlayerId, sector: nat, kind: Good, amount: nat)
    requires Deployed(s, t, p, sector, kind, amount)
    ensures |t.players| == |s.players| && t.players == s.players[p := t.players[p]] && t.players[p].kind == s.players[p].kind
  {
  }

  /** Business with the planet here. */
  method Provision(w: World, e: Event)
    requires w.Valid() && Given(w.players, e.command)
    requires e.command.Store? || e.command.Fetch? || e.command.Unload? || e.command.Bomb? || e.command.BombFromOrbit?
    modifies w`players, w`planets, w`bgs, w`clamped
    ensures w.Valid() && Stepped(old(w.View()), w.View(), w.cfg, e) && ProvisionMade(old(w.View()), w.View(), e)
  {
    hide SoundState, Manned, Stepped, WorthKept, LandingRefusal, LoadingRefusal, PulsarRefusal, TubeRefusal, OwnershipError, PlanetIn, FreeHolds;
    ghost var s := w.View();
    StandStill(s, w.cfg, e);
    var err;
    match e.command
    case Store(p, good, amount) =>
      err := TransferSet(w, p, w.players[p].sector, good, amount);
      if err.NoError? { OwnShipOnly(s, w.View(), w.cfg, e); }
    case Fetch(p, good, amount) =>
      err := TransferOut(w, p, w.players[p].sector, good, amount);
      if err.NoError? { OwnShipOnly(s, w.View(), w.cfg, e); }
    case Unload(p) =>
      err := TransferIn(w, p, w.players[p].sector);
      if err.NoError? { OwnShipOnly(s, w.View(), w.cfg, e); }
    case Bomb(p, bombs) =>
      err := UsePulsar(w, p, bombs);
      if err.NoError? { OwnShipOnly(s, w.View(), w.cfg, e); }
    case BombFromOrbit(p, bombs) =>
      err := UsePulsarTube(w, p, bombs);
      if err.NoError? { OwnShipOnly(s, w.View(), w.cfg, e); }
    case _ =>
  }

  method Trade(w: World, ghost ports: seq<Port>, e: Event)
    requires w.Valid() && e.command.IsTrade() && Given(w.players, e.command) && e.command.WellFormed(ports)
    modifies w`players, w`clamped, Stocks(ports)
    ensures w.Valid() && Stepped(old(w.View()), w.View(), w.cfg, e) && DealMade(old(w.View()), w.View(), e)
    ensures e.command.Buy? ==>
              Bought(old(w.View()), w.View(), e.command.who, e.command.good, e.command.quantity, old(Asked(e.command.port, e.command.good)))
    ensures e.command.Sell? ==>
              Sold(old(w.View()), w.View(), e.command.who, e.command.good, e.command.quantity, old(Offered(e.command.port, e.command.good)))
  {
    hide SoundState, Manned, Stepped, LotPrice, AfterDeal, SystemDown, TurnSpent, HasTurn, Polled, EffectiveSell, EffectiveBuy, Bought, Sold, Asked, Offered;
    ghost var s := w.View();
    var c := e.command;
    StandStill(s, w.cfg, e);
    if !c.BuyGear? {
      StocksOf(ports, c.port);
    }
    if c.Buy? {
      Purchase(w, e);
    } else if c.Sell? {
      Sale(w, e);
    } else if c.BuyGear? {
      var err := TradeBuyNoLimit(w, c.who, c.good, c.unit, c.quantity);
      if err.NoError? {
        DealtKind(s.players[c.who], c.good, 0 - LotPrice(c.unit, c.quantity), c.quantity);
        OwnShipOnly(s, w.View(), w.cfg, e);
      }
    } else {
      var err := Dock(w, c.who, c.port, e.now);
      SpentKind(s.players[c.who]);
      if w.View() != s { OwnShipOnly(s, w.View(), w.cfg, e); }
    }
  }

  lemma DealtKind(p: Player, g: Good, credits: int, goods: int)
    requires p.money + credits >= 0
    ensures AfterDeal(p, g, credits, goods).kind == p.kind
  {
  }

  lemma SpentKind(p: Player)
    ensures TurnSpent(p).kind == p.kind
  {
  }

  method Purchase(w: World, e: Event)
    requires w.Valid() && e.command.Buy? && Given(w.players, e.command) && e.command.port.Valid()
    modifies w`players, w`clamped, set c | c in e.command.port.goods
    ensures w.Valid() && Stepped(old(w.View()), w.View(), w.cfg, e) && DealMade(old(w.View()), w.View(), e)
    ensures e.command.Buy? ==>
              Bought(old(w.View()), w.View(), e.command.who, e.command.good, e.command.quantity, old(Asked(e.command.port, e.command.good)))
  {
    hide SoundState, Manned, Stepped, Covers, LotPrice, EffectiveSell, EffectiveBuy, BuyRefusal, FreeHolds, AfterDeal;
    ghost var s := w.View();
    var c := e.command;
    StandStill(s, w.cfg, e);
    ghost var quote := Asked(c.port, c.good);
    var err := TradeBuy(w, c.who, c.port, c.good, c.quantity);
    if err.NoError? {
      DealtKind(s.players[c.who], c.good, 0 - LotPrice(quote.unit, c.quantity), c.quantity);
      OwnShipOnly(s, w.View(), w.cfg, e);
    }
    assert Bought(s, w.View(), c.who, c.good, c.quantity, quote);
  }

  method Sale(w: World, e: Event)
    requires w.Valid() && e.command.Sell? && Given(w.players, e.command) && e.command.port.Valid()
    modifies w`players, w`clamped, set c | c in e.command.port.goods
    ensures w.Valid() && Stepped(old(w.View()), w.View(), w.cfg, e) && DealMade(old(w.View()), w.View(), e)
    ensures e.command.Sell? ==>
              Sold(old(w.View()), w.View(), e.command.who, e.command.good, e.command.quantity, old(Offered(e.command.port, e.command.good)))
  {
    hide SoundState, Manned, Stepped, Covers, LotPrice, EffectiveSell, EffectiveBuy, SellRefusal, FreeHolds, AfterDeal;
    ghost var s := w.View();
    var c := e.command;
    StandStill(s, w.cfg, e);
    ghost var quote := Offered(c.port, c.good);
    var err := TradeSell(w, c.who, c.port, c.good, c.quantity);
    if err.NoError? {
      DealtKind(s.players[c.who], c.good, LotPrice(quote.unit, c.quantity), 0 - c.quantity);
      OwnShipOnly(s, w.View(), w.cfg, e);
    }
    assert Sold(s, w.View(), c.who, c.good, c.quantity, quote);
  }

  method Attend(w: World, ports: seq<Port>, board: Board, e: Event)
    requires w.Valid() && Charted(w.sectors) && |w.sectors| < MAX_INT && w.cfg.costFighter > 0 && Given(w.players, e.command)
    requires !e.command.IsFight() && !e.command.IsPlacement() && !e.command.IsTrade()
    requires Separate(ports) && board.Valid()
    modifies w, Stocks(ports), board`hi, board.buf
    ensures board.Valid()
    ensures w.Valid() && Stepped(old(w.View()), w.View(), w.cfg, e)
    ensures Attended(old(Now(w)), Now(w), w.numsec, w.cfg, e)
  {
    hide SoundState, Manned, Stepped, Charted, ChartOf, Welcomed, Recruit, SleptOn, Banked, TotalDamage, Polled;
    ghost var s := w.View();
    var c := e.command;
    StandStill(s, w.cfg, e);
    if c.Night? {
      Nightfall(w, ports, board, e);
    } else if c.Arrive? {
      var rebuilt := Login(w, c.who, e.now);
      OwnShipOnly(s, w.View(), w.cfg, e);
    } else if c.Register? {
      var err, p := RegisterPlayer(w, c.handleOk, c.handleFree);
      if err.NoError? { Joined(s, w.View(), w.cfg, e); }
    } else {
      Till(w, e);
    }
  }

  /** Business at Sol. */
  method Till(w: World, e: Event)
    requires w.Valid() && Given(w.players, e.command) && w.cfg.costFighter > 0
    requires e.command.Deposit? || e.command.Withdraw? || e.command.Repair?
    modifies w`players, w`clamped
    ensures w.Valid() && Stepped(old(w.View()), w.View(), w.cfg, e)
    ensures Attended(old(Now(w)), Now(w), w.numsec, w.cfg, e)
  {
    hide SoundState, Manned, Stepped, ChartOf, WorthKept, TotalDamage;
    ghost var s := w.View();
    var c := e.command;
    StandStill(s, w.cfg, e);
    var err;
    if c.Deposit? {
      err := BankDeposit(w, c.who, c.credits);
    } else if c.Withdraw? {
      err := BankWithdraw(w, c.who, c.credits);
    } else {
      err := SolRepair(w, c.who);
    }
    if err.NoError? { OwnShipOnly(s, w.View(), w.cfg, e); }
  }

  method Nightfall(w: World, ports: seq<Port>, board: Board, e: Event)
    requires w.Valid() && Charted(w.sectors) && |w.sectors| < MAX_INT && w.cfg.costFighter > 0 && e.command.Night?
    requires Separate(ports) && board.Valid()
    modifies w, Stocks(ports), board`hi, board.buf
    ensures w.Valid() && board.Valid() && Stepped(old(w.View()), w.View(), w.cfg, e)
    ensures var m := old(Now(w)); if m.day == e.now / DAY then Now(w) == m else SleptOn(m, Now(w), w.numsec, w.cfg, e.now)
  {
    hide SoundState, Manned, Stepped, Charted, ChartOf, Eve, NotRicher, NightOver, Protected, Roused, FactionNight, Polled;
    ghost var s := w.View();
    StandStill(s, w.cfg, e);
    var ran;
    ghost var eve;
    ran, eve := RunDailyMaintenance(w, ports, board, e.now);
    if ran { Slept(s, w.View(), w.cfg, e); }
  }

  lemma Joined(s: State, t: State, cfg: Config, e: Event)
    requires |t.players| == |s.players| + 1 && t.players == s.players + [t.players[|s.players|]]
    ensures Stepped(s, t, cfg, e)
  {
  }

  lemma Slept(s: State, t: State, cfg: Config, e: Event)
    requires e.command.Night? && |s.players| <= |t.players|
    requires forall i: nat :: i < |s.players| && SafeInDock(s.players[i], cfg, e.now) ==> NightOver(s.players[i], t.players[i], cfg)
    requires forall k: nat :: k < |t.players| ==>
               if k < |s.players| then t.players[k].kind == s.players[k].kind else t.players[k].IsNpc()
    ensures Stepped(s, t, cfg, e)
  {
  }

  /** Serve one event; a command without a giver is never issued, and does nothing. */
  method Serve(w: World, ports: seq<Port>, board: Board, e: Event)
    requires w.Valid() && Charted(w.sectors) && |w.sectors| < MAX_INT && w.cfg.costFighter > 0
    requires e.command.WellFormed(ports) && Separate(ports) && board.Valid()
    modifies w, (set s | s in w.sectors), Stocks(ports), board`hi, board.buf
    ensures e.command.Buy? && old(Given(w.players, e.command)) ==>
              Bought(old(w.View()), w.View(), e.command.who, e.command.good, e.command.quantity, old(Asked(e.command.port, e.command.good)))
    ensures e.command.Sell? && old(Given(w.players, e.command)) ==>
              Sold(old(w.View()), w.View(), e.command.who, e.command.good, e.command.quantity, old(Offered(e.command.port, e.command.good)))
    ensures board.Valid()
    ensures w.Valid() && Charted(w.sectors) && (Tidy(old(ChartOf(w.sectors))) ==> Tidy(ChartOf(w.sectors)))
    ensures Stepped(old(w.View()), w.View(), w.cfg, e)
    ensures e.command.IsFight() ==> NoMoreForces(old(w.View()), w.View())
    ensures Answered(old(Now(w)), Now(w), w.numsec, w.cfg, e)
  {
    hide SoundState, Manned, Stepped, NoMoreForces, Charted, Tidy, ChartOf, FightFought, PlacementMade, DealMade, Attended, Bought, Sold, Asked, Offered;
    StandStill(w.View(), w.cfg, e);
    NoForcesMade(w.View());
    if !Given(w.players, e.command) {
      return;
    }
    if e.command.IsFight() {
      Fight(w, e);
    } else if e.command.IsPlacement() {
      Place(w, e);
    } else if e.command.IsTrade() {
      Trade(w, ports, e);
    } else {
      Attend(w, ports, board, e);
    }
  }

  /**
    * Any run of any commands and nights keeps the world valid, so no quantity or purse was ever clamped. A living
    * trader who stayed in Federation space has the same ship in the same place and in the same repair, whatever
    * everyone else did, unless repossessed for absence. And a run of nothing but fighting leaves no more fighters
    * or mines in the world than it started with.
    */
  method Run(w: World, ports: seq<Port>, board: Board, events: seq<Event>) returns (ghost trace: seq<Moment>)
    requires w.Valid() && Charted(w.sectors) && |w.sectors| < MAX_INT && w.cfg.costFighter > 0
    requires (forall e :: e in events ==> e.command.WellFormed(ports)) && Separate(ports) && board.Valid()
    modifies w, (set s | s in w.sectors), Stocks(ports), board`hi, board.buf
    ensures board.Valid()
    ensures w.Valid() && Charted(w.sectors) && (Tidy(old(ChartOf(w.sectors))) ==> Tidy(ChartOf(w.sectors)))
    ensures |old(w.players)| <= |w.players|
    ensures forall i: nat :: i < |old(w.players)| && Docked(old(w.players)[i])
                             && (forall e :: e in events ==> !Concerns(e, i, old(w.players)[i], w.cfg)) ==>
              Unscathed(old(w.players)[i], w.players[i])
    ensures (forall e :: e in events ==> e.command.IsFight()) ==> NoMoreForces(old(w.View()), w.View())
    ensures |trace| == |events| + 1 && trace[0] == old(Now(w)) && trace[|events|] == Now(w)
    ensures forall n :: 0 <= n < |events| ==> Answered(trace[n], trace[n + 1], w.numsec, w.cfg, events[n])
  {
    hide SoundState, Manned, Stepped, NoMoreForces, Unscathed, Charted, Tidy, ChartOf, Answered;
    ghost var s := w.View();
    trace := [Now(w)];
    Untouched(s, w.cfg);
    NoForcesMade(s);
    for n := 0 to |events|
      invariant w.Valid() && board.Valid() && Charted(w.sectors) && (Tidy(old(ChartOf(w.sectors))) ==> Tidy(ChartOf(w.sectors)))
      invariant SafeSoFar(s, w.View(), w.cfg, events[..n])
      invariant (forall e :: e in events ==> e.command.IsFight()) ==> NoMoreForces(s, w.View())
      invariant |trace| == n + 1 && trace[0] == old(Now(w)) && trace[n] == Now(w)
      invariant forall k :: 0 <= k < n ==> Answered(trace[k], trace[k + 1], w.numsec, w.cfg, events[k])
    {
      ghost var t := w.View();
      assert events[n] in events;
      Serve(w, ports, board, events[n]);
      trace := trace + [Now(w)];
      SafeStill(s, t, w.View(), w.cfg, events, n);
      if forall e :: e in events ==> e.command.IsFight() {
        NeverMore(s, t, w.View());
      }
    }
    assert events[..|events|] == events;
  }

  /** Everyone in dock at the start whom none of these events concerned is unscathed. */
  ghost predicate SafeSoFar(s: State, t: State, cfg: Config, events: seq<Event>) {
    && |s.players| <= |t.players|
    && forall i: nat :: i < |s.players| && Docked(s.players[i]) && (forall e :: e in events ==> !Concerns(e, i, s.players[i], cfg)) ==>
         Unscathed(s.players[i], t.players[i])
  }

  lemma Untouched(s: State, cfg: Config)
    ensures SafeSoFar(s, s, cfg, [])
  {
  }

  lemma SafeStill(s: State, t: State, u: State, cfg: Config, events: seq<Event>, n: nat)
    requires n < |events| && SafeSoFar(s, t, cfg, events[..n]) && Stepped(t, u, cfg, events[n])
    ensures SafeSoFar(s, u, cfg, events[..n + 1])
  {
    assert events[..n + 1] == events[..n] + [events[n]];
    forall i: nat | i < |s.players| && Docked(s.players[i]) && (forall e :: e in events[..n + 1] ==> !Concerns(e, i, s.players[i], cfg))
      ensures Unscathed(s.players[i], u.players[i])
    {
      assert forall e :: e in events[..n] ==> e in events[..n + 1];
      assert events[n] in events[..n + 1];
      assert Unscathed(s.players[i], t.players[i]);
      StillDocked(s.players[i], t.players[i], cfg, events[n].now);
      assert !Concerns(events[n], i, s.players[i], cfg);
      assert !Concerns(events[n], i, t.players[i], cfg);
      UnscathedOn(s.players[i], t.players[i], u.players[i]);
    }
  }

  lemma StillDocked(before: Player, after: Player, cfg: Config, now: int)
    requires Unscathed(before, after)
    ensures Docked(after) == Docked(before) && Overdue(after, cfg, now) == Overdue(before, cfg, now)
  {
  }

  lemma NeverMore(s: State, t: State, u: State)
    requires NoMoreForces(s, t) && NoMoreForces(t, u)
    ensures NoMoreForces(s, u)
  {
  }
}
