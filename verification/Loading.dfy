/** Loading a stored universe: regrouping, upgrading and checking it (store.go:383-623, universe.go:209-283). */
module Loading {
  import opened Sectors
  import opened Links
  import opened Snapshots
  import opened Upgrades

  // ----- What is checked

  predicate OnMap(n: nat, sector: int) {
    1 <= sector < n
  }

  /** Sectors are there, warps lead to them, and ports, planets and defense forces stand in them. */
  ghost predicate Acceptable(u: Universe) {
    && ValidChart(u.warps)
    && (forall p :: p in u.ports ==> OnMap(|u.warps|, p.place.sector))
    && (forall p :: p in u.planets ==> OnMap(|u.warps|, p.place.sector))
    && (forall b :: b in u.battlegroups ==> OnMap(|u.warps|, b.place.sector))
  }

  /** A ship off the map, but for the parking lot of the dead, is brought to Sol. */
  function Rescued(n: nat, p: PlayerRecord): PlayerRecord {
    if 0 <= p.card.sector < n then p else p.(card := p.card.(sector := 1))
  }

  function Rehomed(u: Universe): (r: Universe)
    ensures r == u.(players := r.players) && |r.players| == |u.players|
    ensures forall i :: 0 <= i < |r.players| ==> r.players[i] == Rescued(|u.warps|, u.players[i])
  {
    u.(players := seq(|u.players|, i requires 0 <= i < |u.players| => Rescued(|u.warps|, u.players[i])))
  }

  /** Once rehomed, every ship is on the map or among the dead; only a ship that was not has moved, and it is at Sol. */
  lemma AllAshore(u: Universe, i: nat)
    requires Acceptable(u) && i < |u.players|
    ensures var ship, home := u.players[i].card, Rehomed(u).players[i].card;
            && (home.sector == 0 || OnMap(|u.warps|, home.sector)) && home == ship.(sector := home.sector)
            && (home.sector != ship.sector ==> home.sector == 1 && ship.sector != 0 && !OnMap(|u.warps|, ship.sector))
  {
  }

  method CheckPlaces(n: nat, holdings: seq<Holding>) returns (ok: bool)
    ensures ok <==> forall h :: h in holdings ==> OnMap(n, h.place.sector)
  {
    for i := 0 to |holdings|
      invariant forall k :: 0 <= k < i ==> OnMap(n, holdings[k].place.sector)
    {
      if !OnMap(n, holdings[i].place.sector) {
        assert holdings[i] in holdings;
        return false;
      }
    }
    return true;
  }

  method CheckWarps(g: Chart) returns (ok: bool)
    ensures ok <==> ValidChart(g)
  {
    if |g| < 2 {
      return false;
    }
    for i := 0 to |g|
      invariant forall k, w :: 0 <= k < i && w in g[k] ==> 1 <= w < |g|
    {
      for j := 0 to |g[i]|
        invariant forall k :: 0 <= k < j ==> 1 <= g[i][k] < |g|
      {
        if !OnMap(|g|, g[i][j]) {
          assert g[i][j] in g[i];
          return false;
        }
      }
    }
    return true;
  }

  /** Refuses what may not be played, and forgives ships that are off the map. */
  method Validate(u: Universe) returns (ok: bool, v: Universe)
    ensures ok <==> Acceptable(u)
    ensures ok ==> v == Rehomed(u)
  {
    v := u;
    ok := CheckWarps(u.warps);
    if !ok { return; }
    ok := CheckPlaces(|u.warps|, u.ports);
    if !ok { return; }
    ok := CheckPlaces(|u.warps|, u.planets);
    if !ok { return; }
    ok := CheckPlaces(|u.warps|, u.battlegroups);
    if !ok { return; }
    var players: seq<PlayerRecord> := [];
    for i := 0 to |u.players|
      invariant |players| == i && forall k :: 0 <= k < i ==> players[k] == Rescued(|u.warps|, u.players[k])
    {
      var p := u.players[i];
      if p.card.sector < 0 || p.card.sector > |u.warps| - 1 {
        p := p.(card := p.card.(sector := 1));
      }
      players := players + [p];
    }
    v := u.(players := players);
  }

  // ----- Loading

  datatype Outcome = Fresh | Refused | Loaded(u: Universe)

  /** The rows name sectors by their positions, and no warp leaves from nowhere. */
  ghost predicate WellNumbered(t: Tables) {
    && (forall i :: 0 <= i < |t.sectors| ==> t.sectors[i].value == i)
    && forall i :: 0 <= i < |t.warps| ==> t.warps[i].key < |t.sectors|
  }

  /** An empty store is fresh; anything else is regrouped, upgraded and checked. */
  ghost function Load(t: Tables, turnsPerDay: int): Outcome {
    if t.sectors == [] then Fresh
    else if WellNumbered(t) && Acceptable(Upgraded(Rebuilt(t), turnsPerDay)) then Loaded(Rehomed(Upgraded(Rebuilt(t), turnsPerDay)))
    else Refused
  }

  method LoadUniverse(t: Tables, turnsPerDay: int) returns (r: Outcome)
    ensures r == Load(t, turnsPerDay)
  {
    hide Upgraded, Rebuilt, Acceptable;
    if |t.sectors| == 0 {
      return Fresh;
    }
    var regrouped, u := Rebuild(t);
    if !regrouped {
      return Refused;
    }
    var v := Upgrade(u, turnsPerDay);
    for i := 0 to |t.sectors|
      invariant forall k :: 0 <= k < i ==> t.sectors[k].value == k
    {
      if t.sectors[i].value != i {
        return Refused;
      }
    }
    var ok;
    ok, v := Validate(v);
    return if ok then Loaded(v) else Refused;
  }

  // ----- Saved and loaded

  /** Damage counters a save and a load carry over as an upgrade would: all six, or none that is not zero. */
  predicate Carried(systems: seq<nat>) {
    |systems| == Snapshots.SYSTEMS || Fitted(systems) == Fitted([])
  }

  /** Loading carries one player's damage over as an upgrade would exactly in those cases. */
  lemma OneCarried(p: PlayerRecord, turnsPerDay: int, moved: bool)
    ensures UpgradedPlayer(p.(systems := Fitted(p.systems)), turnsPerDay, moved) == UpgradedPlayer(p, turnsPerDay, moved) <==> Carried(p.systems)
  {
    hide ToppedUp;
  }

  /**
    * Saved, read back in any order and loaded, a universe is what upgrading it would have made it exactly when every
    * ship's damage list has six counters, or none that is not zero among its first six, and every warp list is in order.
    */
  lemma LoadedIsUpgraded(u: Universe, t: Tables, turnsPerDay: int)
    requires KeysHold(Flat(u)) && Reads(Flat(u), t)
    ensures Upgraded(Rebuilt(t), turnsPerDay) == Upgraded(u, turnsPerDay)
            <==> (forall p :: p in u.players ==> Carried(p.systems)) && (forall i :: 0 <= i < |u.warps| ==> Sorted(u.warps[i]))
  {
    hide Rebuilt, Reads, Flat, KeysHold, Carried, UpgradedPlayer, Fitted, WithBank, WithDevices, UpgradedPorts, UpgradedPlanets;
    RoundTrip(u, t);
    StorableExactly(u);
    var v, moved := Rebuilt(t), !MarkedMoved(u.config);
    SameWarps(u.warps);
    SamePlayers(u.players, turnsPerDay, moved);
    assert v.players == SixSystems(u.players) && v.ports == u.ports && v.planets == u.planets && v.config == u.config;
    assert |v.warps| == |u.warps|;
  }

  lemma SameWarps(g: Chart)
    requires forall i :: 0 <= i < |g| ==> NoRepeats(g[i])
    ensures InOrder(g) == g <==> forall i :: 0 <= i < |g| ==> Sorted(g[i])
  {
    forall i | 0 <= i < |g| ensures InOrder(g)[i] == g[i] <==> Sorted(g[i]) {
      SortedOnce(g[i]);
    }
    hide Sorted, SortInts;
    if forall i :: 0 <= i < |g| ==> Sorted(g[i]) {
      assert forall i :: 0 <= i < |g| ==> InOrder(g)[i] == g[i];
    }
  }

  lemma SamePlayers(players: seq<PlayerRecord>, turnsPerDay: int, moved: bool)
    ensures UpgradedPlayers(SixSystems(players), turnsPerDay, moved) == UpgradedPlayers(players, turnsPerDay, moved)
            <==> forall p :: p in players ==> Carried(p.systems)
  {
    var a, b := UpgradedPlayers(SixSystems(players), turnsPerDay, moved), UpgradedPlayers(players, turnsPerDay, moved);
    forall i | 0 <= i < |players| ensures a[i] == b[i] <==> Carried(players[i].systems) {
      OneCarried(players[i], turnsPerDay, moved);
    }
    hide Carried, UpgradedPlayer, Fitted;
    if forall p :: p in players ==> Carried(p.systems) {
      assert forall i :: 0 <= i < |players| ==> players[i] in players && a[i] == b[i];
      assert a == b;
    }
  }

  /** A ship with one damaged system on file is repaired by an upgrade, but not by saving and loading. */
  lemma DamageOutlivesLoading(u: Universe, t: Tables, turnsPerDay: int)
    requires KeysHold(Flat(u)) && Reads(Flat(u), t) && |u.players| == 1 && u.players[0].systems == [5]
    ensures Upgraded(Rebuilt(t), turnsPerDay).players[0].systems == [5, 0, 0, 0, 0, 0]
    ensures Upgraded(u, turnsPerDay).players[0].systems == [0, 0, 0, 0, 0, 0]
  {
    hide Rebuilt, Reads, Flat, KeysHold, ToppedUp, WithBank, WithDevices, UpgradedPorts, UpgradedPlanets;
    RoundTrip(u, t);
  }

  // ----- Saved and loaded again

  /** Whatever may be played may be played after an upgrade: new ports are put where there is room for them. */
  lemma StillAcceptable(u: Universe, turnsPerDay: int)
    requires Acceptable(u)
    ensures Acceptable(Upgraded(u, turnsPerDay))
  {
    var n, stocked, planets := |u.warps|, UpgradedPorts(u.ports), UpgradedPlanets(u.planets);
    hide ToppedUp, AllSeeded, PortOfKind, UpgradedPlayers;
    forall h | h in stocked ensures OnMap(n, h.place.sector) {
      var i :| 0 <= i < |stocked| && stocked[i] == h;
      assert u.ports[i] in u.ports;
    }
    forall h | h in planets ensures OnMap(n, h.place.sector) {
      var i :| 0 <= i < |planets| && planets[i] == h;
      assert u.planets[i] in u.planets;
    }
    RoomFor(stocked, n, 2);
    RoomFor(WithDevices(stocked, n), n, 2);
    hide FreeFrom;
    forall h | h in WithDevices(stocked, n) ensures OnMap(n, h.place.sector) {
      var k := PortOfKind(stocked, AMAZING_DEVICES);
      assert k >= 0 ==> stocked[k] in stocked;
    }
  }

  /** A sector found free is on the map. */
  lemma {:induction false} RoomFor(ports: seq<Holding>, n: nat, s: nat)
    ensures FreeFrom(ports, n, s) == 0 || s <= FreeFrom(ports, n, s) < n
    decreases n - s
  {
    if s < n {
      RoomFor(ports, n, s + 1);
    }
  }

  /** A universe that may be played is never refused once it has been saved. */
  lemma NeverRefused(u: Universe, t: Tables, turnsPerDay: int)
    requires KeysHold(Flat(u)) && Reads(Flat(u), t) && Acceptable(u)
    ensures Load(t, turnsPerDay).Loaded?
  {
    hide Rebuilt, Reads, Flat, KeysHold, Upgraded;
    RoundTrip(u, t);
    var w := Rebuilt(t);
    forall i, x | 0 <= i < |w.warps| && x in w.warps[i] ensures 1 <= x < |w.warps| {
      assert x in multiset(w.warps[i]) && x in multiset(u.warps[i]) && x in u.warps[i];
    }
    StillAcceptable(w, turnsPerDay);
  }

  /** What an upgrade leaves is carried over, stays storable, and has its warps where they were. */
  lemma UpgradedCarried(u: Universe, turnsPerDay: int)
    requires Storable(u)
    ensures Storable(Upgraded(u, turnsPerDay)) && Upgraded(u, turnsPerDay).warps == u.warps
    ensures forall p :: p in Upgraded(u, turnsPerDay).players ==> Carried(p.systems)
  {
    hide ToppedUp, WithBank, WithDevices, UpgradedPorts, UpgradedPlanets;
    var v := Upgraded(u, turnsPerDay);
    forall p | p in v.players ensures Carried(p.systems) {
      var i :| 0 <= i < |v.players| && v.players[i] == p;
    }
  }

  /** Ships brought home before an upgrade or after it are the same ships. */
  lemma RehomedUpgraded(u: Universe, turnsPerDay: int)
    ensures Upgraded(Rehomed(u), turnsPerDay) == Rehomed(Upgraded(u, turnsPerDay))
    ensures Rehomed(Rehomed(u)) == Rehomed(u) && (Acceptable(Rehomed(u)) <==> Acceptable(u))
  {
    hide ToppedUp, Fitted, WithBank, WithDevices, UpgradedPorts, UpgradedPlanets;
    var a, b := Upgraded(Rehomed(u), turnsPerDay).players, Rehomed(Upgraded(u, turnsPerDay)).players;
    assert forall i :: 0 <= i < |a| ==> a[i] == b[i];
    assert Rehomed(Rehomed(u)).players == Rehomed(u).players;
  }

  lemma RehomedStorable(u: Universe)
    requires Storable(u) && forall p :: p in u.players ==> Carried(p.systems)
    ensures Storable(Rehomed(u)) && forall p :: p in Rehomed(u).players ==> Carried(p.systems)
  {
    hide Carried;
    var v := Rehomed(u);
    forall p | p in v.players ensures Carried(p.systems) {
      var i :| 0 <= i < |v.players| && v.players[i] == p;
      assert u.players[i] in u.players;
    }
  }

  /** What was rebuilt has its warps in order, and may be stored again. */
  lemma RebuiltStorable(u: Universe, t: Tables)
    requires KeysHold(Flat(u)) && Reads(Flat(u), t)
    ensures Storable(Rebuilt(t)) && Tidy(Rebuilt(t).warps)
  {
    hide Rebuilt, Reads, Flat, KeysHold;
    RoundTrip(u, t);
    StorableExactly(u);
    var w := Rebuilt(t);
    forall i | 0 <= i < |w.warps| ensures Increasing(w.warps[i]) && NoRepeats(w.warps[i]) {
      SortedOnce(u.warps[i]);
    }
  }

  /** Once loaded, a universe may be saved and loaded again and again: it stays exactly what it was. */
  lemma LoadedStays(u: Universe, t: Tables, again: Tables, turnsPerDay: int)
    requires KeysHold(Flat(u)) && Reads(Flat(u), t) && Load(t, turnsPerDay).Loaded?
    ensures var v := Load(t, turnsPerDay).u;
            KeysHold(Flat(v)) && (Reads(Flat(v), again) ==> Load(again, turnsPerDay) == Loaded(v))
  {
    hide Rebuilt, Reads, Flat, KeysHold, Upgraded, Rehomed, Acceptable, Storable, Carried;
    RebuiltStorable(u, t);
    var w := Rebuilt(t);
    var x := Upgraded(w, turnsPerDay);
    var v := Rehomed(x);
    UpgradedCarried(w, turnsPerDay);
    RehomedStorable(x);
    StorableExactly(v);
    if Reads(Flat(v), again) {
      RoundTrip(v, again);
      assert v.warps == w.warps && forall i :: 0 <= i < |w.warps| ==> Sorted(w.warps[i]);
      LoadedIsUpgraded(v, again, turnsPerDay);
      RehomedUpgraded(x, turnsPerDay);
      UpgradeIsIdempotent(w, turnsPerDay);
      assert Upgraded(Rebuilt(again), turnsPerDay) == v;
      assert |again.sectors| == |t.sectors| && again.sectors != [] by { RoundTrip(u, t); }
      assert WellNumbered(again);
      assert Rehomed(v) == v && Acceptable(v);
    }
  }
}
