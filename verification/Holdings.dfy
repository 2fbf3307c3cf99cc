/** Placing and recalling forces, planets and their stores, and the bank (battlegroup.go, planet.go, bank.go). */
module Holdings {
  import opened Goods
  import opened Entities
  import opened Worlds
  import opened Garrisons
  import opened Commands
  import opened Ledger
  import opened Worth

  /** Every player is worth what they were. */
  ghost predicate WorthKept(s: State, t: State, cfg: Config) {
    && |t.players| == |s.players|
    && forall i: nat :: i < |s.players| ==> Value(t, cfg, i) == Value(s, cfg, i)
  }

  // ----- Defense forces

  /** The caller's defense force in the sector; nobody else may defend the same sector. */
  method GetBattlegroup(w: World, p: PlayerId, sector: nat, create: bool) returns (err: Error, k: int)
    requires w.Sound() && Alive(w.players, p) && (create ==> FED_SPACE < sector <= w.numsec)
    modifies w`bgs
    ensures w.Sound()
    ensures err == if OwnerAt(old(w.bgs), sector) in {-1, p as int} then NoError else NotOwner
    ensures !err.NoError? ==> w.bgs == old(w.bgs)
    ensures err.NoError? && OwnerAt(old(w.bgs), sector) == p ==>
              w.bgs == old(w.bgs) && 0 <= k < |w.bgs| && w.bgs[k].sector == sector && w.bgs[k].owner == p
    ensures err.NoError? && OwnerAt(old(w.bgs), sector) == -1 && create ==>
              k == |old(w.bgs)| && w.bgs == old(w.bgs) + [Battlegroup(p, sector, map[])]
    ensures err.NoError? && OwnerAt(old(w.bgs), sector) == -1 && !create ==> k == -1 && w.bgs == old(w.bgs)
  {
    ghost var s := w.View();
    ghost var at := AtSome(w.bgs, sector);
    k := -1;
    var foreign := -1;
    for i := 0 to |w.bgs|
      invariant foreign == -1 || (0 <= foreign < i && w.bgs[foreign].sector == sector && w.bgs[foreign].owner != p)
      invariant foreign == -1 ==> forall j :: 0 <= j < i ==> w.bgs[j].sector != sector
      modifies {}
    {
      if w.bgs[i].sector == sector {
        if w.bgs[i].owner == p {
          return NoError, i;
        }
        if foreign == -1 {
          foreign := i;
        }
      }
    }
    if foreign != -1 {
      return NotOwner, -1;
    }
    err := NoError;
    if create {
      w.bgs := w.bgs + [Battlegroup(p, sector, map[])];
      k := |w.bgs| - 1;
      NewForce(s, w.numsec, p, sector);
    }
  }

  lemma NewForce(s: State, numsec: int, p: PlayerId, sector: nat)
    requires SoundState(s, numsec) && Alive(s.players, p) && FED_SPACE < sector <= numsec
    requires forall j :: 0 <= j < |s.bgs| ==> s.bgs[j].sector != sector
    ensures SoundState(s.(bgs := s.bgs + [Battlegroup(p, sector, map[])]), numsec)
  {
  }

  function DeployRefusal(s: seq<Battlegroup>, ship: Player, p: PlayerId, sector: nat, kind: Good, amount: int): (r: Error)
    ensures r.NoError? <==>
              && amount >= 0 && sector > FED_SPACE && OwnerAt(s, sector) in {-1, p as int}
              && amount <= Qty(At(s, sector), kind) + ship.Has(kind)
  {
    if amount < 0 then NegativeQuantity
    else if sector <= FED_SPACE then FedRestricted
    else if OwnerAt(s, sector) != -1 && OwnerAt(s, sector) != p then NotOwner
    else if amount > Qty(At(s, sector), kind) + ship.Has(kind) then NotEnoughQuantity
    else NoError
  }

  /** The sector's force of player p holds `amount` of the good, the ship the rest, and all else is as it was. */
  ghost predicate Deployed(s: State, t: State, p: PlayerId, sector: nat, kind: Good, amount: nat) {
    && p < |s.players|
    && t.planets == s.planets
    && (var total := Qty(At(s.bgs, sector), kind) + s.players[p].Has(kind);
        amount <= total && t.players == s.players[p := s.players[p].(inv := Stored(s.players[p].inv, kind, total - amount))])
    && Qty(At(t.bgs, sector), kind) == amount
    && OwnerAt(t.bgs, sector) in {-1, p as int}
    && (forall g :: g != kind ==> Qty(At(t.bgs, sector), g) == Qty(At(s.bgs, sector), g))
    && forall sec :: sec != sector ==> At(t.bgs, sec) == At(s.bgs, sec) && OwnerAt(t.bgs, sec) == OwnerAt(s.bgs, sec)
  }

  method StoreGarrison(w: World, k: nat, g: Good, amount: int)
    requires k < |w.bgs|
    modifies w`bgs, w`clamped
    ensures w.bgs == old(w.bgs)[k := old(w.bgs[k]).(inv := Stored(old(w.bgs[k].inv), g, amount))]
    ensures w.clamped == (old(w.clamped) || amount < 0)
  {
    w.clamped := w.clamped || amount < 0;
    w.bgs := w.bgs[k := w.bgs[k].(inv := Stored(w.bgs[k].inv, g, amount))];
  }

  method StoreShip(w: World, p: PlayerId, g: Good, amount: int)
    requires p < |w.players|
    modifies w`players, w`clamped
    ensures w.players == old(w.players)[p := old(w.players[p]).(inv := Stored(old(w.players[p].inv), g, amount))]
    ensures w.clamped == (old(w.clamped) || amount < 0)
  {
    w.clamped := w.clamped || amount < 0;
    w.players := w.players[p := w.players[p].(inv := Stored(w.players[p].inv, g, amount))];
  }

  /**
    * Sets how much of a good guards the sector, moving the difference to or from the ship. An empty force is
    * disbanded, a refused deployment leaves nothing behind, and deploying fighters or mines changes nobody's worth.
    */
  method AdjustBattlegroup(w: World, p: PlayerId, sector: nat, kind: Good, amount: int) returns (err: Error)
    requires w.Valid() && p < |w.players| && sector == w.players[p].sector
    modifies w`players, w`bgs, w`clamped
    ensures w.Valid()
    ensures err == DeployRefusal(old(w.bgs), old(w.players[p]), p, sector, kind, amount)
    ensures !err.NoError? ==> w.View() == old(w.View())
    ensures err.NoError? ==> Deployed(old(w.View()), w.View(), p, sector, kind, amount)
    ensures err.NoError? && CountsInForce(kind) ==> WorthKept(old(w.View()), w.View(), w.cfg)
  {
    hide SoundState, Manned, MannedBut, Value;
    ghost var s := w.View();
    if amount < 0 {
      return NegativeQuantity;
    }
    if sector <= FED_SPACE {
      return FedRestricted;
    }
    ShipOk(s, w.numsec, p);
    var k;
    err, k := GetBattlegroup(w, p, sector, true);
    if !err.NoError? {
      return;
    }
    ghost var t := w.View();
    Opened(s, t, w.numsec, p, sector, k, w.cfg);
    var total := Qty(w.bgs[k].inv, kind) + w.players[p].Has(kind);
    if amount > total {
      err := NotEnoughQuantity;
      if !HasInventory(w.bgs[k].inv) {
        RemoveBattlegroup(w, k);
      }
      return;
    }
    StoreGarrison(w, k, kind, amount);
    StoreShip(w, p, kind, total - amount);
    ghost var u := w.View();
    Moved(t, u, w.numsec, p, k, kind, amount, w.cfg);
    ghost var gone := !HasInventory(w.bgs[k].inv);
    if !HasInventory(w.bgs[k].inv) {
      RemoveBattlegroup(w, k);
    }
    Closed(s, t, u, w.View(), w.numsec, p, sector, k, kind, amount, w.cfg, gone);
  }

  /** Finding or creating the force disturbs nothing; a force just created is the last and is empty. */
  lemma Opened(s: State, t: State, numsec: int, p: PlayerId, sector: nat, k: nat, cfg: Config)
    requires SoundState(s, numsec) && SoundState(t, numsec) && Manned(s.bgs) && k < |t.bgs| && p < |s.players|
    requires t.bgs[k].sector == sector && t.bgs[k].owner == p
    requires t == s || (t == s.(bgs := s.bgs + [Battlegroup(p, sector, map[])]) && k == |s.bgs| && OwnerAt(s.bgs, sector) == -1)
    ensures MannedBut(t.bgs, k) && WorthKept(s, t, cfg)
    ensures t != s ==> !HasInventory(t.bgs[k].inv) && t.bgs[..k] + t.bgs[k + 1..] == s.bgs && At(s.bgs, sector) == map[]
    ensures t == s ==> HasInventory(t.bgs[k].inv)
    ensures t.bgs[k].inv == At(s.bgs, sector)
    ensures forall sec :: sec != sector ==> At(t.bgs, sec) == At(s.bgs, sec) && OwnerAt(t.bgs, sec) == OwnerAt(s.bgs, sec)
  {
    if t == s {
      AtIndex(s.bgs, k);
    } else {
      forall i: nat | i < |s.players| ensures Value(t, cfg, i) == Value(s, cfg, i) {
        ValueWithNewForce(s, cfg, t.bgs[k], i);
      }
      hide Value;
      var none := AtSome(s.bgs, sector);
      forall sec | sec != sector ensures At(t.bgs, sec) == At(s.bgs, sec) && OwnerAt(t.bgs, sec) == OwnerAt(s.bgs, sec) {
        LastForce(s.bgs, t.bgs[k], sec);
      }
    }
  }

  lemma {:induction false} LastForce(bgs: seq<Battlegroup>, b: Battlegroup, sec: int)
    requires sec != b.sector
    ensures At(bgs + [b], sec) == At(bgs, sec) && OwnerAt(bgs + [b], sec) == OwnerAt(bgs, sec)
  {
    if bgs != [] {
      assert (bgs + [b])[1..] == bgs[1..] + [b];
      LastForce(bgs[1..], b, sec);
    }
  }

  /** Goods moved between the ship and its force. */
  lemma Moved(t: State, u: State, numsec: int, p: PlayerId, k: nat, kind: Good, amount: nat, cfg: Config)
    requires SoundState(t, numsec) && k < |t.bgs| && p < |t.players| && t.bgs[k].owner == p
    requires amount <= Qty(t.bgs[k].inv, kind) + t.players[p].Has(kind)
    requires u == State(t.players[p := t.players[p].(inv := Stored(t.players[p].inv, kind, Qty(t.bgs[k].inv, kind) + t.players[p].Has(kind) - amount))],
                        t.planets, t.bgs[k := t.bgs[k].(inv := Stored(t.bgs[k].inv, kind, amount))])
    ensures SoundState(u, numsec)
    ensures CountsInForce(kind) ==> WorthKept(t, u, cfg)
  {
    var mid := t.(bgs := u.bgs);
    assert SoundState(mid, numsec);
    ShipOk(mid, numsec, p);
    Refitted(mid, numsec, p, u.players[p]);
    assert u == mid.(players := mid.players[p := u.players[p]]);
    if CountsInForce(kind) {
      forall i: nat | i < |t.players| ensures Value(u, cfg, i) == Value(t, cfg, i) {
        MovedWorth(t, mid, u, p, k, kind, amount, cfg, i);
      }
    }
  }

  lemma MovedWorth(t: State, mid: State, u: State, p: PlayerId, k: nat, kind: Good, amount: nat, cfg: Config, i: PlayerId)
    requires k < |t.bgs| && p < |t.players| && t.bgs[k].owner == p && i < |t.players| && CountsInForce(kind)
    requires amount <= Qty(t.bgs[k].inv, kind) + t.players[p].Has(kind)
    requires mid == t.(bgs := t.bgs[k := t.bgs[k].(inv := Stored(t.bgs[k].inv, kind, amount))])
    requires u == mid.(players := mid.players[p := mid.players[p].(inv := Stored(mid.players[p].inv, kind, Qty(t.bgs[k].inv, kind) + t.players[p].Has(kind) - amount))])
    ensures Value(u, cfg, i) == Value(t, cfg, i)
  {
    hide Value, Times, ShipWorth, ForceWorth, Stored;
    var inv := Stored(t.bgs[k].inv, kind, amount);
    ValueWithForce(t, cfg, k, inv, i);
    ValueWithShip(mid, cfg, p, u.players[p], i);
    ForceWorthChange(cfg, t.bgs[k].inv, inv, kind);
    ShipWorthChange(cfg, mid.players[p], u.players[p], kind);
    TimesAdd(Qty(t.bgs[k].inv, kind), t.players[p].Has(kind), Price(cfg, kind));
    TimesAdd(amount, u.players[p].Has(kind), Price(cfg, kind));
  }

  /** The whole deployment, with an empty force disbanded. */
  lemma Closed(s: State, t: State, u: State, v: State, numsec: int, p: PlayerId, sector: nat, k: nat, kind: Good, amount: nat,
               cfg: Config, gone: bool)
    requires SoundState(u, numsec) && k < |u.bgs| && p < |s.players| && |u.bgs| == |t.bgs| && MannedBut(t.bgs, k)
    requires WorthKept(s, t, cfg) && (CountsInForce(kind) ==> WorthKept(t, u, cfg))
    requires t.players == s.players && t.planets == s.planets && t.bgs[k].sector == sector && t.bgs[k].owner == p
    requires t.bgs[k].inv == At(s.bgs, sector)
    requires forall sec :: sec != sector ==> At(t.bgs, sec) == At(s.bgs, sec) && OwnerAt(t.bgs, sec) == OwnerAt(s.bgs, sec)
    requires amount <= Qty(t.bgs[k].inv, kind) + t.players[p].Has(kind)
    requires u == State(t.players[p := t.players[p].(inv := Stored(t.players[p].inv, kind, Qty(t.bgs[k].inv, kind) + t.players[p].Has(kind) - amount))],
                        t.planets, t.bgs[k := t.bgs[k].(inv := Stored(t.bgs[k].inv, kind, amount))])
    requires gone == !HasInventory(u.bgs[k].inv)
    requires v == if gone then u.(bgs := u.bgs[..k] + u.bgs[k + 1..]) else u
    ensures SoundState(v, numsec) && Manned(v.bgs) && Deployed(s, v, p, sector, kind, amount)
    ensures CountsInForce(kind) ==> WorthKept(s, v, cfg)
  {
    MannedAgain(u.bgs, k);
    AtIndex(u.bgs, k);
    forall sec | sec != sector ensures At(u.bgs, sec) == At(t.bgs, sec) && OwnerAt(u.bgs, sec) == OwnerAt(t.bgs, sec) {
      OtherForce(t.bgs, k, u.bgs[k], sec);
    }
    if gone {
      Disbanded(u, numsec, k);
      EmptyForce(cfg, u.bgs[k].inv);
      forall i: nat | i < |u.players| ensures Value(v, cfg, i) == Value(u, cfg, i) {
        ValueWithoutForce(u, cfg, k, i);
      }
      forall sec ensures sec != sector ==> At(v.bgs, sec) == At(u.bgs, sec) && OwnerAt(v.bgs, sec) == OwnerAt(u.bgs, sec) {
        WithoutForce(u.bgs, k, sec);
      }
    }
  }
}
