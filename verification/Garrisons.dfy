/** How fights wear down the defense forces standing in sectors. */
module Garrisons {
  import opened Goods
  import opened Entities
  import opened Worlds
  import opened Ledger

  /** The stores of the defense force in a sector, or nothing. */
  function At(bgs: seq<Battlegroup>, sector: int): Inventory {
    if bgs == [] then map[] else if bgs[0].sector == sector then bgs[0].inv else At(bgs[1..], sector)
  }

  /** The owner of the defense force in a sector, or -1. */
  function OwnerAt(bgs: seq<Battlegroup>, sector: int): int {
    if bgs == [] then -1 else if bgs[0].sector == sector then bgs[0].owner else OwnerAt(bgs[1..], sector)
  }

  ghost predicate OnePerSector(bgs: seq<Battlegroup>) {
    forall j, k :: 0 <= j < k < |bgs| ==> bgs[j].sector != bgs[k].sector
  }

  lemma {:induction false} AtIndex(bgs: seq<Battlegroup>, k: nat)
    requires k < |bgs| && OnePerSector(bgs)
    ensures At(bgs, bgs[k].sector) == bgs[k].inv && OwnerAt(bgs, bgs[k].sector) == bgs[k].owner
  {
    if k > 0 {
      AtIndex(bgs[1..], k - 1);
    }
  }

  lemma {:induction false} AtNone(bgs: seq<Battlegroup>, sector: int)
    requires forall k :: 0 <= k < |bgs| ==> bgs[k].sector != sector
    ensures At(bgs, sector) == map[] && OwnerAt(bgs, sector) == -1
  {
    if bgs != [] {
      AtNone(bgs[1..], sector);
    }
  }

  /** Either the sector is undefended or one force in the list defends it. */
  lemma {:induction false} AtSome(bgs: seq<Battlegroup>, sector: int) returns (k: int)
    ensures -1 <= k < |bgs|
    ensures k == -1 ==> (forall j :: 0 <= j < |bgs| ==> bgs[j].sector != sector) && At(bgs, sector) == map[] && OwnerAt(bgs, sector) == -1
    ensures k >= 0 ==> bgs[k].sector == sector && At(bgs, sector) == bgs[k].inv && OwnerAt(bgs, sector) == bgs[k].owner
  {
    if bgs == [] {
      k := -1;
    } else if bgs[0].sector == sector {
      k := 0;
    } else {
      k := AtSome(bgs[1..], sector);
      if k == -1 {
        assert bgs == [bgs[0]] + bgs[1..];
      } else {
        k := k + 1;
      }
    }
  }

  /** In the sectors named, fighters and mines may have been lost; nothing else about any force differs. */
  ghost predicate ForcesWorn(before: seq<Battlegroup>, after: seq<Battlegroup>, where: set<int>) {
    forall sector, g ::
      && Qty(At(after, sector), g) <= Qty(At(before, sector), g)
      && (sector !in where || (g != Fighters && g != Mines) ==> Qty(At(after, sector), g) == Qty(At(before, sector), g))
  }

  ghost predicate ForcesPassedOn(before: seq<Battlegroup>, after: seq<Battlegroup>, players: seq<Player>) {
    forall sector :: OwnerAt(after, sector) >= 0 ==>
                       OwnerAt(before, sector) >= 0
                       && PassedOn(OwnerAt(before, sector), OwnerAt(after, sector), players, GARRISON_HEIRS)
  }

  ghost predicate PlanetsPassedOn(before: seq<Planet>, after: seq<Planet>, players: seq<Player>) {
    && |after| == |before|
    && forall k :: 0 <= k < |after| ==>
         after[k] == before[k].(owner := after[k].owner)
         && PassedOn(before[k].owner, after[k].owner, players, PLANET_HEIRS)
  }

  /**
    * After fights among the ships named and the forces in the sectors named: every other ship and force is
    * as it was, nobody came back from the dead, assets are passed on only by the dead, and there are no more
    * fighters or mines in the world than before.
    */
  ghost predicate Worn(s: State, t: State, who: set<PlayerId>, where: set<int>) {
    && KeptBut(s.players, t.players, who)
    && ForcesWorn(s.bgs, t.bgs, where)
    && ForcesPassedOn(s.bgs, t.bgs, t.players)
    && PlanetsPassedOn(s.planets, t.planets, t.players)
    && Total(t, Fighters) <= Total(s, Fighters)
    && Total(t, Mines) <= Total(s, Mines)
  }

  lemma WornOn(s: State, t: State, u: State, numsec: int, who: set<PlayerId>, where: set<int>)
    requires Worn(s, t, who, where) && Worn(t, u, who, where)
    requires forall p :: p in who ==> p < |s.players|
    requires SoundState(s, numsec) && SoundState(t, numsec) && SoundState(u, numsec)
    ensures Worn(s, u, who, where)
  {
    hide Total;
    assert KeptBut(s.players, u.players, who);
    forall sector | OwnerAt(u.bgs, sector) >= 0
      ensures OwnerAt(s.bgs, sector) >= 0
              && PassedOn(OwnerAt(s.bgs, sector), OwnerAt(u.bgs, sector), u.players, GARRISON_HEIRS)
    {
      var k := AtSome(u.bgs, sector);
      var j := AtSome(t.bgs, sector);
      var i := AtSome(s.bgs, sector);
    }
  }

  lemma WornWider(s: State, t: State, who: set<PlayerId>, where: set<int>, who': set<PlayerId>, where': set<int>)
    requires Worn(s, t, who, where) && who <= who' && where <= where'
    ensures Worn(s, t, who', where')
  {
    hide Total;
  }

  lemma AftermathWorn(s: State, t: State, numsec: int, who: set<PlayerId>)
    requires Aftermath(s, t, who) && SoundState(s, numsec)
    requires forall p: nat :: p in who && p < |s.players| ==>
               t.players[p].Has(Fighters) <= s.players[p].Has(Fighters) && t.players[p].Has(Mines) <= s.players[p].Has(Mines)
    ensures Worn(s, t, who, {})
  {
    FightsCreateNothing(s, t, who, Fighters);
    FightsCreateNothing(s, t, who, Mines);
    hide Total;
    forall sector
      ensures At(t.bgs, sector) == At(s.bgs, sector)
      ensures OwnerAt(t.bgs, sector) >= 0 ==>
                OwnerAt(s.bgs, sector) >= 0
                && PassedOn(OwnerAt(s.bgs, sector), OwnerAt(t.bgs, sector), t.players, GARRISON_HEIRS)
    {
      SameStores(s.bgs, t.bgs, sector);
    }
  }

  lemma SameStores(before: seq<Battlegroup>, after: seq<Battlegroup>, sector: int)
    requires OnePerSector(before) && |after| == |before|
    requires forall k :: 0 <= k < |after| ==> after[k] == before[k].(owner := after[k].owner)
    ensures At(after, sector) == At(before, sector)
    ensures (OwnerAt(after, sector) == -1 && OwnerAt(before, sector) == -1)
            || exists k :: 0 <= k < |after| && OwnerAt(after, sector) == after[k].owner && OwnerAt(before, sector) == before[k].owner
  {
    var i := AtSome(before, sector);
    var j := AtSome(after, sector);
    if i >= 0 {
      assert after[i].sector == sector;
      assert before[j].sector == sector;
    }
  }

  lemma {:induction false} OtherForce(bgs: seq<Battlegroup>, k: nat, b: Battlegroup, sec: int)
    requires k < |bgs| && b.sector == bgs[k].sector != sec
    ensures At(bgs[k := b], sec) == At(bgs, sec) && OwnerAt(bgs[k := b], sec) == OwnerAt(bgs, sec)
  {
    if k > 0 {
      assert bgs[k := b][1..] == bgs[1..][k - 1 := b];
      OtherForce(bgs[1..], k - 1, b, sec);
    } else {
      assert bgs[k := b][1..] == bgs[1..];
    }
  }

  lemma {:induction false} WithoutForce(bgs: seq<Battlegroup>, k: nat, sec: int)
    requires k < |bgs|
    ensures var cut := bgs[..k] + bgs[k + 1..];
            bgs[k].sector != sec ==> At(cut, sec) == At(bgs, sec) && OwnerAt(cut, sec) == OwnerAt(bgs, sec)
  {
    var cut := bgs[..k] + bgs[k + 1..];
    if k > 0 {
      assert cut[1..] == bgs[1..][..k - 1] + bgs[1..][k..];
      WithoutForce(bgs[1..], k - 1, sec);
    } else {
      assert cut == bgs[1..];
    }
  }

  lemma StoresHitSound(s: State, numsec: int, k: nat, inv: Inventory)
    requires k < |s.bgs| && SoundState(s, numsec)
    ensures SoundState(s.(bgs := s.bgs[k := s.bgs[k].(inv := inv)]), numsec)
  {
  }

  /** A force loses some of its fighters or mines. */
  lemma ForceHit(s: State, numsec: int, k: nat, inv: Inventory)
    requires k < |s.bgs| && SoundState(s, numsec)
    requires forall g :: Qty(inv, g) <= Qty(s.bgs[k].inv, g)
    requires forall g :: g != Fighters && g != Mines ==> Qty(inv, g) == Qty(s.bgs[k].inv, g)
    ensures var t := s.(bgs := s.bgs[k := s.bgs[k].(inv := inv)]);
            SoundState(t, numsec) && Worn(s, t, {}, {s.bgs[k].sector})
  {
    var hit := s.bgs[k].(inv := inv);
    var t := s.(bgs := s.bgs[k := hit]);
    StoresHitSound(s, numsec, k, inv);
    AtIndex(s.bgs, k);
    AtIndex(t.bgs, k);
    GarrisonTotal(s, k, inv, Fighters);
    GarrisonTotal(s, k, inv, Mines);
    hide Total, SoundState, At, OwnerAt;
    forall sector | sector != hit.sector ensures At(t.bgs, sector) == At(s.bgs, sector) && OwnerAt(t.bgs, sector) == OwnerAt(s.bgs, sector) {
      OtherForce(s.bgs, k, hit, sector);
    }
    assert ForcesPassedOn(s.bgs, t.bgs, t.players);
    assert ForcesWorn(s.bgs, t.bgs, {hit.sector});
  }

  lemma CutSound(s: State, numsec: int, k: nat)
    requires k < |s.bgs| && SoundState(s, numsec)
    ensures var cut := s.bgs[..k] + s.bgs[k + 1..];
            SoundState(s.(bgs := cut), numsec) && At(cut, s.bgs[k].sector) == map[] && OwnerAt(cut, s.bgs[k].sector) == -1
  {
    var cut := s.bgs[..k] + s.bgs[k + 1..];
    forall j | 0 <= j < |cut| ensures cut[j] == s.bgs[if j < k then j else j + 1] && cut[j].sector != s.bgs[k].sector {
    }
    AtNone(cut, s.bgs[k].sector);
  }

  /** A force with nothing left is struck from the list. */
  lemma Disbanded(s: State, numsec: int, k: nat)
    requires k < |s.bgs| && SoundState(s, numsec) && !HasInventory(s.bgs[k].inv)
    ensures var t := s.(bgs := s.bgs[..k] + s.bgs[k + 1..]);
            SoundState(t, numsec) && Worn(s, t, {}, {}) && OwnerAt(t.bgs, s.bgs[k].sector) == -1
  {
    var t := s.(bgs := s.bgs[..k] + s.bgs[k + 1..]);
    CutSound(s, numsec, k);
    AtIndex(s.bgs, k);
    DisbandedTotal(s, k, Fighters);
    DisbandedTotal(s, k, Mines);
    hide Total, SoundState, At, OwnerAt;
    forall sector | sector != s.bgs[k].sector ensures At(t.bgs, sector) == At(s.bgs, sector) && OwnerAt(t.bgs, sector) == OwnerAt(s.bgs, sector) {
      WithoutForce(s.bgs, k, sector);
    }
    assert forall g :: Qty(s.bgs[k].inv, g) == 0;
    assert ForcesPassedOn(s.bgs, t.bgs, t.players);
    assert ForcesWorn(s.bgs, t.bgs, {});
  }

  lemma NothingWorn(s: State, who: set<PlayerId>, where: set<int>)
    ensures Worn(s, s, who, where)
  {
  }

  /** A ship changes without gaining fighters or mines. */
  lemma ShipHit(s: State, numsec: int, p: PlayerId, ship: Player)
    requires p < |s.players| && SoundState(s, numsec)
    requires ship.kind == s.players[p].kind && ship.IsDead() == s.players[p].IsDead() && PlayerOk(ship, numsec)
    requires ship.Has(Fighters) <= s.players[p].Has(Fighters) && ship.Has(Mines) <= s.players[p].Has(Mines)
    ensures var t := s.(players := s.players[p := ship]);
            SoundState(t, numsec) && Worn(s, t, {p}, {}) && Aftermath(s, t, {p})
  {
    hide Worn;
    Refitted(s, numsec, p, ship);
    hide SoundState, Aftermath;
    AftermathWorn(s, s.(players := s.players[p := ship]), numsec, {p});
  }

  lemma AllStillManned(s: State, t: State, who: set<PlayerId>)
    requires Aftermath(s, t, who) && Manned(s.bgs)
    ensures Manned(t.bgs)
  {
  }

  /** The stores of every force but one, and that one too unless it is empty. */
  ghost predicate MannedBut(bgs: seq<Battlegroup>, k: int) {
    forall j :: 0 <= j < |bgs| && j != k ==> HasInventory(bgs[j].inv)
  }

  lemma MannedAgain(bgs: seq<Battlegroup>, k: nat)
    requires k < |bgs| && MannedBut(bgs, k)
    ensures HasInventory(bgs[k].inv) ==> Manned(bgs)
    ensures Manned(bgs[..k] + bgs[k + 1..])
  {
    var cut := bgs[..k] + bgs[k + 1..];
    forall j | 0 <= j < |cut| ensures HasInventory(cut[j].inv) {
      assert cut[j] == bgs[if j < k then j else j + 1];
    }
  }

  lemma Positive(inv: Inventory, g: Good)
    requires Qty(inv, g) > 0
    ensures HasInventory(inv)
  {
    assert g in inv && inv[g] > 0;
  }

  lemma WornKept(s: State, t: State, who: set<PlayerId>, where: set<int>)
    requires Worn(s, t, who, where)
    ensures KeptBut(s.players, t.players, who)
  {
  }
}
