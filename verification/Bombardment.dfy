/** Damage to a planet's production, by pulsar bombs or by a hard-fought assault (specials.go:160-188, combat.go:319-348). */
module Bombardment {
  import opened Goods
  import opened Entities
  import opened Worlds

  const PRODUCTS: seq<Good> := [Ore, Organics, Equipment]

  function Least(a: nat, b: nat): nat {
    if a <= b then a else b
  }

  function Cut(pl: Planet, g: Good, power: nat): (r: Planet)
    ensures r.owner == pl.owner && r.sector == pl.sector && r.name == pl.name
    ensures Qty(r.prod, g) == if Qty(pl.prod, g) > power then Qty(pl.prod, g) - power else 0
    ensures Qty(r.inv, g) == Least(Qty(pl.inv, g), 10 * Qty(r.prod, g))
    ensures forall h :: h != g ==> Qty(r.prod, h) == Qty(pl.prod, h) && Qty(r.inv, h) == Qty(pl.inv, h)
  {
    var prod := Stored(pl.prod, g, Qty(pl.prod, g) - Least(Qty(pl.prod, g), power));
    var inv := if Qty(pl.inv, g) > Qty(prod, g) * 10 then Stored(pl.inv, g, Qty(prod, g) * 10) else pl.inv;
    pl.(prod := prod, inv := inv)
  }

  /** Each product's rate falls by up to `power`, and no more than ten days' production stays in stock. */
  ghost predicate Bombed(before: Planet, after: Planet, power: nat) {
    && after.owner == before.owner && after.sector == before.sector && after.name == before.name
    && forall g ::
         if IsCargo(g) then
           && Qty(after.prod, g) == (if Qty(before.prod, g) > power then Qty(before.prod, g) - power else 0)
           && Qty(after.inv, g) == Least(Qty(before.inv, g), 10 * Qty(after.prod, g))
         else
           Qty(after.prod, g) == Qty(before.prod, g) && Qty(after.inv, g) == Qty(before.inv, g)
  }

  /** Nothing is produced any more. */
  predicate Barren(pl: Planet) {
    Qty(pl.prod, Ore) == 0 && Qty(pl.prod, Organics) == 0 && Qty(pl.prod, Equipment) == 0
  }

  /** A planet is bombed out exactly when every product's rate was within the power of the bombs. */
  lemma BombedOut(before: Planet, after: Planet, power: nat)
    requires Bombed(before, after, power)
    ensures Barren(after) <==> forall g :: IsCargo(g) ==> Qty(before.prod, g) <= power
  {
    assert Qty(before.prod, Ore) <= power && Qty(before.prod, Organics) <= power && Qty(before.prod, Equipment) <= power
      ==> Barren(after);
    assert IsCargo(Ore) && IsCargo(Organics) && IsCargo(Equipment);
  }

  /** Bomb the planet; it is struck from the list when nothing is left of its production. */
  method Bombard(w: World, k: nat, power: nat) returns (destroyed: bool, ghost bombed: Planet)
    requires k < |w.planets|
    modifies w`planets
    ensures Bombed(old(w.planets[k]), bombed, power)
    ensures destroyed <==> Barren(bombed)
    ensures w.planets == if destroyed then old(w.planets[..k] + w.planets[k + 1..]) else old(w.planets)[k := bombed]
  {
    ghost var pl := w.planets[k];
    for i := 0 to |PRODUCTS|
      invariant |w.planets| == |old(w.planets)| && w.planets == old(w.planets)[k := w.planets[k]]
      invariant w.planets[k].owner == pl.owner && w.planets[k].sector == pl.sector && w.planets[k].name == pl.name
      invariant forall g ::
                  if g in PRODUCTS[..i] then
                    && Qty(w.planets[k].prod, g) == (if Qty(pl.prod, g) > power then Qty(pl.prod, g) - power else 0)
                    && Qty(w.planets[k].inv, g) == Least(Qty(pl.inv, g), 10 * Qty(w.planets[k].prod, g))
                  else
                    Qty(w.planets[k].prod, g) == Qty(pl.prod, g) && Qty(w.planets[k].inv, g) == Qty(pl.inv, g)
    {
      w.planets := w.planets[k := Cut(w.planets[k], PRODUCTS[i], power)];
      assert PRODUCTS[..i + 1] == PRODUCTS[..i] + [PRODUCTS[i]];
    }
    assert PRODUCTS[..|PRODUCTS|] == [Ore, Organics, Equipment];
    bombed := w.planets[k];
    destroyed := Barren(w.planets[k]);
    if destroyed {
      w.planets := w.planets[..k] + w.planets[k + 1..];
    }
  }

  /** A planet may change its stores and pass to a living owner. */
  lemma PlanetRefitted(s: State, numsec: int, k: nat, planet: Planet)
    requires k < |s.planets| && SoundState(s, numsec)
    requires planet.sector == s.planets[k].sector && Alive(s.players, planet.owner)
    ensures SoundState(s.(planets := s.planets[k := planet]), numsec)
  {
  }

  lemma PlanetGone(s: State, numsec: int, k: nat)
    requires k < |s.planets| && SoundState(s, numsec)
    ensures SoundState(s.(planets := s.planets[..k] + s.planets[k + 1..]), numsec)
  {
    var planets := s.planets[..k] + s.planets[k + 1..];
    forall j | 0 <= j < |planets| ensures planets[j] == s.planets[if j < k then j else j + 1] {
    }
  }
}
