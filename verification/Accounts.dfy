/** What the clamps on quantities and purses mean for the books (base.go:77-124). */
module Accounts {
  import opened Goods
  import opened Sums

  /** A quantity or a purse after a run of adjustments, each stopping at zero. */
  function Balance(start: nat, moves: seq<int>): nat {
    if moves == [] then start
    else
      var b := Balance(start, moves[..|moves| - 1]) + moves[|moves| - 1];
      if b < 0 then 0 else b
  }

  /** Somewhere in the run an adjustment was stopped. */
  predicate Clamped(start: nat, moves: seq<int>) {
    moves != [] && (Clamped(start, moves[..|moves| - 1]) || Balance(start, moves[..|moves| - 1]) + moves[|moves| - 1] < 0)
  }

  /**
    * The books balance exactly when no adjustment was ever stopped, which is when no part of the run takes out more
    * than there was. Stopping only ever leaves more than was accounted for, and what it leaves is never made good.
    */
  lemma {:induction false} BooksBalance(start: nat, moves: seq<int>)
    ensures Balance(start, moves) == start + Sum(moves) <==> !Clamped(start, moves)
    ensures Clamped(start, moves) <==> exists n :: 0 <= n <= |moves| && start + Sum(moves[..n]) < 0
    ensures Balance(start, moves) >= start + Sum(moves)
  {
    assert moves[..|moves|] == moves;
    if moves != [] {
      var init, last := moves[..|moves| - 1], |moves| - 1;
      BooksBalance(start, init);
      assert forall n :: 0 <= n <= last ==> moves[..n] == init[..n];
      if Clamped(start, init) {
        var n :| 0 <= n <= last && start + Sum(init[..n]) < 0;
        assert start + Sum(moves[..n]) < 0;
      } else if Clamped(start, moves) {
        assert start + Sum(moves[..|moves|]) < 0;
      }
    }
  }

  function AdjustedBy(inv: Inventory, g: Good, moves: seq<int>): Inventory {
    if moves == [] then inv else Adjusted(AdjustedBy(inv, g, moves[..|moves| - 1]), g, moves[|moves| - 1])
  }

  /** In an inventory, a run of adjustments of one good is a run on its quantity and touches no other. */
  lemma {:induction false} OneGoodAtATime(inv: Inventory, g: Good, moves: seq<int>)
    ensures Qty(AdjustedBy(inv, g, moves), g) == Balance(Qty(inv, g), moves)
    ensures forall h :: h != g ==> Qty(AdjustedBy(inv, g, moves), h) == Qty(inv, h)
  {
    if moves != [] {
      OneGoodAtATime(inv, g, moves[..|moves| - 1]);
    }
  }
}
