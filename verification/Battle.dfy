/** Chance and the exchange of fire (combat.go:33-56). */
module Battle {

  /** Any value a call for a random number below n may return. */
  method Roll(n: nat) returns (r: nat)
    requires n > 0
    ensures r < n
  {
    r :| 0 <= r < n;
  }

  predicate Exchanged(attackers: nat, defenders: nat, attackerLoss: nat, defenderLoss: nat) {
    if attackers == 0 || defenders == 0 then attackerLoss == defenderLoss == 0
    else (attackerLoss == attackers && defenderLoss < defenders) || (attackerLoss < attackers && defenderLoss == defenders)
  }

  /**
    * Two pools wear each other down: exactly one side is exhausted, neither loses more than it had,
    * and an empty pool never fights. The closing clamps never act.
    */
  method Attrition(attackers: nat, defenders: nat) returns (attackerLoss: nat, defenderLoss: nat)
    ensures Exchanged(attackers, defenders, attackerLoss, defenderLoss)
  {
    var a, c := 0, 0;
    while a < attackers && c < defenders
      invariant a <= attackers && c <= defenders
      invariant a < attackers || c < defenders || (a == 0 && attackers == 0) || (c == 0 && defenders == 0)
      invariant attackers == 0 || defenders == 0 ==> a == c == 0
      decreases attackers - a + defenders - c
    {
      if attackers - a > 1000 && defenders - c > 1000 {
        var block := Roll(100);
        if block > 50 {
          a := a + 100;
        } else {
          c := c + 100;
        }
      }
      var roll := Roll(100);
      if roll > 50 {
        a := a + 1;
      } else {
        c := c + 1;
      }
    }
    assert a <= attackers && c <= defenders;
    if a > attackers {
      a := attackers;
    }
    if c > defenders {
      c := defenders;
    }
    return a, c;
  }
}
