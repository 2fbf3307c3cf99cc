/** Players, planets and sector defense forces, as the records the world keeps in its lists. */
module Entities {
  import opened Goods

  /** Ship systems, in the order the engine numbers them. */
  const ENGINES := 0
  const BG_COMPUTER := 3
  const CARGO_BAY := 4
  const THRUSTERS := 5
  const SYSTEMS := 6
  const MAX_SHIP_DAMAGE := 150

  type Damage = d: nat | d <= MAX_SHIP_DAMAGE

  /** Damage per ship system, measured in turns. */
  type Systems = s: seq<Damage> | |s| == SYSTEMS witness [0, 0, 0, 0, 0, 0]

  const INTACT: Systems := [0, 0, 0, 0, 0, 0]

  /** Federation space is sectors 1 to 10; sector 0 is off the map. */
  const FED_SPACE := 10

  const DAY := 86400

  /** Unix seconds; an instant is never zero, which stands for "never". */
  type Time = t: nat | t > 0 witness 1

  datatype Error =
    | NoError | Unknown | NegativeQuantity | NotEnoughMoney | NotEnoughQuantity | NotOwner
    | FedRestricted | AlreadyExists | InvalidName | NotFound | NotEnoughHolds | NoTurns | Dead

  /** Faction records inherit the assets of dead players; everyone else is a trader. */
  datatype Kind = Trader | Renegades | Cabal | Federation

  /** A player is named by its position in the world's player list, which only ever grows. */
  type PlayerId = nat

  datatype Player = Player(
    kind: Kind,
    sector: nat,
    money: nat,
    bank: nat,
    inv: Inventory,
    bankedTurns: nat,
    systems: Systems,
    diedAt: nat,
    timesDied: nat,
    lastSeen: nat,
    expired: bool,
    everMoved: bool)
  {
    predicate IsDead() { diedAt != 0 }

    predicate IsNpc() { !kind.Trader? }

    function Has(g: Good): nat { Qty(inv, g) }

    predicate InFedSpace() { sector <= FED_SPACE }

    /** Seconds since the last session; a player never seen counts as present. */
    function Absent(now: int): int {
      if lastSeen == 0 then 0 else now - lastSeen
    }
  }

  datatype Battlegroup = Battlegroup(owner: PlayerId, sector: nat, inv: Inventory)

  datatype Planet = Planet(owner: PlayerId, sector: nat, name: string, inv: Inventory, prod: Inventory)

  /** Factions and the dead are off the map in sector 0, and factions do not die; everyone else is on it. */
  predicate PlayerOk(p: Player, numsec: int) {
    if p.IsNpc() then p.sector == 0 && !p.IsDead()
    else if p.IsDead() then p.sector == 0
    else 1 <= p.sector <= numsec
  }

  /** A faction's record as it is first created: nothing aboard, parked off the map. */
  function FactionRecord(kind: Kind): Player {
    Player(kind, 0, 0, 0, map[], 0, INTACT, 0, 0, 0, false, false)
  }

  /** Spending a turn repairs one point of every damaged system. */
  function Healed(systems: Systems): (r: Systems)
    ensures forall i :: 0 <= i < SYSTEMS ==> r[i] == if systems[i] > 0 then systems[i] - 1 else 0
  {
    seq(SYSTEMS, i requires 0 <= i < SYSTEMS => if systems[i] > 0 then systems[i] - 1 else 0)
  }

  function Damaged(systems: Systems, sys: nat, amount: nat): (r: Systems)
    requires sys < SYSTEMS
    ensures forall i :: 0 <= i < SYSTEMS ==> systems[i] <= r[i]
  {
    systems[sys := if systems[sys] + amount > MAX_SHIP_DAMAGE then MAX_SHIP_DAMAGE else systems[sys] + amount]
  }
}
