/** Flattening the universe into rows and rebuilding it (snapshot.go, store.go:251-623). */
module Snapshots {
  import opened Inventories
  import opened Sectors
  import opened Links
  import opened Decimals
  import opened Rows
  import opened Routing

  const SYSTEMS := 6

  /** The columns of a player that are stored as they are. */
  datatype Card = Card(email: string, name: string, sector: int, money: int, googleSub: string, passHash: string,
                       lastSeen: int, timesDied: int, diedAt: int, banned: bool, expired: bool, everMoved: bool,
                       bankBalance: int, bankedTurns: int)

  datatype PlayerRecord = PlayerRecord(id: string, card: Card, systems: seq<nat>, inv: seq<Line>)

  /** Ports, planets and battlegroups: where, whose (for ports, of what kind), how rich, and what they hold. */
  datatype Place = Place(name: string, sector: int, owner: string, kind: nat, money: int)

  datatype Holding = Holding(place: Place, inv: seq<Line>)

  datatype Notice = Notice(player: string, at: int, msg: string, delivered: bool)

  datatype Universe = Universe(warps: Chart, players: seq<PlayerRecord>, ports: seq<Holding>, planets: seq<Holding>,
                               battlegroups: seq<Holding>, news: seq<Notice>, config: map<string, string>)

  // ----- Rows

  datatype OwnerType = OfPlayer | OfPort | OfPlanet | OfBattlegroup

  datatype OwnerKey = OwnerKey(kind: OwnerType, id: string)

  datatype PlayerRow = PlayerRow(id: string, card: Card, systems: string)

  /** The tables. Players and news come back in the order they were written; everything else is ordered by its key. */
  datatype Tables = Tables(
    sectors: seq<Row<(), nat>>,
    warps: seq<Row<nat, nat>>,
    players: seq<PlayerRow>,
    ports: seq<Row<(), Place>>,
    planets: seq<Row<(), Place>>,
    battlegroups: seq<Row<(), Place>>,
    lines: seq<Row<OwnerKey, Line>>,
    news: seq<Notice>,
    config: map<string, string>)

  /** A read of every table, in the order the loader asks for. */
  ghost predicate Reads(stored: Tables, read: Tables) {
    && IsRead(stored.sectors, read.sectors) && IsRead(stored.warps, read.warps)
    && IsRead(stored.ports, read.ports) && IsRead(stored.planets, read.planets) && IsRead(stored.battlegroups, read.battlegroups)
    && IsRead(stored.lines, read.lines)
    && read.players == stored.players && read.news == stored.news && read.config == stored.config
  }

  // ----- Damage counters

  function Printed(systems: seq<nat>): string {
    if systems == [] then "" else Join(Numerals(systems))
  }

  function Numerals(systems: seq<nat>): (r: seq<string>)
    ensures |r| == |systems| && forall i :: 0 <= i < |r| ==> r[i] == Itoa(systems[i])
  {
    seq(|systems|, i requires 0 <= i < |systems| => Itoa(systems[i]))
  }

  /** The six counters a string stands for: what is missing or not a number counts zero, and anything past the sixth is ignored. */
  function Parsed(s: string): (r: seq<nat>)
    ensures |r| == SYSTEMS
  {
    seq(SYSTEMS, i => if s != "" && 0 <= i < |Split(s)| && Atoi(Split(s)[i]).Some? then Atoi(Split(s)[i]).value else 0)
  }

  /** Exactly six counters, cut or filled with zeros. */
  function Fitted(systems: seq<nat>): (r: seq<nat>)
    ensures |r| == SYSTEMS
    ensures |systems| == SYSTEMS ==> r == systems
  {
    seq(SYSTEMS, i => if 0 <= i < |systems| then systems[i] else 0)
  }

  method SystemsToString(systems: seq<nat>) returns (s: string)
    ensures s == Printed(systems)
  {
    if |systems| == 0 {
      return "";
    }
    var parts := [];
    for i := 0 to |systems|
      invariant parts == Numerals(systems)[..i]
    {
      parts := parts + [Itoa(systems[i])];
    }
    s := Join(parts);
    assert parts == Numerals(systems);
  }

  method SystemsFromString(s: string) returns (systems: seq<nat>)
    ensures systems == Parsed(s)
  {
    systems := [0, 0, 0, 0, 0, 0];
    if s == "" {
      return;
    }
    var parts := Split(s);
    var i := 0;
    while i < |parts|
      invariant 0 <= i <= |parts| && |systems| == SYSTEMS
      invariant forall k :: 0 <= k < SYSTEMS ==> systems[k] == if k < i then Parsed(s)[k] else 0
      invariant i <= SYSTEMS
    {
      if i >= SYSTEMS {
        break;
      }
      var n := Atoi(parts[i]);
      if n.Some? {
        systems := systems[i := n.value];
      }
      i := i + 1;
    }
    assert forall k :: 0 <= k < SYSTEMS ==> systems[k] == Parsed(s)[k];
  }

  /** Printed and parsed, the counters are what they were, six of them. */
  lemma PrintedAndParsed(systems: seq<nat>)
    ensures Parsed(Printed(systems)) == Fitted(systems)
  {
    if systems != [] {
      var parts := Numerals(systems);
      forall p | p in parts ensures ',' !in p {
        var i :| 0 <= i < |parts| && parts[i] == p;
      }
      SplitJoin(parts);
      NotEmpty(parts);
      forall i | 0 <= i < |parts| ensures Atoi(parts[i]) == Some(systems[i]) {
        AtoiItoa(systems[i]);
      }
      assert Parsed(Printed(systems)) == Fitted(systems);
    }
  }

  lemma NotEmpty(parts: seq<string>)
    requires parts != [] && forall p :: p in parts ==> p != ""
    ensures Join(parts) != ""
  {
    assert parts[|parts| - 1] in parts;
  }

  // ----- Saving

  function PlayerKey(p: PlayerRecord): OwnerKey {
    OwnerKey(OfPlayer, p.id)
  }

  function HoldingKey(kind: OwnerType, i: nat): OwnerKey {
    OwnerKey(kind, Itoa(i))
  }

  function PlayerKeys(players: seq<PlayerRecord>): (r: seq<OwnerKey>)
    ensures |r| == |players| && forall i :: 0 <= i < |r| ==> r[i] == PlayerKey(players[i])
  {
    seq(|players|, i requires 0 <= i < |players| => PlayerKey(players[i]))
  }

  function HoldingKeys(kind: OwnerType, holdings: seq<Holding>): (r: seq<OwnerKey>)
    ensures |r| == |holdings| && forall i :: 0 <= i < |r| ==> r[i] == HoldingKey(kind, i)
  {
    seq(|holdings|, i requires 0 <= i < |holdings| => HoldingKey(kind, i))
  }

  function PlayerLists(players: seq<PlayerRecord>): (r: seq<seq<Row<OwnerKey, Line>>>)
    ensures |r| == |players| && forall i :: 0 <= i < |r| ==> r[i] == RowsOf(PlayerKey(players[i]), players[i].inv)
  {
    seq(|players|, i requires 0 <= i < |players| => RowsOf(PlayerKey(players[i]), players[i].inv))
  }

  function HoldingLists(kind: OwnerType, holdings: seq<Holding>): (r: seq<seq<Row<OwnerKey, Line>>>)
    ensures |r| == |holdings| && forall i :: 0 <= i < |r| ==> r[i] == RowsOf(HoldingKey(kind, i), holdings[i].inv)
  {
    seq(|holdings|, i requires 0 <= i < |holdings| => RowsOf(HoldingKey(kind, i), holdings[i].inv))
  }

  function OwnerKeys(u: Universe): seq<OwnerKey> {
    PlayerKeys(u.players) + HoldingKeys(OfPort, u.ports) + HoldingKeys(OfPlanet, u.planets) + HoldingKeys(OfBattlegroup, u.battlegroups)
  }

  function OwnerLists(u: Universe): seq<seq<Row<OwnerKey, Line>>> {
    PlayerLists(u.players) + HoldingLists(OfPort, u.ports) + HoldingLists(OfPlanet, u.planets) + HoldingLists(OfBattlegroup, u.battlegroups)
  }

  function PlayerRows(players: seq<PlayerRecord>): (r: seq<PlayerRow>)
    ensures |r| == |players| && forall i :: 0 <= i < |r| ==> r[i] == PlayerRow(players[i].id, players[i].card, Printed(players[i].systems))
  {
    seq(|players|, i requires 0 <= i < |players| => PlayerRow(players[i].id, players[i].card, Printed(players[i].systems)))
  }

  function Places(holdings: seq<Holding>): (r: seq<Place>)
    ensures |r| == |holdings| && forall i :: 0 <= i < |r| ==> r[i] == holdings[i].place
  {
    seq(|holdings|, i requires 0 <= i < |holdings| => holdings[i].place)
  }

  /** A sector's warps as rows, ordered by destination. */
  function WarpRows(from: nat, warps: seq<nat>): (r: seq<Row<nat, nat>>)
    ensures |r| == |warps| && forall i :: 0 <= i < |r| ==> r[i] == Row(from, warps[i], warps[i])
  {
    seq(|warps|, i requires 0 <= i < |warps| => Row(from, warps[i], warps[i]))
  }

  function WarpLists(g: Chart): (r: seq<seq<Row<nat, nat>>>)
    ensures |r| == |g| && forall i :: 0 <= i < |r| ==> r[i] == WarpRows(i, g[i])
  {
    seq(|g|, i requires 0 <= i < |g| => WarpRows(i, g[i]))
  }

  function Numbers(n: nat): (r: seq<nat>)
    ensures |r| == n && forall i :: 0 <= i < n ==> r[i] == i
  {
    seq(n, i requires 0 <= i < n => i)
  }

  /** The universe as rows. */
  function Flat(u: Universe): Tables {
    Tables(RowsOf((), Numbers(|u.warps|)), Flatten(WarpLists(u.warps)), PlayerRows(u.players),
           RowsOf((), Places(u.ports)), RowsOf((), Places(u.planets)), RowsOf((), Places(u.battlegroups)),
           Flatten(OwnerLists(u)), u.news, u.config)
  }

  lemma {:induction false} FlattenConcat<K, V>(a: seq<seq<Row<K, V>>>, b: seq<seq<Row<K, V>>>)
    ensures Flatten(a + b) == Flatten(a) + Flatten(b)
  {
    if b == [] {
      assert a + b == a;
    } else {
      assert (a + b)[..|a + b| - 1] == a + b[..|b| - 1];
      FlattenConcat(a, b[..|b| - 1]);
    }
  }

  /** One owner's inventory, line by line, at the end of the rows. */
  method SnapCommodities(rows0: seq<Row<OwnerKey, Line>>, key: OwnerKey, inv: seq<Line>) returns (rows: seq<Row<OwnerKey, Line>>)
    ensures rows == rows0 + RowsOf(key, inv)
  {
    rows := rows0;
    for pos := 0 to |inv|
      invariant rows == rows0 + RowsOf(key, inv)[..pos]
    {
      rows := rows + [Row(key, pos, inv[pos])];
    }
    assert RowsOf(key, inv)[..|inv|] == RowsOf(key, inv);
  }

  method SnapHoldings(rows0: seq<Row<OwnerKey, Line>>, kind: OwnerType, holdings: seq<Holding>)
    returns (rows: seq<Row<OwnerKey, Line>>, places: seq<Row<(), Place>>)
    ensures rows == rows0 + Flatten(HoldingLists(kind, holdings)) && places == RowsOf((), Places(holdings))
  {
    rows, places := rows0, [];
    ghost var lists := HoldingLists(kind, holdings);
    assert lists[..0] == [];
    for i := 0 to |holdings|
      invariant rows == rows0 + Flatten(lists[..i]) && places == RowsOf((), Places(holdings))[..i]
    {
      places := places + [Row((), i, holdings[i].place)];
      rows := SnapCommodities(rows, HoldingKey(kind, i), holdings[i].inv);
      assert lists[..i + 1][..i] == lists[..i];
    }
    assert lists[..|holdings|] == lists && RowsOf((), Places(holdings))[..|holdings|] == RowsOf((), Places(holdings));
  }

  method SnapPlayers(players: seq<PlayerRecord>) returns (rows: seq<Row<OwnerKey, Line>>, cards: seq<PlayerRow>)
    ensures rows == Flatten(PlayerLists(players)) && cards == PlayerRows(players)
  {
    rows, cards := [], [];
    ghost var lists := PlayerLists(players);
    assert lists[..0] == [];
    for i := 0 to |players|
      invariant rows == Flatten(lists[..i]) && cards == PlayerRows(players)[..i]
    {
      var systems := SystemsToString(players[i].systems);
      cards := cards + [PlayerRow(players[i].id, players[i].card, systems)];
      rows := SnapCommodities(rows, PlayerKey(players[i]), players[i].inv);
      assert lists[..i + 1][..i] == lists[..i];
    }
    assert lists[..|players|] == lists && PlayerRows(players)[..|players|] == PlayerRows(players);
  }

  method SnapSectors(g: Chart) returns (sectors: seq<Row<(), nat>>, warps: seq<Row<nat, nat>>)
    ensures sectors == RowsOf((), Numbers(|g|)) && warps == Flatten(WarpLists(g))
  {
    sectors, warps := [], [];
    ghost var lists := WarpLists(g);
    assert lists[..0] == [];
    for i := 0 to |g|
      invariant sectors == RowsOf((), Numbers(|g|))[..i] && warps == Flatten(lists[..i])
    {
      sectors := sectors + [Row((), i, i)];
      ghost var before := warps;
      for j := 0 to |g[i]|
        invariant warps == before + WarpRows(i, g[i])[..j]
      {
        warps := warps + [Row(i, g[i][j], g[i][j])];
      }
      assert WarpRows(i, g[i])[..|g[i]|] == lists[i] && lists[..i + 1][..i] == lists[..i];
    }
    assert lists[..|g|] == lists && RowsOf((), Numbers(|g|))[..|g|] == RowsOf((), Numbers(|g|));
  }

  /** The snapshot: every list copied into rows. */
  method Snapshot(u: Universe) returns (t: Tables)
    ensures t == Flat(u)
  {
    var sectors, warps := SnapSectors(u.warps);
    var lines, players := SnapPlayers(u.players);
    var ports, planets, battlegroups;
    lines, ports := SnapHoldings(lines, OfPort, u.ports);
    lines, planets := SnapHoldings(lines, OfPlanet, u.planets);
    lines, battlegroups := SnapHoldings(lines, OfBattlegroup, u.battlegroups);
    t := Tables(sectors, warps, players, ports, planets, battlegroups, lines, u.news, u.config);
    var a, b, c, d := PlayerLists(u.players), HoldingLists(OfPort, u.ports), HoldingLists(OfPlanet, u.planets), HoldingLists(OfBattlegroup, u.battlegroups);
    FlattenConcat(a, b);
    FlattenConcat(a + b, c);
    FlattenConcat(a + b + c, d);
  }

  // ----- Loading

  function LoadedPlayer(t: Tables, row: PlayerRow): PlayerRecord {
    PlayerRecord(row.id, row.card, Parsed(row.systems), Group(t.lines, OwnerKey(OfPlayer, row.id)))
  }

  /** A holding's inventory is found by its index among the rows read. */
  function LoadedHolding(t: Tables, kind: OwnerType, row: Row<(), Place>): Holding {
    Holding(row.value, Group(t.lines, HoldingKey(kind, row.pos)))
  }

  function LoadedHoldings(t: Tables, kind: OwnerType, rows: seq<Row<(), Place>>): (r: seq<Holding>)
    ensures |r| == |rows| && forall i :: 0 <= i < |r| ==> r[i] == LoadedHolding(t, kind, rows[i])
  {
    seq(|rows|, i requires 0 <= i < |rows| => LoadedHolding(t, kind, rows[i]))
  }

  function LoadedPlayers(t: Tables): (r: seq<PlayerRecord>)
    ensures |r| == |t.players| && forall i :: 0 <= i < |r| ==> r[i] == LoadedPlayer(t, t.players[i])
  {
    seq(|t.players|, i requires 0 <= i < |t.players| => LoadedPlayer(t, t.players[i]))
  }

  function LoadedWarps(t: Tables): (r: Chart)
    ensures |r| == |t.sectors| && forall i :: 0 <= i < |r| ==> r[i] == Group(t.warps, i)
  {
    seq(|t.sectors|, i requires 0 <= i < |t.sectors| => Group(t.warps, i))
  }

  /** The universe the rows describe. */
  function Rebuilt(t: Tables): Universe {
    Universe(LoadedWarps(t), LoadedPlayers(t), LoadedHoldings(t, OfPort, t.ports), LoadedHoldings(t, OfPlanet, t.planets),
             LoadedHoldings(t, OfBattlegroup, t.battlegroups), t.news, t.config)
  }

  method LoadHoldings(t: Tables, inventories: map<OwnerKey, seq<Line>>, kind: OwnerType, rows: seq<Row<(), Place>>) returns (holdings: seq<Holding>)
    requires forall key :: Lookup(inventories, key) == Group(t.lines, key)
    ensures holdings == LoadedHoldings(t, kind, rows)
  {
    hide Group, Lookup;
    holdings := [];
    for i := 0 to |rows|
      invariant |holdings| == i && forall k :: 0 <= k < i ==> holdings[k] == LoadedHolding(t, kind, rows[k])
    {
      holdings := holdings + [Holding(rows[i].value, Lookup(inventories, HoldingKey(kind, rows[i].pos)))];
    }
  }

  /** Warps are appended to their sectors as they are read; one from a sector that does not exist stops the load. */
  method LoadWarps(t: Tables) returns (ok: bool, g: Chart)
    ensures ok <==> forall i :: 0 <= i < |t.warps| ==> t.warps[i].key < |t.sectors|
    ensures ok ==> g == LoadedWarps(t)
  {
    hide Group;
    g := seq(|t.sectors|, i => []);
    NoRows(t.warps, |g|);
    for n := 0 to |t.warps|
      invariant forall i :: 0 <= i < n ==> t.warps[i].key < |t.sectors|
      invariant |g| == |t.sectors| && forall i: nat :: i < |g| ==> g[i] == Group(t.warps[..n], i)
    {
      var row := t.warps[n];
      if row.key >= |g| {
        return false, g;
      }
      ghost var before := g;
      g := g[row.key := g[row.key] + [row.value]];
      forall i: nat | i < |g| ensures g[i] == Group(t.warps[..n + 1], i) {
        OneMoreRow(t.warps, n, i);
        assert before[i] == Group(t.warps[..n], i);
      }
    }
    assert t.warps[..|t.warps|] == t.warps;
    ok := true;
  }

  lemma NoRows<V>(rows: seq<Row<nat, V>>, n: nat)
    ensures forall i: nat :: i < n ==> Group(rows[..0], i) == []
  {
  }

  method LoadPlayers(t: Tables, inventories: map<OwnerKey, seq<Line>>) returns (players: seq<PlayerRecord>)
    requires forall key :: Lookup(inventories, key) == Group(t.lines, key)
    ensures players == LoadedPlayers(t)
  {
    hide Group, Lookup, Parsed;
    players := [];
    for i := 0 to |t.players|
      invariant |players| == i && forall k :: 0 <= k < i ==> players[k] == LoadedPlayer(t, t.players[k])
    {
      var row := t.players[i];
      var systems := SystemsFromString(row.systems);
      players := players + [PlayerRecord(row.id, row.card, systems, Lookup(inventories, OwnerKey(OfPlayer, row.id)))];
    }
  }

  /** Regrouping: an empty store loads nothing, and a warp from nowhere stops the load. */
  method Rebuild(t: Tables) returns (loaded: bool, u: Universe)
    ensures loaded <==> t.sectors != [] && forall i :: 0 <= i < |t.warps| ==> t.warps[i].key < |t.sectors|
    ensures loaded ==> u == Rebuilt(t)
  {
    u := Universe([], [], [], [], [], [], map[]);
    if |t.sectors| == 0 {
      return false, u;
    }
    var inventories := Regroup(t.lines);
    var g;
    loaded, g := LoadWarps(t);
    if loaded {
      var players := LoadPlayers(t, inventories);
      var ports := LoadHoldings(t, inventories, OfPort, t.ports);
      var planets := LoadHoldings(t, inventories, OfPlanet, t.planets);
      var battlegroups := LoadHoldings(t, inventories, OfBattlegroup, t.battlegroups);
      u := Universe(g, players, ports, planets, battlegroups, t.news, t.config);
    }
  }

  // ----- There and back

  /** The tables' primary keys: what the database insists on before it stores anything. */
  ghost predicate KeysHold(t: Tables) {
    && NoneTwice(t.sectors) && NoneTwice(t.warps) && NoneTwice(t.lines)
    && NoneTwice(t.ports) && NoneTwice(t.planets) && NoneTwice(t.battlegroups)
    && forall i, j :: 0 <= i < j < |t.players| ==> t.players[i].id != t.players[j].id
  }

  ghost predicate NoRepeats(list: seq<nat>) {
    forall i, j :: 0 <= i < j < |list| ==> list[i] != list[j]
  }

  /** No two players share an id, and no sector lists a warp twice. */
  ghost predicate Storable(u: Universe) {
    && (forall i, j :: 0 <= i < j < |u.players| ==> u.players[i].id != u.players[j].id)
    && forall i :: 0 <= i < |u.warps| ==> NoRepeats(u.warps[i])
  }

  /** That is just what the keys ask for. */
  lemma StorableExactly(u: Universe)
    ensures KeysHold(Flat(u)) <==> Storable(u)
  {
    var t, lists := Flat(u), WarpLists(u.warps);
    if Storable(u) {
      KeysDistinct(u);
      FlattenedOnce(OwnerKeys(u), OwnerLists(u));
      FlattenedOnce(Numbers(|u.warps|), lists);
    }
    if KeysHold(t) {
      forall i, j | 0 <= i < j < |u.players| ensures u.players[i].id != u.players[j].id {
        assert t.players[i].id != t.players[j].id;
      }
      forall i | 0 <= i < |u.warps| ensures NoRepeats(u.warps[i]) {
        OnceInEach(lists, i);
        assert forall j :: 0 <= j < |u.warps[i]| ==> lists[i][j] == Row(i, u.warps[i][j], u.warps[i][j]);
      }
    }
  }

  /** The universe with every damage list at six counters. */
  function SixSystems(players: seq<PlayerRecord>): (r: seq<PlayerRecord>)
    ensures |r| == |players| && forall i :: 0 <= i < |r| ==> r[i] == players[i].(systems := Fitted(players[i].systems))
  {
    seq(|players|, i requires 0 <= i < |players| => players[i].(systems := Fitted(players[i].systems)))
  }

  lemma KeysDistinct(u: Universe)
    requires Storable(u)
    ensures Owned(OwnerKeys(u), OwnerLists(u))
  {
    var keys, lists := OwnerKeys(u), OwnerLists(u);
    ListsOwned(u);
    forall i, j | 0 <= i < j < |keys| ensures keys[i] != keys[j] {
      Different(u, i, j);
    }
    hide OwnerKeys, OwnerLists, Storable;
  }

  lemma ListsOwned(u: Universe)
    ensures var keys, lists := OwnerKeys(u), OwnerLists(u);
            && |keys| == |lists|
            && (forall i, j :: 0 <= i < |lists| && 0 <= j < |lists[i]| ==> lists[i][j].key == keys[i])
            && (forall i :: 0 <= i < |lists| ==> ByPosition(lists[i]))
  {
  }

  lemma Different(u: Universe, i: nat, j: nat)
    requires Storable(u) && i < j < |OwnerKeys(u)|
    ensures OwnerKeys(u)[i] != OwnerKeys(u)[j]
  {
    hide OwnerKeys;
    KeyKind(u, i);
    KeyKind(u, j);
    var a, b := OwnerKeys(u)[i], OwnerKeys(u)[j];
    if a == b && !a.kind.OfPlayer? {
      ItoaInjective(i - First(u, a.kind), j - First(u, a.kind));
    }
  }

  /** Where the owners of a type begin. */
  function First(u: Universe, kind: OwnerType): nat {
    match kind
    case OfPlayer => 0
    case OfPort => |u.players|
    case OfPlanet => |u.players| + |u.ports|
    case OfBattlegroup => |u.players| + |u.ports| + |u.planets|
  }

  lemma KeyKind(u: Universe, i: nat)
    requires i < |OwnerKeys(u)|
    ensures var key := OwnerKeys(u)[i];
            && First(u, key.kind) <= i
            && if key.kind.OfPlayer? then i < |u.players| && key == PlayerKey(u.players[i]) else key == HoldingKey(key.kind, i - First(u, key.kind))
  {
  }

  lemma LinesBack(u: Universe, rows: seq<Row<OwnerKey, Line>>, i: nat)
    requires Storable(u) && IsRead(Flatten(OwnerLists(u)), rows) && i < |OwnerKeys(u)|
    ensures |OwnerLists(u)| == |OwnerKeys(u)| && Group(rows, OwnerKeys(u)[i]) == Values(OwnerLists(u)[i])
  {
    KeysDistinct(u);
    Regrouped(OwnerKeys(u), OwnerLists(u), rows, OwnerKeys(u)[i]);
  }

  lemma ListBack<K, V>(key: K, list: seq<V>)
    ensures Values(RowsOf(key, list)) == list
  {
  }

  /** A table with one list, ordered by position, comes back as it was. */
  lemma IndexedBack<V>(list: seq<V>, rows: seq<Row<(), V>>)
    requires IsRead(RowsOf((), list), rows)
    ensures rows == RowsOf((), list)
  {
    OneOrder(rows, RowsOf((), list));
  }

  lemma LinesRead(u: Universe, t: Tables)
    requires Reads(Flat(u), t)
    ensures IsRead(Flatten(OwnerLists(u)), t.lines)
  {
  }

  lemma PlayersBack(u: Universe, t: Tables)
    requires Storable(u) && Reads(Flat(u), t)
    ensures LoadedPlayers(t) == SixSystems(u.players)
  {
    forall i | 0 <= i < |u.players| ensures LoadedPlayers(t)[i] == SixSystems(u.players)[i] {
      PrintedAndParsed(u.players[i].systems);
      LinesBack(u, t.lines, i);
      assert OwnerKeys(u)[i] == PlayerKey(u.players[i]) && OwnerLists(u)[i] == RowsOf(PlayerKey(u.players[i]), u.players[i].inv);
      ListBack(PlayerKey(u.players[i]), u.players[i].inv);
    }
  }

  lemma HoldingsBack(u: Universe, t: Tables, kind: OwnerType, holdings: seq<Holding>, rows: seq<Row<(), Place>>)
    requires Storable(u) && Reads(Flat(u), t) && IsRead(RowsOf((), Places(holdings)), rows) && Stand(u, kind, holdings)
    ensures LoadedHoldings(t, kind, rows) == holdings
  {
    hide Storable, Reads, Flat, OwnerKeys, OwnerLists, IsRead, First;
    LinesRead(u, t);
    IndexedBack(Places(holdings), rows);
    forall i | 0 <= i < |holdings| ensures LoadedHoldings(t, kind, rows)[i] == holdings[i] {
      LinesBack(u, t.lines, First(u, kind) + i);
      ListBack(HoldingKey(kind, i), holdings[i].inv);
    }
  }

  lemma WarpsOwned(g: Chart)
    requires Tidy(g)
    ensures Owned(Numbers(|g|), WarpLists(g))
  {
  }

  lemma WarpsBack(u: Universe, t: Tables)
    requires Storable(u) && Tidy(u.warps) && Reads(Flat(u), t)
    ensures LoadedWarps(t) == u.warps && forall i :: 0 <= i < |t.warps| ==> t.warps[i].key < |t.sectors|
  {
    var g, lists := u.warps, WarpLists(u.warps);
    IndexedBack(Numbers(|g|), t.sectors);
    WarpsOwned(g);
    hide Owned, IsRead, Group, Flatten, Tidy;
    forall i | 0 <= i < |g| ensures LoadedWarps(t)[i] == g[i] {
      Regrouped(Numbers(|g|), lists, t.warps, i);
      assert Numbers(|g|)[i] == i;
      assert Values(lists[i]) == g[i];
    }
    forall n | 0 <= n < |t.warps| ensures t.warps[n].key < |g| {
      GroupNotEmpty(t.warps, n);
      Regrouped(Numbers(|g|), lists, t.warps, t.warps[n].key);
    }
  }

  /** What a read of the flattened universe is a read of, table by table. */
  lemma TablesRead(u: Universe, t: Tables)
    requires Reads(Flat(u), t)
    ensures IsRead(RowsOf((), Numbers(|u.warps|)), t.sectors) && t.news == u.news && t.config == u.config
    ensures IsRead(RowsOf((), Places(u.ports)), t.ports) && IsRead(RowsOf((), Places(u.planets)), t.planets)
    ensures IsRead(RowsOf((), Places(u.battlegroups)), t.battlegroups)
  {
    hide IsRead;
  }

  lemma Middle<T>(before: seq<T>, own: seq<T>, after: seq<T>)
    ensures |before + own + after| == |before| + |own| + |after|
    ensures forall i :: 0 <= i < |own| ==> (before + own + after)[|before| + i] == own[i]
  {
  }

  /** The holdings of one kind among the owners. */
  ghost predicate Stand(u: Universe, kind: OwnerType, holdings: seq<Holding>) {
    && First(u, kind) + |holdings| <= |OwnerKeys(u)| == |OwnerLists(u)|
    && forall i :: 0 <= i < |holdings| ==>
         && OwnerKeys(u)[First(u, kind) + i] == HoldingKey(kind, i)
         && OwnerLists(u)[First(u, kind) + i] == RowsOf(HoldingKey(kind, i), holdings[i].inv)
  }

  /** One list of holdings, between those before it and those after it. */
  lemma StandsBetween(u: Universe, kind: OwnerType, holdings: seq<Holding>, keysBefore: seq<OwnerKey>, keysAfter: seq<OwnerKey>,
                      listsBefore: seq<seq<Row<OwnerKey, Line>>>, listsAfter: seq<seq<Row<OwnerKey, Line>>>)
    requires OwnerKeys(u) == keysBefore + HoldingKeys(kind, holdings) + keysAfter && |keysBefore| == First(u, kind)
    requires OwnerLists(u) == listsBefore + HoldingLists(kind, holdings) + listsAfter && |listsBefore| == First(u, kind)
    requires |keysAfter| == |listsAfter|
    ensures Stand(u, kind, holdings)
  {
    hide OwnerKeys, OwnerLists, First;
    Middle(keysBefore, HoldingKeys(kind, holdings), keysAfter);
    Middle(listsBefore, HoldingLists(kind, holdings), listsAfter);
  }

  /** Each list of holdings stands among the owners where it begins. */
  lemma AllStand(u: Universe)
    ensures Stand(u, OfPort, u.ports) && Stand(u, OfPlanet, u.planets) && Stand(u, OfBattlegroup, u.battlegroups)
  {
    hide Stand;
    var a, b, c, d := PlayerKeys(u.players), HoldingKeys(OfPort, u.ports), HoldingKeys(OfPlanet, u.planets), HoldingKeys(OfBattlegroup, u.battlegroups);
    var e, f, g, h := PlayerLists(u.players), HoldingLists(OfPort, u.ports), HoldingLists(OfPlanet, u.planets), HoldingLists(OfBattlegroup, u.battlegroups);
    assert a + b + c + d == a + b + (c + d) && e + f + g + h == e + f + (g + h);
    StandsBetween(u, OfPort, u.ports, a, c + d, e, g + h);
    StandsBetween(u, OfPlanet, u.planets, a + b, d, e + f, h);
    assert a + b + c + d == a + b + c + d + [] && e + f + g + h == e + f + g + h + [];
    StandsBetween(u, OfBattlegroup, u.battlegroups, a + b + c, [], e + f + g, []);
  }

  lemma TidyRoundTrip(u: Universe, t: Tables)
    requires Storable(u) && Tidy(u.warps) && Reads(Flat(u), t)
    ensures Rebuilt(t) == u.(players := SixSystems(u.players))
    ensures |t.sectors| == |u.warps| && (forall i :: 0 <= i < |t.sectors| ==> t.sectors[i].value == i)
    ensures forall i :: 0 <= i < |t.warps| ==> t.warps[i].key < |t.sectors|
  {
    hide Storable, Tidy, Reads, Flat, IsRead, Stand, LoadedPlayers, LoadedWarps, LoadedHoldings, SixSystems;
    PlayersBack(u, t);
    WarpsBack(u, t);
    TablesRead(u, t);
    IndexedBack(Numbers(|u.warps|), t.sectors);
    AllStand(u);
    HoldingsBack(u, t, OfPort, u.ports, t.ports);
    HoldingsBack(u, t, OfPlanet, u.planets, t.planets);
    HoldingsBack(u, t, OfBattlegroup, u.battlegroups, t.battlegroups);
  }

  // ----- Warps out of order

  /** Every warp list sorted. */
  function InOrder(g: Chart): (r: Chart)
    ensures |r| == |g| && forall i :: 0 <= i < |r| ==> r[i] == SortInts(g[i])
  {
    seq(|g|, i requires 0 <= i < |g| => SortInts(g[i]))
  }

  lemma {:induction false} RowCounts(from: nat, warps: seq<nat>)
    ensures forall r: Row<nat, nat> :: multiset(WarpRows(from, warps))[r]
                                       == if r == Row(from, r.value, r.value) then multiset(warps)[r.value] else 0
  {
    if warps != [] {
      var init, last := warps[..|warps| - 1], warps[|warps| - 1];
      RowCounts(from, init);
      assert warps == init + [last];
      assert WarpRows(from, warps) == WarpRows(from, init) + [Row(from, last, last)];
    }
  }

  /** The same warps in whatever order are the same rows. */
  lemma {:induction false} SameRows(g: Chart, h: Chart)
    requires |g| == |h| && forall i :: 0 <= i < |g| ==> multiset(g[i]) == multiset(h[i])
    ensures multiset(Flatten(WarpLists(g))) == multiset(Flatten(WarpLists(h)))
  {
    if g != [] {
      var last := |g| - 1;
      SameRows(g[..last], h[..last]);
      assert WarpLists(g)[..last] == WarpLists(g[..last]) && WarpLists(h)[..last] == WarpLists(h[..last]);
      RowCounts(last, g[last]);
      RowCounts(last, h[last]);
      SameCounts(WarpRows(last, g[last]), WarpRows(last, h[last]));
    }
  }

  /** A list without repeats is sorted into strict order, and is left alone exactly when it was in order. */
  lemma SortedOnce(list: seq<nat>)
    requires NoRepeats(list)
    ensures Increasing(SortInts(list)) && (SortInts(list) == list <==> Sorted(list))
  {
    var sorted := SortInts(list);
    forall i, j | 0 <= i < j < |sorted| ensures sorted[i] < sorted[j] {
      if sorted[i] == sorted[j] {
        Twice(sorted, i, j);
        Once(list, sorted[i]);
      }
    }
    if Sorted(list) {
      SameOrder(sorted, list);
    }
  }

  lemma SameOrder(a: seq<nat>, b: seq<nat>)
    requires multiset(a) == multiset(b) && Increasing(a) && Sorted(b) && NoRepeats(b)
    ensures a == b
  {
    RowCounts(0, a);
    RowCounts(0, b);
    SameCounts(WarpRows(0, a), WarpRows(0, b));
    OneOrder(WarpRows(0, a), WarpRows(0, b));
    assert |a| == |b| by { SameLength(a, b); }
    forall i | 0 <= i < |a| ensures a[i] == b[i] {
      assert WarpRows(0, a)[i] == WarpRows(0, b)[i];
    }
  }

  /**
    * The round trip, for every universe the database stores: whatever order it hands its rows back in, as long as it
    * keeps its keys' order, loading rebuilds the universe exactly, every inventory in its order, with six damage
    * counters to each ship and every warp list sorted.
    */
  lemma RoundTrip(u: Universe, t: Tables)
    requires KeysHold(Flat(u)) && Reads(Flat(u), t)
    ensures Rebuilt(t) == u.(players := SixSystems(u.players), warps := InOrder(u.warps))
    ensures |t.sectors| == |u.warps| && (forall i :: 0 <= i < |t.sectors| ==> t.sectors[i].value == i)
    ensures forall i :: 0 <= i < |t.warps| ==> t.warps[i].key < |t.sectors|
  {
    StorableExactly(u);
    var v := u.(warps := InOrder(u.warps));
    SameRows(u.warps, v.warps);
    ReadsSorted(u, v, t);
    hide KeysHold, Reads, Flat, Rebuilt;
    forall i | 0 <= i < |u.warps| ensures Increasing(v.warps[i]) && NoRepeats(v.warps[i]) {
      SortedOnce(u.warps[i]);
    }
    TidyRoundTrip(v, t);
  }

  /** The rows of warps are the same in whatever order they were flattened, and so are their reads. */
  lemma ReadsSorted(u: Universe, v: Universe, t: Tables)
    requires Reads(Flat(u), t) && v == u.(warps := v.warps) && |v.warps| == |u.warps|
    requires multiset(Flatten(WarpLists(u.warps))) == multiset(Flatten(WarpLists(v.warps)))
    ensures Reads(Flat(v), t)
  {
    hide Flatten, WarpLists, RowsOf;
    assert OwnerLists(v) == OwnerLists(u);
  }
}
