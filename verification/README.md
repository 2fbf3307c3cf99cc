# Galactic Warzone, verified

A Dafny model of the engine of Galactic Warzone, a multi-player space trading and combat game whose world is
changed by exactly one writer, command by command. The model follows the Go packages `pkg/galwar`, `pkg/gostrict`
and `pkg/ratelimit`, branch by branch, and proves what the engine promises over every input, every run and every
interleaving. `dafny verify dfyconfig.toml` checks the whole project.

## What is modelled

**The world.** `Worlds.World` is the object every command changes. Its lists of players, planets and sector defense
forces hold records; a player is named by its position in the list, which only grows. `Valid` says that everybody is
where they may be, that every asset has a living owner and stands outside sectors 0 to 10, that no sector holds two
planets or two forces, that no force is empty, and that no quantity or purse has ever been clamped at zero, where
the engine would log a bug. Each engine command is a method with its refusals in their order (`Commands`, `Combat`,
`Invasion`, `Fleets`, `Holdings`, `PlanetCommands`, `Rewiring`, `Trading`, `Sessions`), so are the nightly
maintenance and the faction pass (`Maintenance`, `Factions`, `Raids`), and `Runs` serves any sequence of them.

Fights are followed with relations that compose: `Fought` (what any amount of fighting may do to one ship),
`Aftermath` and `Worn` (what it may do to everybody else's ships and assets), `NotRicher` (no trader's net worth
rises); and with what each fight comes to, step by step: `Contested` for a move, `Attacked`, `Invaded`, `StruckAlong`
for a strike, `FactionNight` for the factions' night. `Orders` says of every command what serving it comes to, refusals
included, and `Runs` that any run is a chain of such steps. From these come the results over whole runs: Federation space is safe, the weak and the absent are spared by
the factions, fighting creates no fighter and no mine, and net worth is conserved by every transfer.

**The galaxy.** Sectors are objects with sorted warp lists (`Sectors`, `Links`). The autopilot (`Universe`, with its
reasons in `Routing`), the nearest-port search (`Computer`) and the connectivity repair with the generator around it
(`Generation`) are proved against one inductive notion of path (`Graphs`).

**Trade and arithmetic.** The lazy restock clock over arbitrary polling schedules, scarcity prices (`Commodities`),
volume scaling and trades (`Trading`). Prices and scale factors are exact rationals.

**The word filter.** A dictionary trie (`Tries`), what it means for text to spell a word with tolerance (`Matching`),
and the pruned simultaneous walk with its cancellation rule (`Censors`).

**Around the world.** Token buckets kept by key (`RateLimit`), the single writer with its callers and the
write-behind persister as a step protocol (`Persistence`), queued news in an array compacted in place (`News`),
inventories as the engine's lists of lines (`Inventories`, which shows that they behave as the maps the rest of the
model uses, and `Accounts`, which says what its clamps mean for the books), and saving, loading and upgrading the universe (`Rows`, `Decimals`, `Snapshots`, `Upgrades`,
`Loading`).

Random numbers are arbitrary choices in their range, the order of a map is an arbitrary order, the time is a number
of seconds handed to each command, settings are a record of natural numbers, and reports and logs are erased. The
code that calls the engine is represented by one fact only: commands that place things in a sector are given the
sector the ship is in (pkg/consoleui/consoleui.go:883-897).

## Where code and documentation differ

- The restock comment promises that polling can never round production away, which holds (`Commodities.NothingLost`).
  The clock is charged in whole seconds rounded down, so polls may also credit more than was produced:
  `Commodities.NothingExtraExactlyWhen` says exactly for which stocks none ever does, `Commodities.PollsAreGenerous`
  gives a port for which some do, and `Commodities.CreditIsBounded` says by how much at most.
- Sweeping idle buckets is invisible exactly when the rate refills a bucket within the ten minutes of idleness that
  precede it (`RateLimit.UnnoticedExactlyWhen`), as it does at both places that use it.
- Loading repairs less than an upgrade does. An upgrade clears a damage list that has not six counters, a load fills it
  up with zeros and keeps what it said (`Loading.DamageOutlivesLoading`); and the table of warps is read in order, so
  a warp list that was not comes back sorted. `Loading.LoadedIsUpgraded` says exactly when loading a saved universe
  gives what upgrading it would have, and `Loading.LoadedStays` that one that has been loaded stays as it is.
- Planets keep compounding, but the rates of fighters and mines are set anew from the index every night, and fall
  when industry was lost (`Maintenance.GrowthOnly`, `Maintenance.ArmsCanFall`).
- Net worth is unchanged by transfers between ship and planet of cargo, fighters and mines. The transfer commands
  accept any good, and one that does not count on a planet leaves its owner's net worth while it is landed
  (`PlanetCommands.LandedWarpVanishes`); `PlanetCommands.KeepsWorthExactly` says which exchanges keep it.
- Warps are usually described as two-way. Rerouting during generation may leave one-way warps, so paths are over a
  directed graph throughout.

## Model

| member | source | states |
|---|---|---|
| `Battle.Attrition` | pkg/galwar/combat.go:33-56 | two pools wear each other down until exactly one is exhausted and the other is not; neither ever loses more than it had, so the closing clamps never act, and an empty pool never fights |
| `Specials.AbsorbMine` | pkg/galwar/specials.go:214-220 | a deflector stops the blast exactly when one is aboard, and exactly one is used up |
| `Specials.TryEmWarp` | pkg/galwar/specials.go:225-243 | the device fires exactly when one is aboard; it is used up and the ship is thrown to a sector of the map, another one if there is another; otherwise nothing changes |
| `Specials.MineBlast` | pkg/galwar/combat.go:62-76 | one mine costs 300 to 499 fighters and 7 to 12 holds, or what there was of them, and 5 to 19 turns of damage to one system; nothing else about the ship changes |
| `Specials.DetonateMine` | pkg/galwar/commands.go:117-138 | one mine: deflected, survived, fled from or fatal, and nobody but the ship (and, if it dies, its estate) is affected |
| `Fights.SweepMines` | pkg/galwar/commands.go:113-145 | mines go off one by one until they are spent or the ship is gone; a survivor has lost deflectors first and then between 300 and 499 fighters a mine; a ship lost or driven off had no deflector left and no more fighters than the mines past its deflectors can cost |
| `Fights.EscapeOrDie` | pkg/galwar/commands.go:89-101 | a ship without fighters escapes exactly when it carries an Emergency Warp, which is used up, and otherwise is dead at that instant |
| `Fights.FoughtOn` | pkg/galwar/combat.go:83-541 | what one fight may do to a ship, a second may do after it: only fighters, holds, deflectors and Emergency Warps are lost, nothing is gained but salvage, a ship moves only by Emergency Warp and dies only without fighters and without one |
| `Accounts.BooksBalance` | pkg/galwar/base.go:77-124 | over any run of adjustments, a quantity or a purse is what it started with and the sum of the adjustments exactly when nothing was ever clamped, which is when no part of the run takes out more than there was; clamping only ever leaves more |
| `Accounts.OneGoodAtATime` | pkg/galwar/base.go:77-92 | in an inventory such a run moves the one good so, and no other |
| `Inventories.InventoryBase.GetCommodity` | pkg/galwar/base.go:46-53 | finds the line for a good exactly when the list has one |
| `Inventories.InventoryBase.SomeInventory` | pkg/galwar/base.go:33-40 | true exactly when some listed quantity is positive |
| `Inventories.InventoryBase.GetFreeHolds` | pkg/galwar/base.go:66-72 | holds less all cargo over every line, which is holds less ore, organics and equipment of the inventory the list stands for |
| `Inventories.InventoryBase.AdjustQuantity` | pkg/galwar/base.go:77-92 | on the list of lines, exactly the adjustment the rest of the model makes on the map the list stands for, and a clamp exactly when that adjustment overdraws |
| `Inventories.InventoryBase.SetQuantity` | pkg/galwar/base.go:94-112 | on the list of lines, exactly the setting the rest of the model makes on the map the list stands for |
| `Inventories.StockUpdated` | pkg/galwar/base.go:77-111 | changing one line of a list without duplicates changes just that good of the inventory it stands for |
| `Inventories.CargoCounted` | pkg/galwar/base.go:66-72 | the holds the lines fill are the ore, organics and equipment of the inventory |
| `Death.EnsureNpc` | pkg/galwar/death.go:22-48 | finds the faction's record, or puts just one blank one at the end; nobody else changes |
| `Death.ForfeitAssets` | pkg/galwar/death.go:54-75 | every defense force of the player goes to the Renegades and every planet to the Cabal or the Federation; every other asset keeps its owner and the world stays sound |
| `Death.KillPlayer` | pkg/galwar/death.go:100-109 | the dead are left alone; a living player is marked dead and parked off the map, with all assets passed on and nobody else affected |
| `Death.ExpirePlayer` | pkg/galwar/death.go:116-127 | factions, the dead and the already repossessed are left alone; otherwise assets pass on, the account is gone and a fresh ship stands at Sol |
| `Death.ReconstructIfDue` | pkg/galwar/death.go:132-159 | rebuilt exactly when dead since an earlier day, with the starting kit scaled down by the penalty |
| `Death.PenaltyEscalates` | pkg/galwar/death.go:142-148 | the withheld share never eases from one death to the next |
| `Death.PenaltyRounded` | pkg/galwar/death.go:142-148 | from the second death on it is 65 (n - 1) / n percent to the nearest whole, a half rounded up; 33 at the second |
| `Death.StartingPurse` | pkg/galwar/death.go:150-157 | the purse is scaled down like the kit, fractions of a credit dropped |
| `Sectors.Sector.AddWarp` | pkg/galwar/sector.go:25-33 | the destination is listed afterwards, a known one changes nothing, and a sorted duplicate-free list stays one |
| `Sectors.Sector.RemoveWarp` | pkg/galwar/sector.go:35-42 | the first entry is cut out, the others keep their order, and a sorted duplicate-free list stays one without the destination |
| `Sectors.Sector.HasWarp` | pkg/galwar/sector.go:44-51 | true exactly when listed |
| `Sectors.PlacedIsSorted` | pkg/galwar/sector.go:25-33 | placing one number into a sorted list leaves it sorted |
| `Sectors.PlacedIsAPermutation` | pkg/galwar/sector.go:25-33 | placing one number into a list loses and repeats nothing |
| `Links.SetWarp` | pkg/galwar/sector.go:25-42 | one warp added or cut over a whole galaxy of any lists: the list gains the warp or loses its first entry for it, every other warp is as it was, targets stay valid, lists in order stay in order, and no loop appears that was not asked for |
| `Links.SetWarps` | pkg/galwar/init.go:107-108 | the same in both directions |
| `Universe.Validate` | pkg/galwar/universe.go:209-226 | accepts exactly the sector tables that are numbered by position and whose warps lead to sectors 1 to n |
| `Universe.ShortestPathTo` | pkg/galwar/universe.go:308-361 | a route exactly when both ends are on the map and the target can be reached; it is a path warp by warp, and no path is shorter |
| `Universe.Visit` | pkg/galwar/universe.go:323-352 | finishing the nearest open sector keeps the tables' meaning, and when no open sector has been reached none of the others can be |
| `Universe.Trace` | pkg/galwar/universe.go:354-360 | following predecessors back from a reached sector always arrives at the source, by a path as long as the recorded distance |
| `Routing.PrefixBound` | pkg/galwar/universe.go:322-352 | a path that stays among finished sectors is never shorter than the distance recorded where it leaves them |
| `Routing.OpenBound` | pkg/galwar/universe.go:322-352 | no path to an open sector is shorter than the distance of the nearest open one |
| `Routing.Optimal` | pkg/galwar/universe.go:354-360 | a path as long as the recorded distance of the nearest open sector is a shortest one |
| `Routing.NoRoute` | pkg/galwar/universe.go:348-350 | with no open sector reached, the finished ones are all there is |
| `Graphs.PathsStayInside` | pkg/galwar/universe.go:308-361 | a path cannot leave a set that no warp leads out of |
| `Graphs.DistanceIsUnique` | pkg/galwar/computer.go:59-94 | two sectors are at one distance only |
| `Computer.NearestPort` | pkg/galwar/computer.go:63-94 | found exactly when a matching port can be reached; its distance is the smallest of all that can be, and the name is that of the first matching port listed in its sector |
| `Computer.PortHere` | pkg/galwar/computer.go:67-74 | the first listed port that is in the sector and matches, or none exactly when there is none |
| `Computer.Examine` | pkg/galwar/computer.go:80-92 | one round of the search: the head of the queue holds a nearest wanted port, or it is finished and the queue's meaning is kept |
| `Computer.HeadIsNearest` | pkg/galwar/computer.go:80-92 | the head of the breadth-first queue is a nearest unfinished sector |
| `Computer.CourseToNearest` | pkg/galwar/computer.go:63-94 | the autopilot's route to the port found exists exactly when one was found and has as many warps as the distance reported |
| `Generation.Explore` | pkg/galwar/init.go:176-189 | marks exactly what can be reached from the start beyond what was marked, and leaves the marks closed under warps |
| `Generation.RepairConnectivity` | pkg/galwar/init.go:172-209 | for any graph with valid targets: afterwards every sector can be reached from the first; warps were only added, in pairs; a sector leads to itself just when it did before, and lists sorted without duplicates still are; each link joins a sector that could not be reached from the first with one that could, and nothing at all is added exactly when all could be reached before |
| `Generation.RelinkOne` | pkg/galwar/init.go:193-207 | one stranded sector linked, whichever reached partner is chosen, brings in all that it leads to |
| `Generation.Stranded` | pkg/galwar/init.go:190-196 | what a closed set of marks leaves out cannot be reached |
| `Generation.Generate` | pkg/galwar/init.go:56-167 | the galaxy is laid out stage by stage, in order: the chain, the hub, as many links within a hundred as half the sectors, 250 reroutings, the dead ends, and the repair; however the dice fall it is valid, sorted, loop-free and reachable from the first sector throughout |
| `Generation.Relink` | pkg/galwar/init.go:111-134 | 250 times both ends of one of the first two warps of some sector are cut and linked elsewhere, which may leave one-way warps; targets stay valid, lists sorted, and no loop appears |
| `Generation.KeepOneLink` | pkg/galwar/init.go:142-160 | a sector with links is left with just one of them, which goes both ways; one without is left alone; targets stay valid, lists sorted and free of loops |
| `Commands.SpendTurn` | pkg/galwar/commands.go:16-29 | refused exactly when there is neither a daily nor a banked turn; otherwise one turn is gone and every damaged system is one point better |
| `Commands.HostileBattlegroup` | pkg/galwar/commands.go:153-160 | a foreign defense force in the sector, or none exactly when there is none |
| `Commands.MovePlayer` | pkg/galwar/commands.go:47-149 | the refusals in their order, refusal changes nothing; against a force that somebody else has there, all the ship's fighters are exchanged with all the guards, a ship that loses is stopped, dead or gone by its Emergency Warp, and the guards keep what they did not lose; one that wins, less its losses, meets every mine that lay there at 300 to 499 fighters a mine past its deflectors; a ship still flying with its Emergency Warp unused is at its destination with no foreign fighter or mine left there; nobody else's ship changes and there are no more fighters or mines than before; an undefended sector costs a turn and nothing else |
| `Commands.ContestEntry` | pkg/galwar/commands.go:75-106 | all the ship's fighters against all the guards: it is stopped exactly when there were guards and it lost all it had, and then it is dead or has fled and the guards keep what they did not lose; otherwise it has lost just its losses and no guard is left |
| `Commands.EnterMinefield` | pkg/galwar/commands.go:110-145 | every mine that lay there is met, at its price in deflectors and fighters, until they are spent or the ship is dead or has fled |
| `Commands.HostileStoresAre` | pkg/galwar/commands.go:153-160 | what is called the hostile stores of a sector is just what the one foreign force there holds, or nothing |
| `Combat.AttackPlayer` | pkg/galwar/combat.go:83-163 | the refusals in their order, refusal changes nothing; only the two ships take part; the committed fighters are exchanged with all the target has, and then the target is finished off or flees, strikes back with everything, or lets it be; the committed fighters are lost or the target has none left, and then it is dead or has fled; an attacker that killed a target carrying mines is dead, has fled, or has lost at least 300 fighters for every mine past its deflectors |
| `Combat.AttackRefusal` | pkg/galwar/combat.go:83-114 | an attack goes ahead exactly when all the conditions hold, Federation space and dormant or cloaked targets among them |
| `Combat.ResolveKill` | pkg/galwar/combat.go:169-192 | the victim escapes exactly when it carries an Emergency Warp; otherwise it is dead, the killer has salvaged 30 to 99 percent of its holds as far as there is room, and has then met every mine the victim carried at the full price, or has died or fled of them |
| `Combat.ResolveKillReversed` | pkg/galwar/combat.go:197-216 | the same for a defender's kill, without the mines |
| `Combat.DetonateCarriedMines` | pkg/galwar/combat.go:358-378 | the toll every carried mine takes on the killer, the victim untouched |
| `Combat.CounterAttack` | pkg/galwar/combat.go:137-158 | everything both ships have is exchanged and the side left without fighters is finished off or flees; an attacker left without fighters is dead or has fled, and so is such a defender |
| `Combat.Duel` | pkg/galwar/combat.go:120-158 | the blow-by-blow of a paid-for attack: one exchange, and then a kill or a chance of a counter-attack, with what each costs both ships |
| `Combat.AttackPrice` | pkg/galwar/combat.go:120-192 | whoever kills the target pays for its mines; and an attacker left without fighters is dead or has fled, unless it committed and lost them all and the target, which still has some, let it be |
| `Invasion.InvadePlanet` | pkg/galwar/combat.go:227-353 | the refusals in their order, refusal changes nothing; it ends at the garrison, in the minefield, with the planet captured or with it destroyed; a planet is taken or destroyed only by an invader that wiped out its garrison at the price of some of the committed fighters and then met all of its mines at their full price; one driven off has lost its commitment, and with it its ship if that was all it had; only the invader's ship changes and no fighter or mine is created |
| `Invasion.StormGarrison` | pkg/galwar/combat.go:263-271 | the committed fighters are exchanged with the garrison: it falls with committed fighters left, or the committed force is gone |
| `Invasion.CrossMinefield` | pkg/galwar/combat.go:291-313 | through, with garrison and mines gone and every mine paid for, or dead or fled of the mines with the planet still the defender's |
| `Invasion.Take` | pkg/galwar/combat.go:316-348 | the planet changes hands; a loss of two thousand fighters or more wrecks its production by a twentieth of the loss, and it is destroyed exactly when no production is left |
| `Invasion.InvasionPrice` | pkg/galwar/combat.go:263-313 | nobody takes or destroys a planet without wiping out its garrison and then meeting all of its mines |
| `Invasion.InvasionCreatesNothing` | pkg/galwar/combat.go:227-353 | whatever the outcome, only the invader's ship changed and fighters and mines did not increase over all ships, forces and planets |
| `Bombardment.Bombard` | pkg/galwar/specials.go:160-188 | each product's rate falls by the power of the bombs, stock is cut to ten days' output, and the planet goes exactly when nothing is produced any more |
| `Bombardment.BombedOut` | pkg/galwar/specials.go:176-187 | that is exactly when every rate was within the power of the bombs |
| `Fleets.ClearMines` | pkg/galwar/combat.go:470-489 | mines and ships run down at 300 to 499 ships a mine until one of them is gone |
| `Fleets.FightGarrison` | pkg/galwar/combat.go:459-496 | the fleet is exchanged with the hostile force's fighters and then, if 150 ships are left to set them off, runs into its mines at 300 to 499 ships a mine; a surviving fleet leaves no hostile fighter, a large one no hostile mine, a small one sets no mine off; no other force changes and nobody gets richer |
| `Fleets.EngageShips` | pkg/galwar/combat.go:498-538 | ship after ship, the fleet clashes with every one it sees while any of it is left, and a ship that loses all its fighters is dead or has fled; every other ship is as it was; a fleet that comes through has destroyed or driven off all it saw, and one that saw nobody is whole |
| `Fleets.BattleSector` | pkg/galwar/combat.go:448-541 | the hostile garrison and its mines first, then, for a fleet of two or more told to engage, outside Federation space, the ships, each as above; a fleet of two or more that comes through has left no visible ship and no hostile fighter there |
| `Fleets.LaunchBattleGroup` | pkg/galwar/combat.go:391-436 | the refusals in their order, refusal changes nothing; the route is a shortest one and the strike is one sector fight after another along it; the sender is poorer by exactly the ships that did not return; if two or more return, every ship that could be seen at launch in a sector of the route outside Federation space is dead or has used an Emergency Warp; if anything returns, no hostile fighter is left on the route; an unopposed fleet comes home whole; only ships outside Federation space and forces on the route can have suffered, a lone scout touches nobody, and no fighter or mine is created |
| `Fleets.ExposedShrinks` | pkg/galwar/combat.go:498-515 | who lies in a fleet's way never widens as it goes, although ships flee and die |
| `Fleets.ThroughTheGauntlet` | pkg/galwar/combat.go:498-538 | a fleet that comes past all the ships has seen off every one it saw, and touched nobody else |
| `Fleets.OneMoreSeenOff` | pkg/galwar/combat.go:409-415 | a ship in sight at launch is still in sight when the fleet gets there, unless it has already been destroyed or driven off |
| `Garrisons.WornOn` | pkg/galwar/combat.go:391-541 | losses of forces compose: only fighters and mines in the sectors named fall, assets pass only from the dead, totals do not rise |
| `Garrisons.Disbanded` | pkg/galwar/battlegroup.go:134-141 | striking an empty force from the list loses nothing and keeps the world sound |
| `Garrisons.AftermathWorn` | pkg/galwar/combat.go:83-541 | a fight among ships leaves every force as it was but for owners who died |
| `Ledger.FightsCreateNothing` | pkg/galwar/combat.go:83-541 | if no ship in a fight gained a good, the world has no more of it |
| `Ledger.PlayerValue` | pkg/galwar/value.go:12-52 | the tally over forces and planets is exactly the net worth |
| `Worth.ShipWorthChange` | pkg/galwar/value.go:18-33 | changing one good aboard changes a ship's worth by just its price times the difference |
| `Worth.ValueWithForce` | pkg/galwar/value.go:35-41 | changing one force changes its owner's worth by just the difference, and nobody else's |
| `Worth.ValueWithPlanet` | pkg/galwar/value.go:42-50 | the same for a planet |
| `Fortunes.FoughtWorth` | pkg/galwar/value.go:12-52 | a ship that fought without salvage is worth no more than it was |
| `Fortunes.AftermathNotRicher` | pkg/galwar/value.go:12-52 | so no trader is worth more after such a fight, forfeited assets included |
| `Fortunes.ForceHitNotRicher` | pkg/galwar/value.go:35-41 | nor when a force is worn down |
| `Holdings.GetBattlegroup` | pkg/galwar/battlegroup.go:78-98 | the caller's force, a new one, or a refusal exactly when somebody else defends the sector |
| `Holdings.AdjustBattlegroup` | pkg/galwar/battlegroup.go:103-128 | the refusals in their order, refusal leaves nothing behind; otherwise the force holds just the amount and the ship the rest, an empty force is disbanded, and for fighters and mines nobody's net worth moves |
| `PlanetCommands.GetPlanet` | pkg/galwar/planet.go:86-118 | under any flags: the caller's planet, nobody's, or the error that fits; a foreign planet is never returned |
| `PlanetCommands.UseGenesisDevice` | pkg/galwar/planet.go:120-140 | a planet is made exactly outside Federation space, in a sector without one, for one device |
| `PlanetCommands.TransferSet` | pkg/galwar/planet.go:145-161 | the planet holds just the amount and the ship the rest; for goods that count on a planet nobody's net worth moves |
| `PlanetCommands.TransferOut` | pkg/galwar/planet.go:163-181 | goods come aboard as far as stock and free holds allow, and free holds stay at zero or above |
| `PlanetCommands.TransferIn` | pkg/galwar/planet.go:183-200 | all cargo goes to the planet and nothing else moves; nobody's net worth does |
| `PlanetCommands.ExchangeWorth` | pkg/galwar/planet.go:145-200 | what an exchange does to everybody's net worth: nothing for goods that count on a planet, and for any other its owner is worth the price of what was landed less |
| `PlanetCommands.KeepsWorthExactly` | pkg/galwar/planet.go:145-200 | so it keeps net worth exactly when the good counts on a planet, is worth nothing, or none of it moved |
| `PlanetCommands.LandedWarpVanishes` | pkg/galwar/planet.go:148-161 | an exchange that does not: an Emergency Warp landed leaves its owner poorer by its price |
| `PlanetCommands.UsePulsar` | pkg/galwar/specials.go:92-113 | the refusals in their order; a thousand units of each rate a bomb, on the caller's own planet |
| `PlanetCommands.UsePulsarTube` | pkg/galwar/specials.go:119-154 | the refusals in their order; five hundred a bomb, on anybody's planet here |
| `PlanetCommands.BankDeposit` | pkg/galwar/bank.go:23-37 | credits move from purse to account, and nobody's net worth does |
| `PlanetCommands.BankWithdraw` | pkg/galwar/bank.go:40-54 | and back |
| `PlanetCommands.SolRepair` | pkg/galwar/commands.go:188-201 | all damage gone for its price, or a refusal that changes nothing |
| `Rewiring.UsePlasma` | pkg/galwar/specials.go:28-84 | the refusals in their order; two sectors gain the warps between them, or lose their first entries for each other, and no other warp changes; sectors 1 to 10 are never rewired, no list grows past the limit, and lists in order stay in order |
| `Raids.FactionStrike` | pkg/galwar/factions.go:257-310 | nothing at all happens to a target in Federation space or out of reach or without ships to send; otherwise all ships asked for that there are leave, fight their way along a shortest route past forces but no ships, and clash with the target if any arrive, and the stronghold is poorer by exactly those that did not return; only the target's ship can have changed, nobody is richer, no fighter or mine is created; a fleet that gets through left no hostile fighter on its way |
| `Raids.Fall` | pkg/galwar/factions.go:289-306 | the fleet is exchanged with the target's fighters: it is spent, or the target has no fighter left and is dead or has fled |
| `Factions.FactionMetrics` | pkg/galwar/factions.go:31-51 | the number of active traders, the worth of the richest, and whether nobody has been seen for the quiet period |
| `Factions.TopActivePlayer` | pkg/galwar/factions.go:55-68 | the first of the richest active traders, or none exactly when all are in debt or there is none |
| `Factions.UpdateFactionStates` | pkg/galwar/factions.go:82-117 | the factions wake at the upper threshold, sleep at the lower one and keep their state between |
| `Factions.GateFactionPlanet` | pkg/galwar/factions.go:166-200 | the headquarters has exactly the fighters more that the gap in value pays for, as far as its ceiling allows, and nothing else changes; it is founded, with them, in a free sector exactly when it does not stand, some are wanted and there is room; it never grows past its ceiling, nor lifts the faction past its target |
| `Factions.FreeSectorForPlanet` | pkg/galwar/factions.go:225-242 | a free sector outside Federation space, or none exactly when there is none |
| `Factions.PickTargets` | pkg/galwar/factions.go:321-330 | just the active traders outside Federation space and not below the floor |
| `Factions.FactionMayhem` | pkg/galwar/factions.go:316-350 | strike after strike, each with the force its target has then or a hundred, at worthy players only, nobody twice, and nobody else's ship changes; fewer strikes are made than allowed only when no worthy player or no fighter is left; the protected stay as they were |
| `Factions.FairGame` | pkg/galwar/factions.go:316-350 | because no trader gets richer during a pass, nobody worth striking in the middle of it was protected when it began |
| `Factions.FedCounterCabal` | pkg/galwar/factions.go:354-364 | the Cabal's headquarters, if it stands, loses just a quarter of its fighters, rounded down, and no planet changes otherwise |
| `Factions.RunFactionAI` | pkg/galwar/factions.go:120-159 | the factions wake and sleep by their thresholds, and while both sleep nothing happens; the Cabal musters, hunts the richest trader if worth it and strikes twice more, then the Renegades muster and strike twice, and the Federation answers either; whoever was dead, dormant, in Federation space or below the floor when the pass began has exactly the ship they had; no trader is worth more |
| `Factions.HuntLeader` | pkg/galwar/factions.go:134-140 | half the headquarters' fighters go after the richest active trader exactly when there is one above the floor |
| `Maintenance.RestPlayers` | pkg/galwar/maintenance.go:88-99 | every player has just the day's turns, and a Fusion Cell's unused turns up to a day's worth |
| `Maintenance.TurnsBanked` | pkg/galwar/maintenance.go:88-99 | with a Fusion Cell no unused turn is lost until a whole day's allowance is in reserve; without one all are |
| `Maintenance.GrowPlanet` | pkg/galwar/maintenance.go:157-195 | stocks grow by their rates up to the ceilings; unless frozen, rates grow by a tenth of the excess and armament follows the weighted index |
| `Maintenance.IndexRounds` | pkg/galwar/maintenance.go:188-194 | the index in whole numbers is the weighted sum rounded half up |
| `Maintenance.GrowthOnly` | pkg/galwar/maintenance.go:147-195 | no rate of cargo ever falls overnight, and a dormant owner's rates coast; the rate of fighters or mines falls exactly when it is above what the index of the rates that today's stocks will lead to supports; stock within its ceiling only grows and never by more than the rate |
| `Maintenance.ArmsCanFall` | pkg/galwar/maintenance.go:188-194 | an input on which it falls: a planet bombed down to its last ore mine makes no more fighters |
| `Maintenance.ExpirePlayers` | pkg/galwar/maintenance.go:118-126 | the long absent, and only they, fly fresh ships at Sol; their assets, and only theirs, have passed to the factions |
| `Maintenance.CreditBankInterest` | pkg/galwar/bank.go:61-82 | every account grows by its interest on the balance up to the cap; factions' and dormant players' coast |
| `Maintenance.RunDailyMaintenance` | pkg/galwar/maintenance.go:78-145 | at most once a day; ports are brought up to date, delivered news older than a week is dropped, and the housekeeping is done before the factions wake, sleep and have their night; and whoever was in dock and not overdue keeps ship, place, repair, goods and account, with a fresh day's turns |
| `Sessions.RegisterPlayer` | pkg/galwar/player.go:148-168 | refused, or one fresh trader in dock at the end of the list |
| `Sessions.Login` | pkg/galwar/player.go:203-207 | absence is over, and whoever died on an earlier day flies again in the scaled-down ship |
| `Runs.Serve` | pkg/galwar/actor.go:30-52 | any one command or night does to the world just what its rules say, refusals included, keeps the world valid and leaves everybody in dock whom it does not concern unscathed |
| `Runs.Run` | pkg/galwar/actor.go:9-18 | any run of any commands and nights is a chain of just such steps, in order; the world stays valid, so no quantity or purse was ever clamped; a living trader in Federation space who gives no command is unscathed unless repossessed; a run of fights only leaves no more fighters or mines than it started with |
| `Runs.SafeStill` | pkg/galwar/actor.go:9-18 | being unscathed carries over every step that does not concern the player |
| `Commodities.Commodity.Restock` | pkg/galwar/commodity.go:151-179 | exactly one poll of the specification below |
| `Commodities.AnySchedule` | pkg/galwar/commodity.go:146-179 | over any schedule of polls stock never falls, a stock within its maximum stays within it, the clock never passes the latest poll, and credit is never lost against the clock |
| `Commodities.NothingLost` | pkg/galwar/commodity.go:146-150 | however it was polled before, a poll now leaves all that was produced since the start, as far as there is room |
| `Commodities.FirstPoll` | pkg/galwar/commodity.go:151-158 | the first poll of a producing stock sets its clock going and brings nothing, and what a later one is owed is all that was produced since then but less than a unit; a stock that produces nothing never changes |
| `Commodities.OftenIsNoWorse` | pkg/galwar/commodity.go:146-150 | polling more often is never worse than polling once |
| `Commodities.CreditIsBounded` | pkg/galwar/commodity.go:168-174 | k crediting polls over T seconds credit less than T plus k seconds' production |
| `Commodities.NothingExtraExactlyWhen` | pkg/galwar/commodity.go:151-179 | for any stock at any rate: no schedule of polls is ever credited more than was produced exactly when the daily rate divides the seconds of the day or they it, or there is too little room for the seconds not charged to add up |
| `Commodities.PollsAreGenerous` | pkg/galwar/commodity.go:168-174 | an input on which it is: the highest rate a port is given (init.go:34), sold out and polled five times in eight minutes, makes four units and is credited five |
| `Commodities.ScarcityPrices` | pkg/galwar/commodity.go:104-129 | the emptier the stock, the more is asked and the less is paid, by at most a twentieth |
| `Commodities.PricesAtTheEnds` | pkg/galwar/commodity.go:104-129 | five percent up and down when the stock is empty, the plain price when it is full |
| `Commodities.EvenSteps` | pkg/galwar/commodity.go:104-129 | between the two, each unit moves the price by the same |
| `Trading.ScaleDown` | pkg/galwar/ops.go:42-54 | the fewest port units whose scaled volume covers the trade, never more than a stock that covers it |
| `Trading.CoverIsCeiling` | pkg/galwar/ops.go:36-54 | that is the quotient rounded up |
| `Trading.SplittingCostsMore` | pkg/galwar/ops.go:36-54 | splitting a trade in two never consumes less port stock |
| `Trading.TradeBuy` | pkg/galwar/ops.go:109-131 | the refusals in their order, refusal changes nothing; ship, purse and port change by just the deal, no other good does; free holds fall by just the cargo or rise by the holds bought, and stay at zero or above |
| `Trading.TradeSell` | pkg/galwar/ops.go:135-156 | the same for a sale; free holds rise by just the cargo sold, or fall by the holds sold where a port lists them |
| `Trading.TradeBuyNoLimit` | pkg/galwar/ops.go:161-172 | a purchase without stock: paid for exactly when affordable |
| `Trading.Dock` | pkg/galwar/commands.go:166-184 | a turn and up-to-date stocks at a trading port, nothing at a service port, the refusals in their order |
| `RateLimit.Bucket.Allow` | pkg/ratelimit/ratelimit.go:56-65 | refills and grants just as specified, keeping the level between nothing and capacity |
| `RateLimit.GrantsArePaidFor` | pkg/ratelimit/ratelimit.go:43-65 | each grant is paid for by the level or the flow since |
| `RateLimit.WindowBound` | pkg/ratelimit/ratelimit.go:43-65 | in any window a bucket grants at most its capacity and the window's flow, however the requests fall |
| `RateLimit.Keyed.Allow` | pkg/ratelimit/ratelimit.go:110-130 | whatever the rate, the burst and the clock, a request is answered, and the buckets kept, exactly as specified: a sweep if one is due, a full bucket for a key without one, and that bucket's answer |
| `RateLimit.Keyed.Sweep` | pkg/ratelimit/ratelimit.go:113-121 | exactly the idle buckets are dropped, in whatever order the keys come |
| `RateLimit.UnnoticedExactlyWhen` | pkg/ratelimit/ratelimit.go:105-130 | for every rate and burst: a new keyed limiter answers every sequence of requests, by any keys at any times, as one that never forgets a key, exactly when the rate refills a bucket within the ten minutes |
| `RateLimit.Unnoticed` | pkg/ratelimit/ratelimit.go:110-130 | if it does, every answer is the same |
| `RateLimit.Noticed` | pkg/ratelimit/ratelimit.go:110-130 | and if not, some requests from the very start get another answer |
| `RateLimit.ToldApart` | pkg/ratelimit/ratelimit.go:56-130 | a bucket that holds more than it would have held is told apart by asking, whether or not it is swept again on the way |
| `Tries.Trie.Add` | pkg/gostrict/trie.go:24-36 | the word is in the dictionary with its types added to those it had, and no other word changed |
| `Tries.Grown` | pkg/gostrict/trie.go:26-33 | a new node keeps the trie's meaning: each node stands for the one string that leads to it |
| `Matching.OneMore` | pkg/gostrict/censor.go:88-142 | each kind of step of a walk is one legal move of a declarative match, with its cost |
| `Matching.LiteralExtent` | pkg/gostrict/censor.go:34-43 | a walk without deviation covers just the word's own letters and digits where it stands |
| `Matching.CheapEnough` | pkg/gostrict/censor.go:34-43 | a walk that strays no more than the word is long, or only repeats, counts, and covers a stretch of what it walked |
| `Matching.LiteralIsTolerable` | pkg/gostrict/censor.go:20-43 | a word standing there literally is tolerably spelled, at no cost |
| `Matching.PunctuatedIsTolerable` | pkg/gostrict/censor.go:105-117 | so is a word with a punctuation mark after each of its letters, but no space |
| `Censors.Censor.Advance` | pkg/gostrict/censor.go:83-145 | for any order of the walks and under the pruning by cost, every walk is justified by moves, and whatever repeats, boundaries, skips and substitutions lead to a node, within what is put up with, that node is walked at no greater cost |
| `Censors.Censor.Harvest` | pkg/gostrict/censor.go:146-150 | every span recorded is a match; every literal occurrence ending here is recorded as it stands, and every word tolerably spelled up to here by a match of its type within that stretch |
| `Censors.Censor.Analyze` | pkg/gostrict/censor.go:57-154 | every span recorded is a declarative match; every literal occurrence of a word with a letter or digit is recorded, and so is a match, within the stretch, for every way of spelling it with repeats, separators, skips and substitutions that stays within the tolerances; the outcome is just the types of flagged matches that no benign match covers; so a type is reported only for a match that no benign word standing there literally covers, and all types of a flagged word are reported that stands there literally or tolerably spelled, unless a benign match covers it |
| `Censors.Censor.IsInappropriate` | pkg/gostrict/gostrict.go:68-70 | rejected only for a match that no allow-listed or false-positive word standing there literally covers; and always for a rejected word, standing there literally or tolerably spelled, that no benign match covers |
| `Censors.Resolve` | pkg/gostrict/censor.go:160-186 | bit by bit, the types of the flagged spans not wholly within a benign one |
| `Censors.Carried` | pkg/gostrict/censor.go:70-76 | keeping only the cheaper walk to a place never loses a way of spelling that is within the tolerances |
| `Censors.Censor.AddReplacement` | pkg/gostrict/gostrict.go:81-101 | a character stands for itself first and for each alternative, none twice |
| `Censors.Censor.AddWord` | pkg/gostrict/gostrict.go:52-56 | adds the word unless it is blank |
| `Persistence.Always` | pkg/galwar/persister.go:74-115 | the invariant of every interleaving of calls, notifications, timer, drain, snapshot, save and stop |
| `Persistence.NoLostWrite` | pkg/galwar/persister.go:58-115 | whenever the persister is idle with nothing in its channel, its latest snapshot holds every mutation marked dirty, and no snapshot ever shows half a command |
| `Persistence.StopSavesAll` | pkg/galwar/persister.go:65-88 | once it has ended, its last snapshot holds every mutation made before it was told to stop |
| `Persistence.StoredIfSaved` | pkg/galwar/persister.go:105-115 | whenever the last save that finished succeeded, whatever is not being saved right now is in the store; and the store always holds a whole snapshot |
| `Persistence.MutualExclusion` | pkg/galwar/actor.go:27-52 | two commands are never served at once, nor a command and a snapshot |
| `Persistence.Settles` | pkg/galwar/persister.go:74-115 | whatever steps of its own it takes with the writer at rest, failed saves among them, there are at most as many as its rank; when none is left it has ended if it was told to stop, and is idle otherwise, with everything marked in its latest snapshot, and everything made before the stop |
| `Persistence.CanSettle` | pkg/galwar/persister.go:74-115 | and it can always go on until none is left |
| `Persistence.OnlyThen` | pkg/galwar/persister.go:74-103 | it has no step left just when it has ended, or is idle with nobody asking and not told to stop |
| `News.Board.AddNews` | pkg/galwar/news.go:27-57 | the list becomes just what posting the line makes of it, compacted in place, with both caps kept |
| `News.Board.TakeNews` | pkg/galwar/news.go:61-73 | just the player's undelivered lines, oldest first, none of which was ever handed out before, over any run |
| `News.Board.TrimNews` | pkg/galwar/news.go:77-86 | compacting in place is the filter it stands for |
| `News.PostedKeeps` | pkg/galwar/news.go:31-55 | at most 50 lines a player and 2000 in all, in order of arrival, after any post |
| `News.OnlyTheirOldest` | pkg/galwar/news.go:33-51 | one player's overflow costs that player the oldest lines and nobody else any |
| `News.PostingIsFair` | pkg/galwar/news.go:33-55 | while the whole list has room, posting for one player evicts nothing of another's |
| `News.NothingUnreadTrimmed` | pkg/galwar/news.go:77-86 | trimming drops nothing undelivered |
| `Decimals.AtoiItoa` | pkg/galwar/snapshot.go:107-132 | printed and parsed, a number is itself |
| `Decimals.SplitJoin` | pkg/galwar/snapshot.go:107-132 | joined by commas and split again, parts without commas are themselves |
| `Snapshots.SystemsToString` | pkg/galwar/snapshot.go:107-116 | the counters joined by commas |
| `Snapshots.SystemsFromString` | pkg/galwar/snapshot.go:118-132 | always six counters, what is missing or malformed counting zero and the rest ignored |
| `Snapshots.PrintedAndParsed` | pkg/galwar/snapshot.go:105-132 | printed and parsed, the counters are what they were, cut or filled to six |
| `Snapshots.Snapshot` | pkg/galwar/snapshot.go:154-249 | every list copied into rows, inventories owner after owner |
| `Snapshots.StorableExactly` | pkg/galwar/store.go:73-162 | the primary keys of the tables hold for the flattened rows exactly when no two players share an id and no sector lists a warp twice |
| `Snapshots.Rebuild` | pkg/galwar/store.go:383-616 | regroups exactly when there are sectors and no warp leaves from nowhere, and then into just what the rows describe |
| `Snapshots.RoundTrip` | pkg/galwar/store.go:392-453 | for every universe the keys let through, whatever order the rows come back in, as long as each key's order is kept: regrouping rebuilds it exactly, every inventory in its order, with six damage counters a ship and every warp list sorted |
| `Rows.Regroup` | pkg/galwar/store.go:401-424 | appending rows to their owners' lists as they come gives each owner just its rows in the order read |
| `Rows.Regrouped` | pkg/galwar/store.go:401-424 | any read of the table regroups into exactly the lists that were flattened |
| `Rows.OneOrder` | pkg/galwar/store.go:403-403 | the same rows ordered by distinct positions are the same list |
| `Upgrades.Upgrade` | pkg/galwar/universe.go:131-193 | pass by pass, just the upgraded universe |
| `Upgrades.UpgradeIsIdempotent` | pkg/galwar/universe.go:129-193 | upgrading again changes nothing, whatever was upgraded |
| `Loading.Validate` | pkg/galwar/universe.go:209-283 | accepts exactly what may be played, and brings ships off the map to Sol |
| `Loading.AllAshore` | pkg/galwar/universe.go:262-283 | afterwards every ship is on the map or among the dead, and only one that was neither has moved, to Sol |
| `Loading.LoadUniverse` | pkg/galwar/store.go:383-623 | an empty store is fresh; anything else is regrouped, upgraded, and refused exactly when a warp leaves from nowhere, sectors are misnumbered, or it may not be played |
| `Loading.LoadedIsUpgraded` | pkg/galwar/store.go:617-619 | saved, read back in any order and loaded, a universe is what upgrading it would have made it exactly when every ship has six damage counters, or none but zeros among its first six, and every warp list is in order |
| `Loading.DamageOutlivesLoading` | pkg/galwar/snapshot.go:118-132 | an input on which it is not: a ship with one damaged system on file |
| `Loading.NeverRefused` | pkg/galwar/store.go:617-623 | a universe that may be played is never refused once saved |
| `Loading.LoadedStays` | pkg/galwar/store.go:383-623 | what a load returned can be saved and loaded again, in any order of rows, and stays exactly what it was |
| `Upgrades.ToppedUpHasAll` | pkg/galwar/universe.go:135-162 | topping up adds every missing good and moves no line that was there |
| `Upgrades.FreePortSector` | pkg/galwar/port.go:140-152 | the lowest sector from the second on without a port, or none exactly when there is none |

## Left out

- Players, planets and forces are records in the world's lists, not heap objects of their own: that two names may point to the same record, and updates seen through both, are not captured.
- Runs.Run: administration, bans, moderation of names and reports, and everything that only reads (rankings, scans, statistics) are not among the commands, and commands are given by traders with a record; whether a handle is acceptable and free comes in as a parameter.
- In safety over whole runs (`Runs.SafeStill`), a repossession for absence is the one nightly event that is allowed to touch a ship in dock, as the engine intends.
- Holds are not conserved by salvage (`Combat.ResolveKill`), as the engine does not debit the victim, and mines destroy holds without touching cargo, so no general claim is made about free holds in combat.
- Nothing is said about odds: every random retry loop is an arbitrary choice among the candidates it would accept, also the picks that precede the scan in `Factions.FreeSectorForPlanet`.
- Universe.ShortestPathTo: requires fewer sectors than the largest 64-bit integer, which stands for "not reached yet" in the tables; so do the commands that lay a course.
- Generation.Generate: requires nine sectors or more, since the generator links sectors 2 to 9 to the first without looking; the placing of ports is not modelled.
- Trading.TradeBuy: prices and scale factors are exact; rounding of floating-point numbers is not modelled, here or in the nightly index and the reconstruction penalty, where the exact quotient is rounded half up.
- RateLimit.Keyed.Allow: one call is one step with one reading of the clock, so two callers between the lock of the map and the lock of a bucket, and clocks read a moment apart, are not modelled; neither is the blocking wait of a bucket. The comparison with a limiter that never forgets is for clocks that do not run backwards.
- Censors.Censor.AddWord: words arrive lower-cased, and the space is the only blank character.
- Censors.Censor.Analyze: its input has already been lower-cased; lower-casing beyond ASCII, and reading the dictionary files, are not modelled.
- Snapshots.SystemsFromString: a part with a sign counts as malformed, where the library would read a number; no printed counter has one.
- Loading.Validate: goods are a closed set here, so a line without a good or with an unknown one, which is refused, cannot be written down; ships brought to Sol are not logged.
- Snapshots.RoundTrip: reports and the audit log are stored just like the news and are not listed separately; the text of queries, migrations and transactions is not modelled, only that the tables' keys are distinct and that a read returns the rows of a table in the order of its key.
- Persistence.NoLostWrite: a mutation that a command makes and never marks dirty is saved only by a later flush; how long the throttle lasts is not modelled, only that it ends.
- Persistence.Settles: is about the persister left alone with the writer; while sessions keep marking, how soon it settles depends on which ready channel is chosen, and no fairness is claimed.
- News.Board.AddNews: that factions and unknown players read no news comes in as a parameter.
- Maintenance.RunDailyMaintenance: the audit log it also trims is not modelled; the lines that commands post to the news are erased.
- Quantities are unbounded natural numbers: the width of machine integers is not modelled.
- Front-ends, sockets, logins, passwords, YAML files, wording of reports, dictionary contents and port names are not part of this model.
