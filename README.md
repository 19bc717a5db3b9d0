# Terminal strategies: STAMPEDE, dumbo and scramblerDef

This project models the turn logic of three agents written for the
tower-defence game Terminal. Each agent is an `AlgoStrategy` object. Once per
turn the engine calls `starter_strategy` with a game state, and the agent
answers with placement requests (`attempt_spawn`) and upgrade requests
(`attempt_upgrade`). Stationary units are filters, encryptors and destructors;
mobile units are pings, EMPs and scramblers. During the turn the engine also
reports breaches through `on_action_frame`. The agent keeps the locations of
the breaches made by the opponent and uses them in later turns.

The engine is abstracted in module `Game`:

- A `Snapshot` holds what the agent reads during one turn: the turn number,
  the opponent's health, the bits, the board, the order in which the map lists
  its cells, the friendly edges, path finding, attacker counts and a
  destructor's damage.
- A `GameState` object holds that snapshot and an `admitted` function. It
  keeps the requests of the turn, in order, in its `log` field.
- `AttemptSpawn` and `AttemptUpgrade` append one request to the log. They
  return what `admitted` answers for that request, given the requests made
  before it.
- A Python exception raised by a strategy routine is a `Fault` value:
  - `min` of an empty list raises `EmptySequence`;
  - iterating a path that is `None` raises `NotIterable`;
  - `history[-2]` on a short history raises `IndexOutOfRange`.
  A method that can raise returns the fault. The requests made before the
  exception stay in the log.

Modules:

- `Board`: `detect_unit`, `detect_enemy_unit` and `filter_blocked_locations`.
  The three files share these routines.
- `Breach`: the breach filter of `on_action_frame`, which is the same in the
  three files.
- `PathRisk`: path damage, and the guarded `least_damage_spawn_location` of
  STAMPEDE and scramblerDef.
  - That routine drops options without a path from its `damages` list. It
    still indexes the full options list with a position in `damages`.
  - `SelectBest` is a reference selection that keeps the two lists aligned.
    Lemmas state where the routine agrees with it and where it does not.
- `Stampede`, `Dumbo` and `ScramblerDef`: one `AlgoStrategy` class per agent.
  - Its fields are the agent's own fields.
  - Each routine is a method whose `ensures` gives the requests it appends.
    It also gives the fields it leaves behind.
  - Both are stated through specification functions (`AttackPlan`,
    `Defences`, `ReactiveCommands`, `SweepCells`, ...). Lemmas prove what
    the strategy promises about those functions.

## Model

| member | source | states |
|---|---|---|
| Game.Floor | STAMPEDE/algo_strategy.py:113 | `math.floor`: the greatest integer not above the value |
| Game.Ceil | STAMPEDE/algo_strategy.py:139-140 | `math.ceil`: the least integer not below the value |
| Game.GameState.constructor | STAMPEDE/algo_strategy.py:60 | a fresh turn state holds the engine's snapshot and no request yet |
| Game.GameState.AttemptSpawn | STAMPEDE/algo_strategy.py:107 | a spawn request is appended to the turn's requests; the reply is the engine's count of units placed for it |
| Game.GameState.AttemptUpgrade | STAMPEDE/algo_strategy.py:198 | an upgrade request is appended to the turn's requests; the reply is the engine's count of units upgraded |
| Board.DetectUnit | STAMPEDE/algo_strategy.py:202-210 | the count equals the units, over all map cells that hold a stationary unit, that belong to the player and pass every supplied type/x/y filter |
| Board.DetectEnemyUnit | dumbo/algo_strategy.py:249-256 | the same count, fixed to the opponent (player 1) |
| Board.CountFiltersOnlyLower | STAMPEDE/algo_strategy.py:207-208 | supplying a type, x or y filter never raises the count above the unfiltered one |
| Board.CoveringFiltersAreNone | STAMPEDE/algo_strategy.py:207-208 | x/y filters that admit every visited cell give the same count as no filters |
| Board.CountSplitsByType | STAMPEDE/algo_strategy.py:207 | with no type filter, the count is the sum of the six per-type counts |
| Board.CountZeroWithoutOwnedStationaryCells | STAMPEDE/algo_strategy.py:204-209 | if no cell holding a stationary unit holds a unit of the player, the count is 0 |
| Board.FilterBlockedLocations | STAMPEDE/algo_strategy.py:301-306 | the result is the input cells, in order, that hold no stationary unit |
| Board.UnblockedMembers | STAMPEDE/algo_strategy.py:301-306 | a cell survives iff it was offered and holds no stationary unit; the result is no longer than the input |
| Board.UnblockedConcat | STAMPEDE/algo_strategy.py:301-306 | filtering preserves order: filtering `a + b` gives filtered `a` followed by filtered `b` |
| Board.UnblockedKeepsFreeCells | STAMPEDE/algo_strategy.py:301-306 | a list with no blocked cell comes back unchanged |
| Breach.OpponentBreachesConcat | STAMPEDE/algo_strategy.py:319-326 | two frames processed one after the other record what one frame holding both records |
| Breach.OpponentBreachesExactly | STAMPEDE/algo_strategy.py:319-326 | a location is recorded iff some breach in the frame not owned by the agent (owner != 1) has it; frames of only the agent's own breaches add nothing |
| PathRisk.Min | STAMPEDE/algo_strategy.py:299 | `min` of a non-empty list is an element of it and no element is smaller |
| PathRisk.IndexOf | STAMPEDE/algo_strategy.py:299 | `list.index` gives the first position holding the value |
| PathRisk.FirstLeast | STAMPEDE/algo_strategy.py:299 | `damages.index(min(damages))` is a position of least damage, and every earlier position has strictly more |
| PathRisk.GuardedDamages | STAMPEDE/algo_strategy.py:285-296 | the guarded loop records at most one damage per option |
| PathRisk.LeastDamageSpawnLocation | STAMPEDE/algo_strategy.py:279-299 | the loop computes, per option with a non-empty path, the path's total damage (attackers x destructor damage per cell); the result is the option at the index of the first least damage, or the `min([])` error when no option has a path |
| PathRisk.Viable | STAMPEDE/algo_strategy.py:290 | the options kept by the `if path:` guard are exactly those with a non-empty path |
| PathRisk.Risks | STAMPEDE/algo_strategy.py:291-296 | one damage per cell, position by position |
| PathRisk.GuardedDamagesAreViableRisks | STAMPEDE/algo_strategy.py:285-296 | the guarded `damages` list lists the damages of the options that have a path, in order |
| PathRisk.ViableWhenAllHavePaths | STAMPEDE/algo_strategy.py:290 | when every option has a non-empty path, the guard drops nothing |
| PathRisk.SelectBestIsLeastRisk | STAMPEDE/algo_strategy.py:279-284 | the reference selection fails iff no option has a path; otherwise it returns an option with a path whose damage is at most that of every other option with a path |
| PathRisk.GuardedChoiceIndexesWrongList | STAMPEDE/algo_strategy.py:290-299 | the routine fails iff the reference fails; when it succeeds, it takes the position the reference takes in the options that have a path, and reads it in the full options list |
| PathRisk.GuardedChoiceWhenAllHavePaths | STAMPEDE/algo_strategy.py:285-299 | when every option has a path, the routine equals the reference and returns an option of least damage that comes at or before every other option of that damage |
| PathRisk.GuardedChoiceReturnsBlockedCell | STAMPEDE/algo_strategy.py:290-299 | with a filter on [13, 0] (no path) and [14, 0] free (a path), the routine returns the blocked cell; the reference returns the open one |
| Stampede.Reverse | STAMPEDE/algo_strategy.py:191 | `list.reverse()`: same length, and the k-th element is the k-th from the end |
| Stampede.RingStepKeys | STAMPEDE/algo_strategy.py:221-228 | the four requests of one `(i, j)` pass are single destructors at offsets (i, j), (-i, -j), (i, -j), (-i, j), in that order |
| Stampede.ReactiveUpToKeys | STAMPEDE/algo_strategy.py:220-228 | before the loops reach `(i, j)` they have made 20(i-2) + 4(j-2) requests, each a ring destructor whose offset follows loop order |
| Stampede.KeyedRingRequests | STAMPEDE/algo_strategy.py:220-228 | requests in loop order are 100 distinct single destructors, and together they cover exactly the ring |
| Stampede.ReactiveDefenseCells | STAMPEDE/algo_strategy.py:218-228 | with no breach recorded, nothing is requested. Otherwise there are exactly 100 single-destructor requests, all different. A cell is requested iff its offset from the latest breach is (±i, ±j) with i, j in 2..6 |
| Stampede.SweepUpToLength | STAMPEDE/algo_strategy.py:157-159 | the sweep cannot attempt more cells than it has visited |
| Stampede.SweepUpToMembers | STAMPEDE/algo_strategy.py:157-159 | the cells attempted before `(i, j)` are exactly the stationary cells in range that come earlier in loop order |
| Stampede.SweepUpToSorted | STAMPEDE/algo_strategy.py:157-159 | attempted cells come in strict row-major order, all before the current position |
| Stampede.SweepCellsExactly | STAMPEDE/algo_strategy.py:155-162 | `upgrade` attempts exactly the cells with 1 <= x, y <= 27 that hold a stationary unit (never row 0 or column 0), each once, in row-major order, at most 729 |
| Stampede.UpgradeRequests | STAMPEDE/algo_strategy.py:160 | one single-cell upgrade request per attempted cell, in order |
| Stampede.SweepStep | STAMPEDE/algo_strategy.py:158-161 | visiting a stationary cell adds one request, and one success iff the engine upgrades something; any other cell changes nothing |
| Stampede.SuccessesAtMostAttempts | STAMPEDE/algo_strategy.py:160-161 | the upgrade counter never exceeds the number of attempts |
| Stampede.DefencesBookkeeping | STAMPEDE/algo_strategy.py:183-189 | `dest` never decreases. `destruct` ends set only when the agent owns exactly 13 destructors. The destructor line is requested iff 8 < own encryptors < 12 and `destruct` was clear. The encryptors are counted on the board as the turn began, so the ones `buildEnc` requested earlier in the same turn are not among them |
| Stampede.OpeningRequests | STAMPEDE/algo_strategy.py:110-112 | on turns 0 and 1 the first two requests are 3 scramblers at [13, 0] and 2 at [14, 0] |
| Stampede.ProbeRequest | STAMPEDE/algo_strategy.py:113-121 | unless no target exists, the next request sends `2*floor(bits/2)+1` scramblers (odd, at least 1, at most bits+1) to the latest breach, else to the least-damage friendly edge |
| Stampede.AttackFaults | STAMPEDE/algo_strategy.py:114-123 | `attack` raises the `min([])` error iff no breach is recorded and no friendly edge has a path; it never raises the index error once the history holds two values |
| Stampede.StagnationWave | STAMPEDE/algo_strategy.py:122-131 | `sendSCRAMBLER` ends set iff it was set or the turn is past 2 and the opponent lost at most 3 health. Exactly then a second wave of the probe's size goes to the latest breach or [14, 0] |
| Stampede.PrimaryRequest | STAMPEDE/algo_strategy.py:133-153 | the closing requests depend on `sendSCRAMBLER` and the turn. If set: all bits' worth of scramblers to the latest breach or [14, 0]. If clear, before turn 3: `n` and `n+1` scramblers at [13, 0] and [14, 0]. If clear, from turn 3: all bits' worth of pings at [13, 0] on even turns and [14, 0] on odd ones |
| Stampede.SendScramblerStaysSet | STAMPEDE/algo_strategy.py:122-131 | once set, `sendSCRAMBLER` is never cleared |
| Stampede.StagnationScenario | STAMPEDE/algo_strategy.py:122-131 | the wave needs `turn_number > 2`: with history [40, 40, 39] it does not fire on turn 2, but it fires on turn 3 and sends 5 scramblers to [14, 0] |
| Stampede.AlgoStrategy.constructor | STAMPEDE/algo_strategy.py:46-50 | empty breach memory, health history [40], `dest` 0, both flags clear |
| Stampede.AlgoStrategy.StarterStrategy | STAMPEDE/algo_strategy.py:75-93 | one turn appends the opponent's health to the history, then requests the encryptor block, the ring, the defences and the attack. The result is the exception `attack` raises, which propagates out of the turn: the upgrade sweep follows only when there is none. `attack` can never raise the index error here. `dest` never decreases and `sendSCRAMBLER` stays set |
| Stampede.AlgoStrategy.BuildEnc | STAMPEDE/algo_strategy.py:101-107 | one encryptor request naming the 29-cell block |
| Stampede.AlgoStrategy.Attack | STAMPEDE/algo_strategy.py:109-153 | the requests, the new `sendSCRAMBLER` and the raised error are those of the attack plan |
| Stampede.AlgoStrategy.Escalate | STAMPEDE/algo_strategy.py:122-153 | after the probe: the stagnation test, reading `[-2]` of the history, then the closing requests |
| Stampede.AlgoStrategy.ProbeTarget | STAMPEDE/algo_strategy.py:114-120 | the latest breach, or the least-damage friendly edge when none is recorded |
| Stampede.AlgoStrategy.SpawnOpening | STAMPEDE/algo_strategy.py:110-112 | the two opening scrambler requests on turns 0 and 1, nothing otherwise |
| Stampede.AlgoStrategy.SpawnClosing | STAMPEDE/algo_strategy.py:126-153 | the second wave and the closing requests for a settled `sendSCRAMBLER` |
| Stampede.AlgoStrategy.Upgrade | STAMPEDE/algo_strategy.py:155-162 | one upgrade request per swept stationary cell, in order; the result is the number the engine reports upgraded, at most 729 |
| Stampede.AlgoStrategy.UpgradeRow | STAMPEDE/algo_strategy.py:158-161 | one outer pass extends the requests and the counter from row i to row i+1 |
| Stampede.AlgoStrategy.UpgradeCell | STAMPEDE/algo_strategy.py:159-161 | one inner pass extends the requests and the counter by cell `(i, j)` |
| Stampede.AlgoStrategy.BuildDefences | STAMPEDE/algo_strategy.py:164-200 | the requests and the new `dest` and `destruct` are those of the defence plan; `dest` never decreases, and `destruct` implies 13 own destructors |
| Stampede.AlgoStrategy.BuildBlueWall | STAMPEDE/algo_strategy.py:191-200 | the reversed wall placed (quantity 1 on both branches) and upgraded, and placed again once `dest` >= 13 |
| Stampede.AlgoStrategy.BuildReactiveDefense | STAMPEDE/algo_strategy.py:212-229 | the ring requests around the latest breach, nothing without one |
| Stampede.AlgoStrategy.SpawnRingStep | STAMPEDE/algo_strategy.py:221-228 | the four single-destructor requests of one `(i, j)` pass |
| Stampede.AlgoStrategy.OnActionFrame | STAMPEDE/algo_strategy.py:316-326 | the breach memory grows by exactly the opponent's breaches of the frame, in frame order |
| Dumbo.DefenceLayout | dumbo/algo_strategy.py:157-169 | 7 forward destructors, then 5 second-row destructors, then 20 encryptors. The closing upgrade names 12 cells: exactly the destructor cells |
| Dumbo.AboveBreachesExactly | dumbo/algo_strategy.py:177-180 | one single destructor per recorded breach, directly above it, in recorded order |
| Dumbo.Damages | dumbo/algo_strategy.py:235-244 | when no path is `None`, the damages list has one entry per option |
| Dumbo.DamagesExactly | dumbo/algo_strategy.py:235-244 | the loop raises iff some option's path is `None`. Otherwise entry k is option k's path damage, 0 for an empty path |
| Dumbo.UnguardedChoiceIsFirstLeast | dumbo/algo_strategy.py:229-247 | a `None` path raises and an empty options list makes `min` raise. Otherwise the result is an option of least damage, at or before every other option of that damage |
| Dumbo.UnguardedAgreesWithSelectBest | dumbo/algo_strategy.py:235-247 | when every option has a non-empty path, dumbo's routine and the reference selection agree |
| Dumbo.LeastDamageSpawnLocation | dumbo/algo_strategy.py:229-247 | the loop walks every found path, even an empty one, and stops with the error at the first `None` path |
| Dumbo.DamagesErrStays | dumbo/algo_strategy.py:237-240 | once an option's path is `None`, the whole loop raises |
| Dumbo.AlgoStrategy.constructor | dumbo/algo_strategy.py:46-49 | empty breach memory and health history, both flags clear |
| Dumbo.AlgoStrategy.StarterStrategy | dumbo/algo_strategy.py:74-87 | a turn appends the opponent's health, then requests the fixed defences and then the fixed attack |
| Dumbo.AlgoStrategy.Attack | dumbo/algo_strategy.py:89-91 | 5 scramblers at [0, 13], then 100 EMPs at [9, 4], whatever the state |
| Dumbo.AlgoStrategy.BuildDefences | dumbo/algo_strategy.py:147-169 | the four defence requests, in source order |
| Dumbo.AlgoStrategy.BuildReactiveDefense | dumbo/algo_strategy.py:171-180 | one destructor one cell above every recorded breach |
| Dumbo.AlgoStrategy.OnActionFrame | dumbo/algo_strategy.py:276-283 | the breach memory grows by exactly the opponent's breaches of the frame |
| ScramblerDef.DefenceOrder | scramblerDef/algo_strategy.py:130-149 | two encryptor columns of 10, then destructor rows of 6 and 7. [13, 10] is named by the first encryptor request and the last destructor request only |
| ScramblerDef.ReactiveUsesFirstBreach | scramblerDef/algo_strategy.py:157-162 | nothing without a breach. Otherwise only the first breach matters: two single destructors two rows above it, two cells to its right and then to its left |
| ScramblerDef.EmpOnlyOnTurnOne | scramblerDef/algo_strategy.py:92-94 | an EMP request is made only on turn 1, first, with `floor(bits)` units |
| ScramblerDef.AllBlockedFails | scramblerDef/algo_strategy.py:97-99 | `attack` raises the `min([])` error iff none of the 28 edge cells has a path; it has then requested at most the EMP wave |
| ScramblerDef.BestLocationUnused | scramblerDef/algo_strategy.py:99-118 | the chosen best location never reaches a request: the requests do not depend on paths or attackers |
| ScramblerDef.StallAndFinish | scramblerDef/algo_strategy.py:101-118 | on success, the ping push comes iff turn > 5 and the opponent lost at most 3 health. The last request is the closing one |
| ScramblerDef.FinishTargetsFirstBreach | scramblerDef/algo_strategy.py:105-118 | at 10 health or less: pings at [14, 0]. Otherwise scramblers go to the FIRST recorded breach, or to [14, 0] when none is recorded |
| ScramblerDef.NoIndexErrorWhenHistoryTracksTurns | scramblerDef/algo_strategy.py:101 | a history of turn + 1 values never triggers the `[-2]` error. The agent does not keep that length by itself: a turn whose `attack` raises skips the append at line 86 |
| ScramblerDef.ShortHistoryOnTurnSix | scramblerDef/algo_strategy.py:101 | on turn 6, with filters on every edge cell except [14, 0] (the only cell with a path) and history [40], `attack` raises the index error |
| ScramblerDef.AlgoStrategy.constructor | scramblerDef/algo_strategy.py:46-47 | empty breach memory, health history [40] |
| ScramblerDef.AlgoStrategy.StarterStrategy | scramblerDef/algo_strategy.py:72-89 | a turn requests the defences, then the attack. The opponent's health is appended only if `attack` returned normally |
| ScramblerDef.AlgoStrategy.Attack | scramblerDef/algo_strategy.py:91-118 | the requests and the raised error are those of the attack plan |
| ScramblerDef.AlgoStrategy.SpawnFinish | scramblerDef/algo_strategy.py:105-118 | the single closing request |
| ScramblerDef.AlgoStrategy.BuildDefences | scramblerDef/algo_strategy.py:142-149 | the four defence requests, in source order |
| ScramblerDef.AlgoStrategy.BuildReactiveDefense | scramblerDef/algo_strategy.py:157-162 | the two destructors near the first recorded breach, nothing without one |
| ScramblerDef.AlgoStrategy.OnActionFrame | scramblerDef/algo_strategy.py:260-269 | the breach memory grows by exactly the opponent's breaches of the frame |

## Left out

- The engine itself is not modelled. Its pieces become parameters of the
  snapshot or the `admitted` function:
  - resource bookkeeping and unit placement;
  - path finding (`find_path_to_edge`);
  - `get_attackers`;
  - a destructor's damage;
  - the order in which the game map lists its cells.
- Bits and the board stay fixed for the whole turn. A request that spends
  bits or places a unit does not change what later reads in the same turn
  see.
- `on_game_start` reads unit shorthands from the game configuration. The
  model uses the `UnitType` datatype instead.
- Not modelled: the random seeding in `__init__`, `on_turn`/`submit_turn`,
  `suppress_warnings`, every `debug_write`, and the `__main__` start-up.
- `on_action_frame`'s JSON decoding is not modelled. The model takes the
  already decoded breach records: location and owner.
- `stall_with_scramblers` and `emp_line_strategy` are not modelled. No
  `starter_strategy` calls them, and the first draws random numbers.
- dumbo and scramblerDef call `build_reactive_defense` only in
  commented-out lines. Their `BuildReactiveDefense` is modelled, but their
  `StarterStrategy` does not call it.
- The opponent's health is an `int` and bits a `real`. Python floats and
  their rounding are not modelled beyond `math.floor` and `math.ceil`.
- Only the engine's counts tie the requests to their outcome. The `dest`
  counter and the upgrade counter add what `admitted` reports. Whether the
  engine can place anything is not modelled.
- Dumbo.DefenceLayout: states list lengths, unit types and upgrade
  membership. It does not state that the listed cells are pairwise distinct.
