/**
 * The part of the match engine that the three strategies talk to.
 *
 * A turn is seen through a `Snapshot`, which stays fixed for the whole turn,
 * and a `GameState`, which records the placement and upgrade requests the
 * strategy makes in order. How many units the engine admits for a request is
 * the engine's business: `admitted` answers it from the requests issued
 * earlier in the same turn and the request itself.
 */
module Game {

  datatype Option<T> = None | Some(value: T)

  /** What a strategy routine raises at run time, when it raises. */
  datatype Fault =
    | EmptySequence    // `min()` of an empty list (ValueError)
    | NotIterable      // a `for` over a path that is `None` (TypeError)
    | IndexOutOfRange  // `history[-2]` on a history shorter than two (IndexError)

  datatype Result<T> = Ok(value: T) | Err(fault: Fault)

  /** A board cell `[x, y]`. */
  datatype Coord = Coord(x: int, y: int)

  /** The six unit kinds, in the order the game configuration lists them. */
  datatype UnitType = Filter | Encryptor | Destructor | Ping | Emp | Scrambler

  /** Filters, encryptors and destructors stay where they are placed. */
  predicate IsStationary(t: UnitType) {
    t == Filter || t == Encryptor || t == Destructor
  }

  /** A unit on the board; player 0 is this agent, player 1 the opponent. */
  datatype Unit = Unit(playerIndex: int, unitType: UnitType)

  type Board = map<Coord, seq<Unit>>

  function UnitsAt(board: Board, c: Coord): seq<Unit> {
    if c in board then board[c] else []
  }

  predicate ContainsStationaryUnit(board: Board, c: Coord) {
    exists u :: u in UnitsAt(board, c) && IsStationary(u.unitType)
  }

  /** A request handed to the engine: spawn `quantity` units at each location, or upgrade. */
  datatype Command =
    | SpawnRequest(unitType: UnitType, locations: seq<Coord>, quantity: int)
    | UpgradeRequest(locations: seq<Coord>)

  /**
   * What the engine reports at the start of a turn. `arena` is the order in
   * which the game map enumerates its cells, `friendlyEdges` the agent's two
   * bottom edges (left edge first), `findPathToEdge` the path a mobile unit
   * would take from a cell (`None` when the cell is blocked), `attackers` the
   * number of opposing destructors that can hit a cell, and
   * `destructorDamage` a destructor's damage per hit.
   */
  datatype Snapshot = Snapshot(
    turnNumber: int,
    enemyHealth: int,
    bits: real,
    board: Board,
    arena: seq<Coord>,
    friendlyEdges: seq<Coord>,
    findPathToEdge: Coord -> Option<seq<Coord>>,
    attackers: Coord -> nat,
    destructorDamage: nat)

  function Last<T>(s: seq<T>): T
    requires |s| > 0
  {
    s[|s| - 1]
  }

  /** `math.floor` */
  function Floor(r: real): (n: int)
    ensures n as real <= r < n as real + 1.0
  {
    r.Floor
  }

  /** `math.ceil` */
  function Ceil(r: real): (n: int)
    ensures r <= n as real < r + 1.0
  {
    -((-r).Floor)
  }

  /** The per-turn game state: the snapshot plus the requests made so far this turn. */
  class GameState {
    const snap: Snapshot
    const admitted: (seq<Command>, Command) -> nat
    var log: seq<Command>

    constructor (snap: Snapshot, admitted: (seq<Command>, Command) -> nat)
      ensures this.snap == snap && this.admitted == admitted
      ensures log == []
    {
      this.snap := snap;
      this.admitted := admitted;
      log := [];
    }

    /** `attempt_spawn`: queue the request and report how many units the engine admits. */
    method AttemptSpawn(unitType: UnitType, locations: seq<Coord>, quantity: int) returns (spawned: nat)
      modifies this`log
      ensures log == old(log) + [SpawnRequest(unitType, locations, quantity)]
      ensures spawned == admitted(old(log), SpawnRequest(unitType, locations, quantity))
    {
      spawned := admitted(log, SpawnRequest(unitType, locations, quantity));
      log := log + [SpawnRequest(unitType, locations, quantity)];
    }

    /** `attempt_upgrade`: queue the request and report how many units the engine upgrades. */
    method AttemptUpgrade(locations: seq<Coord>) returns (upgraded: nat)
      modifies this`log
      ensures log == old(log) + [UpgradeRequest(locations)]
      ensures upgraded == admitted(old(log), UpgradeRequest(locations))
    {
      upgraded := admitted(log, UpgradeRequest(locations));
      log := log + [UpgradeRequest(locations)];
    }
  }
}
