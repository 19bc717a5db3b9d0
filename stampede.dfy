/**
 * The STAMPEDE strategy. Each turn it appends the opponent's health to its
 * history, requests its encryptor block, rebuilds destructors around the
 * latest breach, runs the destructor/encryptor plan, attacks, and finally
 * tries to upgrade every stationary unit on the board.
 */
module Stampede {
  import opened Game
  import opened Board
  import opened PathRisk
  import opened Breach

  /** The encryptor block, in the order the source lists it. */
  const BlueEncryptors: seq<Coord> := [
    Coord(9, 6), Coord(10, 6), Coord(11, 6), Coord(12, 6), Coord(13, 6), Coord(14, 6), Coord(15, 6),
    Coord(16, 6), Coord(17, 6), Coord(18, 6), Coord(10, 5), Coord(11, 5), Coord(12, 5), Coord(13, 5),
    Coord(14, 5), Coord(15, 5), Coord(16, 5), Coord(17, 5), Coord(11, 4), Coord(12, 4), Coord(13, 4),
    Coord(14, 4), Coord(15, 4), Coord(16, 4), Coord(12, 3), Coord(13, 3), Coord(14, 3), Coord(15, 3),
    Coord(13, 2)]

  /** The destructor line. */
  const TealDestructors: seq<Coord> := [
    Coord(0, 13), Coord(27, 13), Coord(3, 12), Coord(7, 12), Coord(11, 12), Coord(15, 12), Coord(19, 12),
    Coord(23, 12), Coord(5, 10), Coord(9, 10), Coord(13, 10), Coord(17, 10), Coord(21, 10)]

  /** Python `list.reverse()`: the `k`-th element becomes the `k`-th from the end. */
  function Reverse<T>(s: seq<T>): (r: seq<T>)
    ensures |r| == |s|
    ensures forall k :: 0 <= k < |s| ==> r[k] == s[|s| - 1 - k]
  {
    seq(|s|, k requires 0 <= k < |s| => s[|s| - 1 - k])
  }

  // ---------------------------------------------------------------------------
  // Reactive defence: destructors on a ring of offsets around the latest breach

  datatype Offset = Offset(dx: int, dy: int)

  /** The offset of `d` from `c`. */
  function Rel(c: Coord, d: Coord): Offset {
    Offset(d.x - c.x, d.y - c.y)
  }

  function Abs(x: int): nat {
    if x < 0 then -x else x
  }

  /** `(±i, ±j)` with `i` and `j` in `2..6`: the offsets the nested `range(2, 7)` loops cover. */
  predicate InRing(o: Offset) {
    2 <= Abs(o.dx) <= 6 && 2 <= Abs(o.dy) <= 6
  }

  /** Position of a sign pattern among the four requests of one loop step. */
  function SignCode(o: Offset): int {
    if o.dx > 0 && o.dy > 0 then 0
    else if o.dx < 0 && o.dy < 0 then 1
    else if o.dx > 0 then 2
    else 3
  }

  /** A numbering of ring offsets that follows the order of the loops. */
  function Key(o: Offset): int {
    20 * Abs(o.dx) + 4 * Abs(o.dy) + SignCode(o)
  }

  lemma KeyInjective(a: Offset, b: Offset)
    requires InRing(a) && InRing(b) && Key(a) == Key(b)
    ensures a == b
  {
  }

  /** The four requests of one `(i, j)` pass around `c`, in source order. */
  function RingStep(c: Coord, i: int, j: int): seq<Command> {
    [SpawnRequest(Destructor, [Coord(c.x + i, c.y + j)], 1),
     SpawnRequest(Destructor, [Coord(c.x - i, c.y - j)], 1),
     SpawnRequest(Destructor, [Coord(c.x + i, c.y - j)], 1),
     SpawnRequest(Destructor, [Coord(c.x - i, c.y + j)], 1)]
  }

  /** Requests made around `c` before the nested loops reach `(i, j)`. */
  function ReactiveUpTo(c: Coord, i: int, j: int): seq<Command>
    requires 2 <= i <= 7 && 2 <= j <= 7
    decreases i, j, c  // `c` keeps calls with literal loop bounds from being unrolled by the verifier
  {
    if i == 2 && j == 2 then []
    else if j == 2 then ReactiveUpTo(c, i - 1, 7)
    else ReactiveUpTo(c, i, j - 1) + RingStep(c, i, j - 1)
  }

  /** A single destructor at one cell whose offset from `c` is in the ring and has key `key`. */
  predicate RingRequest(c: Coord, cmd: Command, key: int) {
    && cmd.SpawnRequest? && cmd.unitType == Destructor && cmd.quantity == 1 && |cmd.locations| == 1
    && InRing(Rel(c, cmd.locations[0])) && Key(Rel(c, cmd.locations[0])) == key
  }

  lemma RingStepKeys(c: Coord, i: int, j: int)
    requires 2 <= i <= 6 && 2 <= j <= 6
    ensures forall m :: 0 <= m < 4 ==> RingRequest(c, RingStep(c, i, j)[m], 20 * i + 4 * j + m)
  {
    var s := RingStep(c, i, j);
    assert Rel(c, s[0].locations[0]) == Offset(i, j);
    assert Rel(c, s[1].locations[0]) == Offset(-i, -j);
    assert Rel(c, s[2].locations[0]) == Offset(i, -j);
    assert Rel(c, s[3].locations[0]) == Offset(-i, j);
  }

  /** The `k`-th request made around `c` is a ring request with key `48 + k`. */
  lemma {:induction false} ReactiveUpToKeys(c: Coord, i: int, j: int)
    requires 2 <= i <= 7 && 2 <= j <= 7 && (i == 7 ==> j == 2)
    ensures |ReactiveUpTo(c, i, j)| == 20 * (i - 2) + 4 * (j - 2)
    ensures forall k :: 0 <= k < |ReactiveUpTo(c, i, j)| ==> RingRequest(c, ReactiveUpTo(c, i, j)[k], 48 + k)
    decreases i, j
  {
    if i == 2 && j == 2 {
    } else if j == 2 {
      ReactiveUpToKeys(c, i - 1, 7);
    } else {
      ReactiveUpToKeys(c, i, j - 1);
      RingStepKeys(c, i, j - 1);
      var prev, r := ReactiveUpTo(c, i, j - 1), ReactiveUpTo(c, i, j);
      forall k | |prev| <= k < |r| ensures RingRequest(c, r[k], 48 + k) {
        assert r[k] == RingStep(c, i, j - 1)[k - |prev|];
      }
    }
  }

  /** A request for one destructor at one cell. */
  predicate SingleDestructor(cmd: Command) {
    cmd.SpawnRequest? && cmd.unitType == Destructor && cmd.quantity == 1 && |cmd.locations| == 1
  }

  /** The requests of `build_reactive_defense` for breach memory `scored`. */
  function ReactiveCommands(scored: seq<Coord>): seq<Command> {
    if |scored| >= 1 then ReactiveUpTo(Last(scored), 7, 2) else []
  }

  /** Requests carrying the keys `48 .. 147` in order are 100 distinct single destructors covering the ring. */
  lemma KeyedRingRequests(c: Coord, cmds: seq<Command>)
    requires |cmds| == 100
    requires forall k :: 0 <= k < |cmds| ==> RingRequest(c, cmds[k], 48 + k)
    ensures forall k :: 0 <= k < |cmds| ==> SingleDestructor(cmds[k])
    ensures forall k1, k2 :: 0 <= k1 < k2 < |cmds| ==> cmds[k1] != cmds[k2]
    ensures forall d :: SpawnRequest(Destructor, [d], 1) in cmds <==> InRing(Rel(c, d))
  {
    forall k1, k2 | 0 <= k1 < k2 < |cmds| ensures cmds[k1] != cmds[k2] {
      assert RingRequest(c, cmds[k1], 48 + k1) && RingRequest(c, cmds[k2], 48 + k2);
    }
    forall d ensures SpawnRequest(Destructor, [d], 1) in cmds <==> InRing(Rel(c, d)) {
      if SpawnRequest(Destructor, [d], 1) in cmds {
        var k :| 0 <= k < |cmds| && cmds[k] == SpawnRequest(Destructor, [d], 1);
        assert RingRequest(c, cmds[k], 48 + k);
      }
      if InRing(Rel(c, d)) {
        var k := Key(Rel(c, d)) - 48;
        assert RingRequest(c, cmds[k], 48 + k);
        var e := cmds[k].locations[0];
        KeyInjective(Rel(c, e), Rel(c, d));
        assert cmds[k].locations == [d];
      }
    }
  }

  /**
   * With no breach recorded nothing is requested. Otherwise there are 100
   * single destructor requests, all different, and a cell is requested
   * exactly when its offset from the latest breach is `(±i, ±j)` with `i, j`
   * in `2..6`.
   */
  lemma ReactiveDefenseCells(scored: seq<Coord>)
    ensures scored == [] ==> ReactiveCommands(scored) == []
    ensures scored != [] ==>
      var cmds, c := ReactiveCommands(scored), Last(scored);
      && |cmds| == 100
      && (forall k :: 0 <= k < |cmds| ==> SingleDestructor(cmds[k]))
      && (forall k1, k2 :: 0 <= k1 < k2 < |cmds| ==> cmds[k1] != cmds[k2])
      && (forall d :: SpawnRequest(Destructor, [d], 1) in cmds <==> InRing(Rel(c, d)))
  {
    if scored != [] {
      ReactiveUpToKeys(Last(scored), 7, 2);
      KeyedRingRequests(Last(scored), ReactiveCommands(scored));
    }
  }

  // ---------------------------------------------------------------------------
  // Upgrade sweep over cells 1..27 x 1..27

  /** Cells holding a stationary unit that the nested loops visit before reaching `(i, j)`. */
  function SweepUpTo(board: Game.Board, i: int, j: int): seq<Coord>
    requires 1 <= i <= 28 && 1 <= j <= 28
    decreases i, j, board  // `board` keeps calls with literal loop bounds from being unrolled by the verifier
  {
    if i == 1 && j == 1 then []
    else if j == 1 then SweepUpTo(board, i - 1, 28)
    else SweepUpTo(board, i, j - 1) + (if ContainsStationaryUnit(board, Coord(i, j - 1)) then [Coord(i, j - 1)] else [])
  }

  /** The cells `upgrade` attempts, in order. */
  function SweepCells(board: Game.Board): seq<Coord> {
    SweepUpTo(board, 28, 1)
  }

  /** Row-major order on cells. */
  predicate Before(a: Coord, b: Coord) {
    a.x < b.x || (a.x == b.x && a.y < b.y)
  }

  predicate InSweepRange(c: Coord) {
    1 <= c.x <= 27 && 1 <= c.y <= 27
  }

  lemma {:induction false} SweepUpToLength(board: Game.Board, i: int, j: int)
    requires 1 <= i <= 28 && 1 <= j <= 28 && (i == 28 ==> j == 1)
    ensures |SweepUpTo(board, i, j)| <= 27 * (i - 1) + (j - 1)
    decreases i, j
  {
    if i == 1 && j == 1 {
    } else if j == 1 {
      SweepUpToLength(board, i - 1, 28);
    } else {
      SweepUpToLength(board, i, j - 1);
    }
  }

  lemma {:induction false} SweepUpToMembers(board: Game.Board, i: int, j: int)
    requires 1 <= i <= 28 && 1 <= j <= 28 && (i == 28 ==> j == 1)
    ensures forall c :: c in SweepUpTo(board, i, j) <==>
      InSweepRange(c) && ContainsStationaryUnit(board, c) && (c.x < i || (c.x == i && c.y < j))
    decreases i, j
  {
    if i == 1 && j == 1 {
    } else if j == 1 {
      SweepUpToMembers(board, i - 1, 28);
    } else {
      SweepUpToMembers(board, i, j - 1);
      var prev, c0 := SweepUpTo(board, i, j - 1), Coord(i, j - 1);
      var added := if ContainsStationaryUnit(board, c0) then [c0] else [];
      assert SweepUpTo(board, i, j) == prev + added;
      forall c ensures c in prev + added <==> c in prev || c in added {
      }
    }
  }

  lemma {:induction false} SweepUpToSorted(board: Game.Board, i: int, j: int)
    requires 1 <= i <= 28 && 1 <= j <= 28 && (i == 28 ==> j == 1)
    ensures forall k1, k2 :: 0 <= k1 < k2 < |SweepUpTo(board, i, j)| ==>
      Before(SweepUpTo(board, i, j)[k1], SweepUpTo(board, i, j)[k2])
    ensures forall k :: 0 <= k < |SweepUpTo(board, i, j)| ==> Before(SweepUpTo(board, i, j)[k], Coord(i, j))
    decreases i, j
  {
    if i == 1 && j == 1 {
    } else if j == 1 {
      SweepUpToSorted(board, i - 1, 28);
    } else {
      SweepUpToSorted(board, i, j - 1);
      var prev, c := SweepUpTo(board, i, j - 1), Coord(i, j - 1);
      if ContainsStationaryUnit(board, c) {
        var r := SweepUpTo(board, i, j);
        assert r == prev + [c];
        forall k1, k2 | 0 <= k1 < k2 < |r| ensures Before(r[k1], r[k2]) {
          assert r[k1] == prev[k1];
        }
        forall k | 0 <= k < |r| ensures Before(r[k], Coord(i, j)) {
        }
      }
    }
  }

  /**
   * `upgrade` attempts exactly the cells with `1 <= x, y <= 27` that hold a
   * stationary unit (never a cell on row 0 or column 0), each once, in row
   * order, and so at most 729 of them.
   */
  lemma SweepCellsExactly(board: Game.Board)
    ensures |SweepCells(board)| <= 729
    ensures forall c :: c in SweepCells(board) <==> InSweepRange(c) && ContainsStationaryUnit(board, c)
    ensures forall k1, k2 :: 0 <= k1 < k2 < |SweepCells(board)| ==>
      Before(SweepCells(board)[k1], SweepCells(board)[k2])
  {
    SweepUpToLength(board, 28, 1);
    SweepUpToMembers(board, 28, 1);
    SweepUpToSorted(board, 28, 1);
  }

  /** One single-cell upgrade request per cell. */
  function UpgradeRequests(cells: seq<Coord>): (cmds: seq<Command>)
    ensures |cmds| == |cells|
    ensures forall k :: 0 <= k < |cells| ==> cmds[k] == UpgradeRequest([cells[k]])
  {
    if cells == [] then [] else UpgradeRequests(cells[..|cells| - 1]) + [UpgradeRequest([Last(cells)])]
  }

  /**
   * How many of the single-cell upgrade requests for `cells`, issued in order
   * after `log`, the engine reports as having upgraded something.
   */
  function Successes(admitted: (seq<Command>, Command) -> nat, log: seq<Command>, cells: seq<Coord>): nat
  {
    if cells == [] then 0
    else
      var prefix := cells[..|cells| - 1];
      Successes(admitted, log, prefix)
      + (if admitted(log + UpgradeRequests(prefix), UpgradeRequest([Last(cells)])) > 0 then 1 else 0)
  }

  /**
   * Visiting cell `(i, j)`: when it holds a stationary unit, one more request,
   * and one more success iff the engine admits it; otherwise nothing changes.
   */
  lemma SweepStep(admitted: (seq<Command>, Command) -> nat, log: seq<Command>, board: Game.Board, i: int, j: int)
    requires 1 <= i <= 27 && 1 <= j <= 27
    ensures var done, c := SweepUpTo(board, i, j), Coord(i, j);
      if ContainsStationaryUnit(board, c) then
        && UpgradeRequests(SweepUpTo(board, i, j + 1)) == UpgradeRequests(done) + [UpgradeRequest([c])]
        && Successes(admitted, log, SweepUpTo(board, i, j + 1)) == Successes(admitted, log, done)
           + (if admitted(log + UpgradeRequests(done), UpgradeRequest([c])) > 0 then 1 else 0)
      else
        SweepUpTo(board, i, j + 1) == done
  {
    var done, c := SweepUpTo(board, i, j), Coord(i, j);
    if ContainsStationaryUnit(board, c) {
      assert SweepUpTo(board, i, j + 1) == done + [c];
      assert (done + [c])[..|done|] == done;
    } else {
      assert SweepUpTo(board, i, j + 1) == done + [];
    }
  }

  lemma {:induction false} SuccessesAtMostAttempts(admitted: (seq<Command>, Command) -> nat, log: seq<Command>, cells: seq<Coord>)
    ensures Successes(admitted, log, cells) <= |cells|
  {
    if cells != [] {
      SuccessesAtMostAttempts(admitted, log, cells[..|cells| - 1]);
    }
  }

  // ---------------------------------------------------------------------------
  // Fixed defences with the dest / destruct bookkeeping

  /** Number of the agent's own (player 0) units of type `t` on stationary cells. */
  function OwnCount(s: Snapshot, t: UnitType): nat {
    CountUnits(s.board, s.arena, Query(0, Some(t), None, None))
  }

  datatype DefenceOutcome = DefenceOutcome(commands: seq<Command>, dest: int, destruct: bool)

  /** What `build_defences` requests and how it leaves `dest` and `destruct`. */
  function Defences(s: Snapshot, admitted: (seq<Command>, Command) -> nat, log: seq<Command>,
                    dest: int, destruct: bool): DefenceOutcome
  {
    var teal := SpawnRequest(Destructor, TealDestructors, 1);
    var placeTeal := 8 < OwnCount(s, Encryptor) < 12 && !destruct;
    var dest' := if placeTeal then dest + admitted(log, teal) else dest;
    var destruct' := (placeTeal || destruct) && OwnCount(s, Destructor) == |TealDestructors|;
    DefenceOutcome((if placeTeal then [teal] else []) + BlueWall(dest'), dest', destruct')
  }

  /**
   * The encryptor wall, placed and upgraded from its right end, and placed
   * once more when `dest` has reached the length of the destructor line.
   */
  function BlueWall(dest: int): seq<Command> {
    var rev := Reverse(BlueEncryptors);
    [SpawnRequest(Encryptor, rev, 1), UpgradeRequest(rev)]
    + (if dest >= |TealDestructors| then [SpawnRequest(Encryptor, rev, 1)] else [])
  }

  /**
   * `dest` never decreases; `destruct` ends up set only when the agent owns
   * exactly as many destructors as the destructor line has cells (13); the
   * destructor line is requested iff 8 < own encryptors < 12 and `destruct`
   * was clear.
   */
  lemma DefencesBookkeeping(s: Snapshot, admitted: (seq<Command>, Command) -> nat, log: seq<Command>,
                            dest: int, destruct: bool)
    ensures var r := Defences(s, admitted, log, dest, destruct);
      && r.dest >= dest
      && (r.destruct ==> OwnCount(s, Destructor) == 13)
      && (SpawnRequest(Destructor, TealDestructors, 1) in r.commands <==> 8 < OwnCount(s, Encryptor) < 12 && !destruct)
  {
  }

  // ---------------------------------------------------------------------------
  // Attack

  datatype AttackOutcome = AttackOutcome(commands: seq<Command>, sendScrambler: bool, fault: Option<Fault>)

  /** The two opening scrambler requests of turns 0 and 1. */
  function Opening(turn: int): seq<Command> {
    if turn == 0 || turn == 1 then
      [SpawnRequest(Scrambler, [Coord(13, 0)], 3), SpawnRequest(Scrambler, [Coord(14, 0)], 2)]
    else []
  }

  /** The opponent lost at most 3 health between the last two recorded values. */
  predicate Stagnating(health: seq<int>)
    requires |health| >= 2
  {
    health[|health| - 2] - 3 <= health[|health| - 1]
  }

  /** The latest breach, or `[14, 0]` when none is recorded. */
  function Fallback(scored: seq<Coord>): Coord {
    if scored == [] then Coord(14, 0) else Last(scored)
  }

  /** Where the probe goes: the latest breach, else the least-damage friendly edge. */
  function Target(s: Snapshot, scored: seq<Coord>): Result<Coord> {
    if scored == [] then GuardedChoice(s, s.friendlyEdges) else Ok(Last(scored))
  }

  /** What `attack` requests, how it leaves `sendSCRAMBLER`, and what it raises. */
  function AttackPlan(s: Snapshot, scored: seq<Coord>, health: seq<int>, sendScrambler: bool): AttackOutcome {
    var opening := Opening(s.turnNumber);
    var target := Target(s, scored);
    if target.Err? then AttackOutcome(opening, sendScrambler, Some(target.fault))
    else
      var rest := Escalation(s, scored, health, sendScrambler);
      AttackOutcome(opening + [Probe(s, target.value)] + rest.commands, rest.sendScrambler, rest.fault)
  }

  /** The probe: `2 * floor(bits / 2) + 1` scramblers to `target`. */
  function Probe(s: Snapshot, target: Coord): Command {
    SpawnRequest(Scrambler, [target], Floor(s.bits / 2.0) * 2 + 1)
  }

  /**
   * The part of `attack` after the probe: the stagnation test, which reads
   * `[-2]` of the history, then the closing requests.
   */
  function Escalation(s: Snapshot, scored: seq<Coord>, health: seq<int>, sendScrambler: bool): AttackOutcome {
    if !sendScrambler && s.turnNumber > 2 && |health| < 2 then
      AttackOutcome([], sendScrambler, Some(IndexOutOfRange))
    else
      var fire := sendScrambler || (s.turnNumber > 2 && Stagnating(health));
      AttackOutcome(Closing(s, scored, fire), fire, None)
  }

  /**
   * The requests after the probe: when the scrambler wave fires, a second
   * scrambler request and then all bits' worth of scramblers to the latest
   * breach (or `[14, 0]`); otherwise the scrambler pair of turns 0-2, or a
   * ping rush from `[13, 0]` on even turns and `[14, 0]` on odd ones.
   */
  function Closing(s: Snapshot, scored: seq<Coord>, fire: bool): seq<Command> {
    var num := Floor(s.bits / 2.0);
    if fire then
      [SpawnRequest(Scrambler, [Fallback(scored)], 2 * num + 1), SpawnRequest(Scrambler, [Fallback(scored)], Ceil(s.bits))]
    else if s.turnNumber < 3 then
      [SpawnRequest(Scrambler, [Coord(13, 0)], num), SpawnRequest(Scrambler, [Coord(14, 0)], num + 1)]
    else if s.turnNumber % 2 == 0 then [SpawnRequest(Ping, [Coord(13, 0)], Ceil(s.bits))]
    else [SpawnRequest(Ping, [Coord(14, 0)], Ceil(s.bits))]
  }

  /** On turns 0 and 1 the first two requests are the scramblers at [13, 0] (3) and [14, 0] (2). */
  lemma OpeningRequests(s: Snapshot, scored: seq<Coord>, health: seq<int>, sendScrambler: bool)
    requires s.turnNumber == 0 || s.turnNumber == 1
    ensures var cmds := AttackPlan(s, scored, health, sendScrambler).commands;
      |cmds| >= 2
      && cmds[0] == SpawnRequest(Scrambler, [Coord(13, 0)], 3)
      && cmds[1] == SpawnRequest(Scrambler, [Coord(14, 0)], 2)
  {
  }

  /**
   * The probe: unless no target could be chosen, the request after the
   * opening sends `2 * floor(bits / 2) + 1` scramblers (an odd number, at
   * least one and at most bits + 1 when bits >= 0) to the latest breach, or
   * to the least-damage friendly edge when no breach is recorded.
   */
  lemma ProbeRequest(s: Snapshot, scored: seq<Coord>, health: seq<int>, sendScrambler: bool)
    ensures var plan := AttackPlan(s, scored, health, sendScrambler);
      var q := 2 * Floor(s.bits / 2.0) + 1;
      plan.fault != Some(EmptySequence) ==>
        && |plan.commands| > |Opening(s.turnNumber)|
        && plan.commands[|Opening(s.turnNumber)|]
           == SpawnRequest(Scrambler, [if scored == [] then GuardedChoice(s, s.friendlyEdges).value else Last(scored)], q)
        && q % 2 == 1
        && (s.bits >= 0.0 ==> 1 <= q && q as real <= s.bits + 1.0)
  {
  }

  /**
   * `attack` raises only when no breach is recorded and no friendly edge has
   * a path, or when the history is too short for `[-2]`, which cannot happen
   * once it holds two values.
   */
  lemma AttackFaults(s: Snapshot, scored: seq<Coord>, health: seq<int>, sendScrambler: bool)
    ensures var plan := AttackPlan(s, scored, health, sendScrambler);
      && (plan.fault == Some(EmptySequence) <==> scored == [] && forall c :: c in s.friendlyEdges ==> !HasPath(s, c))
      && (|health| >= 2 ==> plan.fault != Some(IndexOutOfRange))
  {
    GuardedChoiceIndexesWrongList(s, s.friendlyEdges);
    SelectBestIsLeastRisk(s, s.friendlyEdges);
  }

  /**
   * The stagnation wave: when `attack` completes, `sendSCRAMBLER` ends up set
   * iff it already was or the turn is past 2 and the opponent lost at most 3
   * health; exactly then a second probe-sized scrambler wave follows the
   * probe, aimed at the latest breach or [14, 0], and otherwise no second
   * wave is requested.
   */
  lemma StagnationWave(s: Snapshot, scored: seq<Coord>, health: seq<int>, sendScrambler: bool)
    requires |health| >= 2
    ensures var plan := AttackPlan(s, scored, health, sendScrambler);
      var fire := sendScrambler || (s.turnNumber > 2 && Stagnating(health));
      var at := |Opening(s.turnNumber)| + 1;
      plan.fault.None? ==>
        && plan.sendScrambler == fire
        && (fire ==>
              && |plan.commands| == at + 2
              && plan.commands[at] == SpawnRequest(Scrambler, [Fallback(scored)], 2 * Floor(s.bits / 2.0) + 1))
        && (!fire ==>
              |plan.commands| == at + (if s.turnNumber < 3 then 2 else 1))
  {
  }

  /**
   * The closing request: while `sendSCRAMBLER` stays clear and the turn is 3
   * or later, a full-budget ping goes to [13, 0] on even turns and [14, 0] on
   * odd ones; before turn 3 two scrambler requests of `n` and `n + 1` go to
   * [13, 0] and [14, 0]; once it is set, a full-budget scrambler wave goes to
   * the latest breach or [14, 0].
   */
  lemma PrimaryRequest(s: Snapshot, scored: seq<Coord>, health: seq<int>, sendScrambler: bool)
    ensures var plan := AttackPlan(s, scored, health, sendScrambler);
      var n := Floor(s.bits / 2.0);
      plan.fault.None? ==>
        && |plan.commands| >= 2
        && (plan.sendScrambler ==> Last(plan.commands) == SpawnRequest(Scrambler, [Fallback(scored)], Ceil(s.bits)))
        && (!plan.sendScrambler && s.turnNumber >= 3 ==>
              Last(plan.commands) == SpawnRequest(Ping, [if s.turnNumber % 2 == 0 then Coord(13, 0) else Coord(14, 0)], Ceil(s.bits)))
        && (!plan.sendScrambler && s.turnNumber < 3 ==>
              plan.commands[|plan.commands| - 2] == SpawnRequest(Scrambler, [Coord(13, 0)], n)
              && Last(plan.commands) == SpawnRequest(Scrambler, [Coord(14, 0)], n + 1))
  {
  }

  /** `sendSCRAMBLER` is only ever set by `attack`, never cleared. */
  lemma SendScramblerStaysSet(s: Snapshot, scored: seq<Coord>, health: seq<int>)
    ensures AttackPlan(s, scored, health, true).sendScrambler
  {
  }

  /**
   * A concrete history [40, 40, 39] with no breach recorded: on turn 2 the
   * escalation does not fire (the source asks for turn > 2); on turn 3 it
   * does, and the second wave goes to the fallback cell [14, 0].
   */
  lemma StagnationScenario()
    ensures var s2, s3 := OneOpenEdge(2), OneOpenEdge(3);
      && !AttackPlan(s2, [], [40, 40, 39], false).sendScrambler
      && AttackPlan(s3, [], [40, 40, 39], false).sendScrambler
      && AttackPlan(s3, [], [40, 40, 39], false).commands[1] == SpawnRequest(Scrambler, [Coord(14, 0)], 5)
  {
    var edge := Coord(13, 0);
    var s2, s3 := OneOpenEdge(2), OneOpenEdge(3);
    assert [edge][..0] == [];
    assert GuardedDamages(s2, [edge]) == [PathDamage(s2, [edge])];
    assert GuardedDamages(s3, [edge]) == [PathDamage(s3, [edge])];
    assert Floor(4.0 / 2.0) == 2;
  }

  /** A board with 4 bits, the opponent at 39 health and one open friendly edge cell, [13, 0]. */
  function OneOpenEdge(turn: int): Snapshot {
    Snapshot(turn, 39, 4.0, map[], [], [Coord(13, 0)], c => Some([c]), c => 0, 2)
  }

  // ---------------------------------------------------------------------------
  // The strategy object

  class AlgoStrategy {
    var scoredOnLocations: seq<Coord>
    var enemyHealthOvertime: seq<int>
    var dest: int
    var sendScrambler: bool
    var destruct: bool

    /** The health history is never empty and starts with the opponent's initial 40. */
    ghost predicate Valid()
      reads this
    {
      |enemyHealthOvertime| >= 1 && enemyHealthOvertime[0] == 40
    }

    /** `__init__` followed by `on_game_start`. */
    constructor ()
      ensures Valid()
      ensures scoredOnLocations == [] && enemyHealthOvertime == [40]
      ensures dest == 0 && !sendScrambler && !destruct
    {
      sendScrambler := false;
      scoredOnLocations := [];
      enemyHealthOvertime := [40];
      dest := 0;
      sendScrambler := false;
      destruct := false;
    }

    /**
     * `starter_strategy`: one turn. The result is the exception `attack`
     * raises, if any; the upgrade sweep is then skipped.
     */
    method StarterStrategy(gs: GameState) returns (fault: Option<Fault>)
      requires Valid()
      modifies this, gs`log
      ensures Valid()
      ensures enemyHealthOvertime == old(enemyHealthOvertime) + [gs.snap.enemyHealth]
      ensures scoredOnLocations == old(scoredOnLocations)
      ensures
        var l1 := old(gs.log) + [SpawnRequest(Encryptor, BlueEncryptors, 1)] + ReactiveCommands(scoredOnLocations);
        var d := Defences(gs.snap, gs.admitted, l1, old(dest), old(destruct));
        var a := AttackPlan(gs.snap, scoredOnLocations, enemyHealthOvertime, old(sendScrambler));
        var l2 := l1 + d.commands + a.commands;
        && dest == d.dest && destruct == d.destruct && sendScrambler == a.sendScrambler
        && fault == a.fault && fault != Some(IndexOutOfRange)
        && gs.log == l2 + (if fault.None? then UpgradeRequests(SweepCells(gs.snap.board)) else [])
      ensures old(sendScrambler) ==> sendScrambler
      ensures dest >= old(dest)
    {
      enemyHealthOvertime := enemyHealthOvertime + [gs.snap.enemyHealth];
      BuildEnc(gs);
      BuildReactiveDefense(gs);
      ghost var l1 := gs.log;
      BuildDefences(gs);
      ghost var l2 := gs.log;
      fault := Attack(gs);
      AttackFaults(gs.snap, scoredOnLocations, enemyHealthOvertime, old(sendScrambler));
      ghost var l3 := gs.log;
      if fault.None? {
        var upgraded := Upgrade(gs);
      }
      assert gs.log == l3 + (if fault.None? then UpgradeRequests(SweepCells(gs.snap.board)) else []);
    }

    /** `buildEnc`: request the whole encryptor block. */
    method BuildEnc(gs: GameState)
      modifies gs`log
      ensures gs.log == old(gs.log) + [SpawnRequest(Encryptor, BlueEncryptors, 1)]
    {
      var spawned := gs.AttemptSpawn(Encryptor, BlueEncryptors, 1);
    }

    /** `attack`; the result is the exception it raises, if any. */
    method Attack(gs: GameState) returns (fault: Option<Fault>)
      modifies this`sendScrambler, gs`log
      ensures
        var plan := AttackPlan(gs.snap, scoredOnLocations, enemyHealthOvertime, old(sendScrambler));
        gs.log == old(gs.log) + plan.commands && sendScrambler == plan.sendScrambler && fault == plan.fault
    {
      SpawnOpening(gs);
      var target := ProbeTarget(gs);
      if target.Err? {
        return Some(target.fault);
      }
      var n := gs.AttemptSpawn(Scrambler, [target.value], Floor(gs.snap.bits / 2.0) * 2 + 1);
      fault := Escalate(gs);
    }

    /** The rest of `attack`, after the probe: settle `sendSCRAMBLER`, then the closing requests. */
    method Escalate(gs: GameState) returns (fault: Option<Fault>)
      modifies this`sendScrambler, gs`log
      ensures
        var rest := Escalation(gs.snap, scoredOnLocations, enemyHealthOvertime, old(sendScrambler));
        gs.log == old(gs.log) + rest.commands && sendScrambler == rest.sendScrambler && fault == rest.fault
    {
      var s := gs.snap;
      var stagnating := false;
      if !sendScrambler && s.turnNumber > 2 {
        if |enemyHealthOvertime| < 2 {
          return Some(IndexOutOfRange);
        }
        stagnating := enemyHealthOvertime[|enemyHealthOvertime| - 2] - 3 <= enemyHealthOvertime[|enemyHealthOvertime| - 1];
      }
      if sendScrambler || stagnating {
        sendScrambler := true;
      }
      SpawnClosing(gs, scoredOnLocations, sendScrambler);
      fault := None;
    }

    /** The probe target of `attack`. */
    method ProbeTarget(gs: GameState) returns (target: Result<Coord>)
      ensures target == Target(gs.snap, scoredOnLocations)
    {
      if scoredOnLocations == [] {
        var edges := gs.snap.friendlyEdges;
        target := LeastDamageSpawnLocation(gs, edges);
      } else {
        target := Ok(Last(scoredOnLocations));
      }
    }

    /** The opening of `attack`: two scrambler requests on turns 0 and 1. */
    method SpawnOpening(gs: GameState)
      modifies gs`log
      ensures gs.log == old(gs.log) + Opening(gs.snap.turnNumber)
    {
      var n: nat;
      if gs.snap.turnNumber == 0 || gs.snap.turnNumber == 1 {
        n := gs.AttemptSpawn(Scrambler, [Coord(13, 0)], 3);
        n := gs.AttemptSpawn(Scrambler, [Coord(14, 0)], 2);
      }
    }

    /** The end of `attack`, once `sendSCRAMBLER` is settled: the wave and the primary push. */
    method SpawnClosing(gs: GameState, scored: seq<Coord>, fire: bool)
      modifies gs`log
      ensures gs.log == old(gs.log) + Closing(gs.snap, scored, fire)
    {
      var s := gs.snap;
      var n: nat;
      var num := Floor(s.bits / 2.0);
      if fire {
        if scored == [] {
          n := gs.AttemptSpawn(Scrambler, [Coord(14, 0)], 2 * num + 1);
        } else {
          var loc := Last(scored);
          n := gs.AttemptSpawn(Scrambler, [loc], 2 * num + 1);
        }
      }
      if !fire {
        if s.turnNumber < 3 {
          n := gs.AttemptSpawn(Scrambler, [Coord(13, 0)], num);
          n := gs.AttemptSpawn(Scrambler, [Coord(14, 0)], num + 1);
        } else if s.turnNumber % 2 == 0 {
          n := gs.AttemptSpawn(Ping, [Coord(13, 0)], Ceil(s.bits));
        } else {
          n := gs.AttemptSpawn(Ping, [Coord(14, 0)], Ceil(s.bits));
        }
      } else {
        if scored != [] {
          var scoredOn := Last(scored);
          n := gs.AttemptSpawn(Scrambler, [scoredOn], Ceil(s.bits));
        } else {
          n := gs.AttemptSpawn(Scrambler, [Coord(14, 0)], Ceil(s.bits));
        }
      }
    }

    /**
     * `upgrade`: try to upgrade every stationary unit on cells 1..27 x 1..27;
     * the result counts the attempts the engine reports as successful.
     */
    method Upgrade(gs: GameState) returns (numUpgraded: nat)
      modifies gs`log
      ensures gs.log == old(gs.log) + UpgradeRequests(SweepCells(gs.snap.board))
      ensures numUpgraded == Successes(gs.admitted, old(gs.log), SweepCells(gs.snap.board))
      ensures numUpgraded <= 729
    {
      var board := gs.snap.board;
      numUpgraded := 0;
      for i := 1 to 28
        invariant gs.log == old(gs.log) + UpgradeRequests(SweepUpTo(board, i, 1))
        invariant numUpgraded == Successes(gs.admitted, old(gs.log), SweepUpTo(board, i, 1))
      {
        numUpgraded := UpgradeRow(gs, old(gs.log), i, numUpgraded);
      }
      SweepUpToLength(board, 28, 1);
      SuccessesAtMostAttempts(gs.admitted, old(gs.log), SweepCells(board));
    }

    /** One pass of the outer loop of `upgrade`: the cells `(i, 1)` to `(i, 27)`. */
    method UpgradeRow(gs: GameState, ghost log0: seq<Command>, i: int, count: nat) returns (count': nat)
      requires 1 <= i <= 27
      requires gs.log == log0 + UpgradeRequests(SweepUpTo(gs.snap.board, i, 1))
      requires count == Successes(gs.admitted, log0, SweepUpTo(gs.snap.board, i, 1))
      modifies gs`log
      ensures gs.log == log0 + UpgradeRequests(SweepUpTo(gs.snap.board, i + 1, 1))
      ensures count' == Successes(gs.admitted, log0, SweepUpTo(gs.snap.board, i + 1, 1))
    {
      count' := count;
      for j := 1 to 28
        invariant gs.log == log0 + UpgradeRequests(SweepUpTo(gs.snap.board, i, j))
        invariant count' == Successes(gs.admitted, log0, SweepUpTo(gs.snap.board, i, j))
      {
        count' := UpgradeCell(gs, log0, i, j, count');
      }
    }

    /**
     * One pass of the inner loop of `upgrade`: when cell `(i, j)` holds a
     * stationary unit, request its upgrade and count it if the engine upgrades it.
     */
    method UpgradeCell(gs: GameState, ghost log0: seq<Command>, i: int, j: int, count: nat) returns (count': nat)
      requires 1 <= i <= 27 && 1 <= j <= 27
      requires gs.log == log0 + UpgradeRequests(SweepUpTo(gs.snap.board, i, j))
      requires count == Successes(gs.admitted, log0, SweepUpTo(gs.snap.board, i, j))
      modifies gs`log
      ensures gs.log == log0 + UpgradeRequests(SweepUpTo(gs.snap.board, i, j + 1))
      ensures count' == Successes(gs.admitted, log0, SweepUpTo(gs.snap.board, i, j + 1))
    {
      SweepStep(gs.admitted, log0, gs.snap.board, i, j);
      count' := count;
      if ContainsStationaryUnit(gs.snap.board, Coord(i, j)) {
        var upgraded := gs.AttemptUpgrade([Coord(i, j)]);
        if upgraded > 0 {
          count' := count + 1;
        }
      }
    }

    /** `build_defences`. */
    method BuildDefences(gs: GameState)
      modifies this`dest, this`destruct, gs`log
      ensures
        var d := Defences(gs.snap, gs.admitted, old(gs.log), old(dest), old(destruct));
        gs.log == old(gs.log) + d.commands && dest == d.dest && destruct == d.destruct
      ensures dest >= old(dest)
      ensures destruct ==> OwnCount(gs.snap, Destructor) == |TealDestructors|
    {
      var n: nat;
      var encryptors := DetectUnit(gs, 0, Some(Encryptor), None, None);
      if 8 < encryptors < 12 && !destruct {
        n := gs.AttemptSpawn(Destructor, TealDestructors, 1);
        dest := dest + n;
        destruct := true;
      }
      var destructors := DetectUnit(gs, 0, Some(Destructor), None, None);
      if destructors != |TealDestructors| {
        destruct := false;
      }
      BuildBlueWall(gs);
    }

    /** The second half of `build_defences`: the encryptor wall. */
    method BuildBlueWall(gs: GameState)
      modifies gs`log
      ensures gs.log == old(gs.log) + BlueWall(dest)
    {
      var n: nat;
      var blueReversed := Reverse(BlueEncryptors);
      var encryptors := DetectUnit(gs, 0, Some(Encryptor), None, None);
      if encryptors <= 12 {
        n := gs.AttemptSpawn(Encryptor, blueReversed, 1);
      } else {
        n := gs.AttemptSpawn(Encryptor, blueReversed, 1);
      }
      n := gs.AttemptUpgrade(blueReversed);
      if dest >= |TealDestructors| {
        n := gs.AttemptSpawn(Encryptor, blueReversed, 1);
      }
    }

    /** `build_reactive_defense`: destructors on the ring around the latest breach. */
    method BuildReactiveDefense(gs: GameState)
      modifies gs`log
      ensures gs.log == old(gs.log) + ReactiveCommands(scoredOnLocations)
    {
      if |scoredOnLocations| >= 1 {
        var loc := Last(scoredOnLocations);
        for i := 2 to 7
          invariant gs.log == old(gs.log) + ReactiveUpTo(loc, i, 2)
        {
          for j := 2 to 7
            invariant gs.log == old(gs.log) + ReactiveUpTo(loc, i, j)
          {
            SpawnRingStep(gs, loc, i, j);
          }
        }
      }
    }

    /** One pass of the inner loop of `build_reactive_defense`: four single destructors around `loc`. */
    method SpawnRingStep(gs: GameState, loc: Coord, i: int, j: int)
      modifies gs`log
      ensures gs.log == old(gs.log) + RingStep(loc, i, j)
    {
      var n: nat;
      n := gs.AttemptSpawn(Destructor, [Coord(loc.x + i, loc.y + j)], 1);
      n := gs.AttemptSpawn(Destructor, [Coord(loc.x - i, loc.y - j)], 1);
      n := gs.AttemptSpawn(Destructor, [Coord(loc.x + i, loc.y - j)], 1);
      n := gs.AttemptSpawn(Destructor, [Coord(loc.x - i, loc.y + j)], 1);
    }

    /** `on_action_frame`, after decoding: remember where the opponent broke through. */
    method OnActionFrame(breaches: seq<BreachEvent>)
      modifies this`scoredOnLocations
      ensures scoredOnLocations == old(scoredOnLocations) + OpponentBreaches(breaches)
    {
      for k := 0 to |breaches|
        invariant scoredOnLocations == old(scoredOnLocations) + OpponentBreaches(breaches[..k])
      {
        var breach := breaches[k];
        assert breaches[..k + 1][..k] == breaches[..k];
        var location := breach.location;
        var unitOwnerSelf := breach.owner == 1;
        if !unitOwnerSelf {
          scoredOnLocations := scoredOnLocations + [location];
        }
      }
      assert breaches[..|breaches|] == breaches;
    }
  }
}
