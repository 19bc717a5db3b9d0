/**
 * The scramblerDef strategy. Each turn it requests two encryptor columns and
 * two destructor rows, then attacks: an EMP wave on turn 1, a ping push when
 * the opponent's health stagnates late in the game, and a closing ping or
 * scrambler request. The opponent's health is recorded only after `attack`
 * has returned.
 */
module ScramblerDef {
  import opened Game
  import opened PathRisk
  import opened Breach
  import Stampede

  /** The 28 bottom-edge cells `attack` weighs, in the order the source lists them. */
  const CanSpawn: seq<Coord> := [
    Coord(0, 13), Coord(27, 13), Coord(1, 12), Coord(26, 12), Coord(2, 11), Coord(25, 11), Coord(3, 10),
    Coord(24, 10), Coord(4, 9), Coord(23, 9), Coord(5, 8), Coord(22, 8), Coord(6, 7), Coord(21, 7),
    Coord(7, 6), Coord(20, 6), Coord(8, 5), Coord(19, 5), Coord(9, 4), Coord(18, 4), Coord(10, 3),
    Coord(17, 3), Coord(11, 2), Coord(16, 2), Coord(12, 1), Coord(15, 1), Coord(13, 0), Coord(14, 0)]

  const FirstEncryptors: seq<Coord> := [
    Coord(13, 5), Coord(15, 5), Coord(13, 4), Coord(15, 4), Coord(13, 3), Coord(15, 3), Coord(13, 2),
    Coord(15, 2), Coord(13, 1), Coord(15, 1)]

  const SecondEncryptors: seq<Coord> := [
    Coord(13, 10), Coord(15, 10), Coord(13, 9), Coord(15, 9), Coord(13, 8), Coord(15, 8), Coord(13, 7),
    Coord(15, 7), Coord(13, 6), Coord(15, 6)]

  const FirstDestructors: seq<Coord> := [
    Coord(3, 12), Coord(7, 12), Coord(11, 12), Coord(15, 12), Coord(19, 12), Coord(23, 12)]

  const SecondDestructors: seq<Coord> := [
    Coord(1, 13), Coord(26, 13), Coord(5, 10), Coord(9, 10), Coord(13, 10), Coord(17, 10), Coord(21, 10)]

  // ---------------------------------------------------------------------------
  // Defences

  /** What `build_defences` requests, whatever the state. */
  const DefenceCommands: seq<Command> := [
    SpawnRequest(Encryptor, SecondEncryptors, 1),
    SpawnRequest(Encryptor, FirstEncryptors, 1),
    SpawnRequest(Destructor, FirstDestructors, 1),
    SpawnRequest(Destructor, SecondDestructors, 1)]

  /**
   * The defence requests: the second encryptor column, the first, then the
   * two destructor rows. Cell [13, 10] is named by the second encryptor column
   * and by the second destructor row, and the encryptor request comes first.
   */
  lemma DefenceOrder()
    ensures |DefenceCommands| == 4
    ensures forall k :: 0 <= k < 2 ==> DefenceCommands[k].SpawnRequest? && DefenceCommands[k].unitType == Encryptor
    ensures forall k :: 2 <= k < 4 ==> DefenceCommands[k].SpawnRequest? && DefenceCommands[k].unitType == Destructor
    ensures |DefenceCommands[0].locations| == 10 && |DefenceCommands[1].locations| == 10
    ensures |DefenceCommands[2].locations| == 6 && |DefenceCommands[3].locations| == 7
    ensures Coord(13, 10) in DefenceCommands[0].locations && Coord(13, 10) in DefenceCommands[3].locations
    ensures Coord(13, 10) !in DefenceCommands[1].locations && Coord(13, 10) !in DefenceCommands[2].locations
  {
    assert SecondEncryptors[0] == Coord(13, 10);
    assert SecondDestructors[4] == Coord(13, 10);
  }

  // ---------------------------------------------------------------------------
  // Reactive defence

  /** Two destructors two rows above the first recorded breach, two cells to either side. */
  function ReactiveCommands(scored: seq<Coord>): seq<Command> {
    if scored == [] then []
    else
      var b := scored[0];
      [SpawnRequest(Destructor, [Coord(b.x + 2, b.y + 2)], 1),
       SpawnRequest(Destructor, [Coord(b.x - 2, b.y + 2)], 1)]
  }

  /**
   * `build_reactive_defense` asks for nothing when no breach is recorded;
   * otherwise only the first breach matters, and the two single destructors
   * go four cells apart on the row two above it, the right one first.
   */
  lemma ReactiveUsesFirstBreach(scored: seq<Coord>)
    ensures scored == [] <==> ReactiveCommands(scored) == []
    ensures scored != [] ==>
      && ReactiveCommands(scored) == ReactiveCommands(scored[..1])
      && |ReactiveCommands(scored)| == 2
      && forall k :: 0 <= k < 2 ==>
           var cmd := ReactiveCommands(scored)[k];
           && cmd.SpawnRequest? && cmd.unitType == Destructor && |cmd.locations| == 1
           && cmd.locations[0].y == scored[0].y + 2
           && cmd.locations[0].x == scored[0].x + (if k == 0 then 2 else -2)
  {
  }

  // ---------------------------------------------------------------------------
  // Attack

  datatype AttackOutcome = AttackOutcome(commands: seq<Command>, fault: Option<Fault>)

  /** The EMP wave of turn 1. */
  function EmpOpening(s: Snapshot): seq<Command> {
    if s.turnNumber == 1 then [SpawnRequest(Emp, [Coord(14, 0)], Floor(s.bits))] else []
  }

  /** The late-game ping push, when the opponent's health has stagnated. */
  function StallPush(s: Snapshot, health: seq<int>): seq<Command>
    requires s.turnNumber > 5 ==> |health| >= 2
  {
    if s.turnNumber > 5 && Stampede.Stagnating(health) then [SpawnRequest(Ping, [Coord(14, 0)], Floor(s.bits))]
    else []
  }

  /**
   * The closing request: pings from [14, 0] once the opponent is down to 10
   * health, otherwise scramblers to the first recorded breach, or to [14, 0].
   */
  function Finish(s: Snapshot, scored: seq<Coord>): Command {
    if s.enemyHealth <= 10 then SpawnRequest(Ping, [Coord(14, 0)], Floor(Floor(s.bits) as real))
    else if scored != [] then SpawnRequest(Scrambler, [scored[0]], Floor(s.bits))
    else SpawnRequest(Scrambler, [Coord(14, 0)], Floor(s.bits))
  }

  /**
   * What `attack` requests and what it raises. `health` is the history as it
   * stands during `attack`, before this turn's value is added.
   */
  function AttackPlan(s: Snapshot, scored: seq<Coord>, health: seq<int>): AttackOutcome {
    var emp := EmpOpening(s);
    var best := GuardedChoice(s, CanSpawn);
    if best.Err? then AttackOutcome(emp, Some(best.fault))
    else if s.turnNumber > 5 && |health| < 2 then AttackOutcome(emp, Some(IndexOutOfRange))
    else AttackOutcome(emp + StallPush(s, health) + [Finish(s, scored)], None)
  }

  /** An EMP is requested on turn 1 only, as the very first request, with `floor(bits)` units. */
  lemma EmpOnlyOnTurnOne(s: Snapshot, scored: seq<Coord>, health: seq<int>)
    ensures var cmds := AttackPlan(s, scored, health).commands;
      && (s.turnNumber == 1 ==> |cmds| >= 1 && cmds[0] == SpawnRequest(Emp, [Coord(14, 0)], Floor(s.bits)))
      && (forall k :: 0 <= k < |cmds| && cmds[k].SpawnRequest? && cmds[k].unitType == Emp ==>
            s.turnNumber == 1 && k == 0)
  {
  }

  /**
   * `attack` fails with the error of `min([])` exactly when none of the 28
   * edge cells has a path, and then it has requested at most the EMP wave.
   */
  lemma AllBlockedFails(s: Snapshot, scored: seq<Coord>, health: seq<int>)
    ensures var plan := AttackPlan(s, scored, health);
      && (plan.fault == Some(EmptySequence) <==> forall c :: c in CanSpawn ==> !HasPath(s, c))
      && (plan.fault == Some(EmptySequence) ==> plan.commands == EmpOpening(s))
  {
    GuardedChoiceIndexesWrongList(s, CanSpawn);
    SelectBestIsLeastRisk(s, CanSpawn);
  }

  /**
   * The best location is computed and then unused: two snapshots that agree
   * on the turn, the bits and the opponent's health, and on which the choice
   * succeeds, give the same requests whatever their paths and attackers.
   */
  lemma BestLocationUnused(s1: Snapshot, s2: Snapshot, scored: seq<Coord>, health: seq<int>)
    requires s1.turnNumber == s2.turnNumber && s1.bits == s2.bits && s1.enemyHealth == s2.enemyHealth
    requires GuardedChoice(s1, CanSpawn).Ok? && GuardedChoice(s2, CanSpawn).Ok?
    ensures AttackPlan(s1, scored, health) == AttackPlan(s2, scored, health)
  {
  }

  /**
   * Once the choice succeeds and the history is long enough: the ping push is
   * requested iff the turn is after 5 and the opponent lost at most 3 health
   * between the last two recorded values, and the last request is the
   * closing one.
   */
  lemma StallAndFinish(s: Snapshot, scored: seq<Coord>, health: seq<int>)
    ensures var plan := AttackPlan(s, scored, health);
      var at := |EmpOpening(s)|;
      plan.fault.None? ==>
        && (s.turnNumber > 5 ==> |health| >= 2)
        && var stall := s.turnNumber > 5 && Stampede.Stagnating(health);
        && |plan.commands| == at + (if stall then 2 else 1)
        && (stall ==> plan.commands[at] == SpawnRequest(Ping, [Coord(14, 0)], Floor(s.bits)))
        && Last(plan.commands) == Finish(s, scored)
  {
  }

  /**
   * The closing request goes to the FIRST recorded breach, not the latest:
   * with the opponent above 10 health and breaches recorded, the scramblers
   * go to `scored[0]`; at 10 or below, pings go to [14, 0].
   */
  lemma FinishTargetsFirstBreach(s: Snapshot, scored: seq<Coord>)
    ensures s.enemyHealth > 10 && scored != [] ==>
      Finish(s, scored) == SpawnRequest(Scrambler, [scored[0]], Floor(s.bits))
    ensures s.enemyHealth > 10 && scored == [] ==>
      Finish(s, scored) == SpawnRequest(Scrambler, [Coord(14, 0)], Floor(s.bits))
    ensures s.enemyHealth <= 10 ==> Finish(s, scored) == SpawnRequest(Ping, [Coord(14, 0)], Floor(s.bits))
  {
  }

  /**
   * While the history holds one value per turn played (it starts as [40] on
   * turn 0), `[-2]` is valid from turn 1 on and `attack` never raises the
   * index error. The agent does not keep that balance by itself: a turn whose
   * `attack` raises skips the append in `starter_strategy`, so the history can
   * fall behind the turns, and `ShortHistoryOnTurnSix` shows the error then.
   */
  lemma NoIndexErrorWhenHistoryTracksTurns(s: Snapshot, scored: seq<Coord>, health: seq<int>)
    requires s.turnNumber >= 0 && |health| == s.turnNumber + 1
    ensures AttackPlan(s, scored, health).fault != Some(IndexOutOfRange)
  {
  }

  /**
   * A turn-6 board with 4 bits on which every edge cell but [14, 0] holds
   * one of the agent's filters, so only [14, 0] has a path.
   */
  function OnlyCornerOpen(): Snapshot {
    Snapshot(6, 30, 4.0, map c | c in CanSpawn && c != Coord(14, 0) :: [Unit(0, Filter)], CanSpawn, [],
             c => if c == Coord(14, 0) then Some([c]) else None, c => 0, 2)
  }

  /**
   * A history of a single value on turn 6 does raise the index error, once
   * the choice succeeds: here only the one edge cell free of stationary
   * units has a path.
   */
  lemma ShortHistoryOnTurnSix()
    ensures var s := OnlyCornerOpen();
      && (forall c :: c in CanSpawn ==> (ContainsStationaryUnit(s.board, c) <==> c != Coord(14, 0)))
      && (forall c :: c in CanSpawn ==> (HasPath(s, c) <==> c == Coord(14, 0)))
      && AttackPlan(s, [], [40]).fault == Some(IndexOutOfRange)
  {
    var s, open := OnlyCornerOpen(), Coord(14, 0);
    forall c | c in CanSpawn ensures ContainsStationaryUnit(s.board, c) <==> c != open {
      if c != open {
        assert Unit(0, Filter) in UnitsAt(s.board, c);
      }
    }
    assert s.findPathToEdge(open) == Some([open]);
    assert HasPath(s, open);
    assert open in CanSpawn;
    SelectBestIsLeastRisk(s, CanSpawn);
    GuardedChoiceIndexesWrongList(s, CanSpawn);
  }

  // ---------------------------------------------------------------------------
  // The agent

  class AlgoStrategy {
    var scoredOnLocations: seq<Coord>
    var enemyHealthOvertime: seq<int>

    /** The history always starts with the opponent's initial 40 health. */
    ghost predicate Valid()
      reads this
    {
      |enemyHealthOvertime| >= 1 && enemyHealthOvertime[0] == 40
    }

    /** `__init__` followed by `on_game_start`. */
    constructor ()
      ensures Valid()
      ensures scoredOnLocations == [] && enemyHealthOvertime == [40]
    {
      scoredOnLocations := [];
      enemyHealthOvertime := [40];
    }

    /**
     * `starter_strategy`: the defences, then the attack, and only when the
     * attack has returned normally, the opponent's health joins the history.
     */
    method StarterStrategy(gs: GameState) returns (fault: Option<Fault>)
      requires Valid()
      modifies this`enemyHealthOvertime, gs`log
      ensures Valid()
      ensures var plan := AttackPlan(gs.snap, scoredOnLocations, old(enemyHealthOvertime));
        && gs.log == old(gs.log) + DefenceCommands + plan.commands
        && fault == plan.fault
      ensures enemyHealthOvertime == old(enemyHealthOvertime) + (if fault.None? then [gs.snap.enemyHealth] else [])
    {
      BuildDefences(gs);
      fault := Attack(gs);
      if fault.None? {
        enemyHealthOvertime := enemyHealthOvertime + [gs.snap.enemyHealth];
      }
    }

    /** `attack`; the result is the exception it raises, if any. */
    method Attack(gs: GameState) returns (fault: Option<Fault>)
      modifies gs`log
      ensures var plan := AttackPlan(gs.snap, scoredOnLocations, enemyHealthOvertime);
        gs.log == old(gs.log) + plan.commands && fault == plan.fault
    {
      var s := gs.snap;
      var n: nat;
      if s.turnNumber == 1 {
        n := gs.AttemptSpawn(Emp, [Coord(14, 0)], Floor(s.bits));
      }
      assert gs.log == old(gs.log) + EmpOpening(s);
      var bestLoc := LeastDamageSpawnLocation(gs, CanSpawn);
      if bestLoc.Err? {
        return Some(bestLoc.fault);
      }
      var health := enemyHealthOvertime;
      if s.turnNumber > 5 {
        if |health| < 2 {
          return Some(IndexOutOfRange);
        }
        if health[|health| - 2] - 3 <= health[|health| - 1] {
          n := gs.AttemptSpawn(Ping, [Coord(14, 0)], Floor(s.bits));
        }
      }
      assert gs.log == old(gs.log) + EmpOpening(s) + StallPush(s, health);
      SpawnFinish(gs);
      fault := None;
    }

    /** The closing request of `attack`. */
    method SpawnFinish(gs: GameState)
      modifies gs`log
      ensures gs.log == old(gs.log) + [Finish(gs.snap, scoredOnLocations)]
    {
      var s := gs.snap;
      var n: nat;
      if s.enemyHealth <= 10 {
        n := gs.AttemptSpawn(Ping, [Coord(14, 0)], Floor(Floor(s.bits) as real));
      } else {
        if scoredOnLocations != [] {
          var loc := scoredOnLocations[0];
          n := gs.AttemptSpawn(Scrambler, [loc], Floor(s.bits));
        } else {
          n := gs.AttemptSpawn(Scrambler, [Coord(14, 0)], Floor(s.bits));
        }
      }
    }

    /** `build_defences`: both encryptor columns, then both destructor rows. */
    method BuildDefences(gs: GameState)
      modifies gs`log
      ensures gs.log == old(gs.log) + DefenceCommands
    {
      var n: nat;
      n := gs.AttemptSpawn(Encryptor, SecondEncryptors, 1);
      n := gs.AttemptSpawn(Encryptor, FirstEncryptors, 1);
      n := gs.AttemptSpawn(Destructor, FirstDestructors, 1);
      n := gs.AttemptSpawn(Destructor, SecondDestructors, 1);
    }

    /** `build_reactive_defense`: two destructors near the first recorded breach. */
    method BuildReactiveDefense(gs: GameState)
      modifies gs`log
      ensures gs.log == old(gs.log) + ReactiveCommands(scoredOnLocations)
    {
      if scoredOnLocations != [] {
        var scored := scoredOnLocations[0];
        var locs := [Coord(scored.x + 2, scored.y + 2), Coord(scored.x - 2, scored.y + 2)];
        var n: nat;
        n := gs.AttemptSpawn(Destructor, [locs[0]], 1);
        n := gs.AttemptSpawn(Destructor, [locs[1]], 1);
      }
    }

    /** `on_action_frame`, after decoding: remember where the opponent broke through. */
    method OnActionFrame(breaches: seq<BreachEvent>)
      modifies this`scoredOnLocations
      ensures scoredOnLocations == old(scoredOnLocations) + OpponentBreaches(breaches)
    {
      for k := 0 to |breaches|
        invariant scoredOnLocations == old(scoredOnLocations) + OpponentBreaches(breaches[..k])
      {
        var breach := breaches[k];
        assert breaches[..k + 1][..k] == breaches[..k];
        var location := breach.location;
        var unitOwnerSelf := breach.owner == 1;
        if !unitOwnerSelf {
          scoredOnLocations := scoredOnLocations + [location];
        }
      }
      assert breaches[..|breaches|] == breaches;
    }
  }
}
