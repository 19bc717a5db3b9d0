/**
 * The dumbo strategy. Each turn it appends the opponent's health to its
 * history, requests a fixed defence layout and sends the same two attack
 * requests. Its `least_damage_spawn_location` has no guard against a missing
 * path, so its damages stay aligned with the options.
 */
module Dumbo {
  import opened Game
  import opened PathRisk
  import opened Breach

  /** The forward destructor row. */
  const PinkDestructors: seq<Coord> := [
    Coord(2, 12), Coord(6, 12), Coord(10, 12), Coord(14, 12), Coord(18, 12), Coord(22, 12), Coord(25, 12)]

  /** The encryptor funnel. */
  const BlueEncryptors: seq<Coord> := [
    Coord(10, 5), Coord(11, 5), Coord(12, 5), Coord(13, 5), Coord(14, 5), Coord(15, 5), Coord(16, 5),
    Coord(17, 5), Coord(11, 4), Coord(12, 4), Coord(13, 4), Coord(14, 4), Coord(15, 4), Coord(16, 4),
    Coord(12, 3), Coord(13, 3), Coord(14, 3), Coord(15, 3), Coord(13, 2), Coord(14, 2)]

  /** The second destructor row. */
  const TealDestructors: seq<Coord> := [Coord(4, 10), Coord(8, 10), Coord(12, 10), Coord(16, 10), Coord(21, 10)]

  // ---------------------------------------------------------------------------
  // Fixed requests

  /** What `attack` requests, whatever the state. */
  const AttackCommands: seq<Command> := [
    SpawnRequest(Scrambler, [Coord(0, 13)], 5),
    SpawnRequest(Emp, [Coord(9, 4)], 100)]

  /** What `build_defences` requests, whatever the state. */
  const DefenceCommands: seq<Command> := [
    SpawnRequest(Destructor, PinkDestructors, 1),
    SpawnRequest(Destructor, TealDestructors, 1),
    SpawnRequest(Encryptor, BlueEncryptors, 1),
    UpgradeRequest(TealDestructors + PinkDestructors)]

  /**
   * The layout: 7 forward destructors, 5 second-row destructors and 20
   * encryptors, requested in that order; the closing upgrade names the 12
   * destructor cells, second row first, and nothing else.
   */
  lemma DefenceLayout()
    ensures |DefenceCommands| == 4
    ensures DefenceCommands[0].SpawnRequest? && DefenceCommands[0].unitType == Destructor
      && |DefenceCommands[0].locations| == 7
    ensures DefenceCommands[1].SpawnRequest? && DefenceCommands[1].unitType == Destructor
      && |DefenceCommands[1].locations| == 5
    ensures DefenceCommands[2].SpawnRequest? && DefenceCommands[2].unitType == Encryptor
      && |DefenceCommands[2].locations| == 20
    ensures DefenceCommands[3].UpgradeRequest? && |DefenceCommands[3].locations| == 12
    ensures forall c :: c in DefenceCommands[3].locations <==>
      c in DefenceCommands[0].locations || c in DefenceCommands[1].locations
  {
    var up := TealDestructors + PinkDestructors;
    forall c ensures c in up <==> c in PinkDestructors || c in TealDestructors {
    }
  }

  // ---------------------------------------------------------------------------
  // Reactive defence

  /** One destructor request per recorded breach, one cell above it, in recorded order. */
  function AboveBreaches(scored: seq<Coord>): seq<Command> {
    if scored == [] then []
    else AboveBreaches(scored[..|scored| - 1])
         + [SpawnRequest(Destructor, [Coord(Last(scored).x, Last(scored).y + 1)], 1)]
  }

  /**
   * `build_reactive_defense` asks for nothing when no breach is recorded, and
   * otherwise for exactly one single destructor per breach, directly above it.
   */
  lemma {:induction false} AboveBreachesExactly(scored: seq<Coord>)
    ensures |AboveBreaches(scored)| == |scored|
    ensures forall k :: 0 <= k < |scored| ==>
      AboveBreaches(scored)[k] == SpawnRequest(Destructor, [Coord(scored[k].x, scored[k].y + 1)], 1)
  {
    if scored != [] {
      var init := scored[..|scored| - 1];
      AboveBreachesExactly(init);
      forall k | 0 <= k < |scored| - 1
        ensures AboveBreaches(scored)[k] == SpawnRequest(Destructor, [Coord(scored[k].x, scored[k].y + 1)], 1)
      {
        assert scored[k] == init[k];
      }
    }
  }

  // ---------------------------------------------------------------------------
  // Least-damage spawn location without the path guard

  /**
   * The `damages` list of the unguarded loop, or the error raised when some
   * option's path is `None` and cannot be iterated.
   */
  function Damages(s: Snapshot, options: seq<Coord>): (r: Result<seq<nat>>)
    ensures r.Ok? ==> |r.value| == |options|
  {
    if options == [] then Ok([])
    else
      var init := Damages(s, options[..|options| - 1]);
      var path := s.findPathToEdge(Last(options));
      if init.Err? then init
      else if path.None? then Err(NotIterable)
      else Ok(init.value + [PathDamage(s, path.value)])
  }

  /** Every option has a path to iterate, possibly an empty one. */
  predicate AllFound(s: Snapshot, options: seq<Coord>) {
    forall c :: c in options ==> s.findPathToEdge(c).Some?
  }

  /** The damage of a cell whose path was found: zero for an empty path. */
  function Damage(s: Snapshot, c: Coord): nat
    requires s.findPathToEdge(c).Some?
  {
    PathDamage(s, s.findPathToEdge(c).value)
  }

  /** What dumbo's `least_damage_spawn_location` returns, or what it raises. */
  function UnguardedChoice(s: Snapshot, options: seq<Coord>): Result<Coord> {
    var d := Damages(s, options);
    if d.Err? then Err(d.fault)
    else if d.value == [] then Err(EmptySequence)
    else Ok(options[IndexOf(d.value, Min(d.value))])
  }

  /**
   * The damages list fails exactly when some option has no path; otherwise it
   * holds, position by position, the damage of each option.
   */
  lemma {:induction false} DamagesExactly(s: Snapshot, options: seq<Coord>)
    ensures Damages(s, options).Err? <==> !AllFound(s, options)
    ensures Damages(s, options).Err? ==> Damages(s, options).fault == NotIterable
    ensures Damages(s, options).Ok? ==>
      forall k :: 0 <= k < |options| ==> Damages(s, options).value[k] == Damage(s, options[k])
  {
    if options != [] {
      var init := options[..|options| - 1];
      DamagesExactly(s, init);
      assert options == init + [Last(options)];
      if Damages(s, options).Ok? {
        var d := Damages(s, options).value;
        forall k | 0 <= k < |options| ensures d[k] == Damage(s, options[k]) {
          if k < |init| {
            assert options[k] == init[k];
          }
        }
      }
    }
  }

  /**
   * Without the guard: a missing path makes the call raise; an empty options
   * list makes `min` raise; otherwise the result is an option of least
   * damage, at or before every other option of that damage.
   */
  lemma UnguardedChoiceIsFirstLeast(s: Snapshot, options: seq<Coord>)
    ensures !AllFound(s, options) ==> UnguardedChoice(s, options) == Err(NotIterable)
    ensures AllFound(s, options) && options == [] ==> UnguardedChoice(s, options) == Err(EmptySequence)
    ensures AllFound(s, options) && options != [] ==>
      && UnguardedChoice(s, options).Ok?
      && var c := UnguardedChoice(s, options).value;
      && c in options
      && (forall k :: 0 <= k < |options| ==> Damage(s, c) <= Damage(s, options[k]))
      && (forall k :: 0 <= k < |options| && Damage(s, options[k]) == Damage(s, c) ==> c in options[..k + 1])
  {
    DamagesExactly(s, options);
    if AllFound(s, options) && options != [] {
      var d := Damages(s, options).value;
      var i := IndexOf(d, Min(d));
      assert UnguardedChoice(s, options) == Ok(options[i]);
      FirstLeastDamage(s, options, d, i);
    }
  }

  lemma FirstLeastDamage(s: Snapshot, options: seq<Coord>, d: seq<nat>, i: nat)
    requires AllFound(s, options)
    requires |d| == |options| && forall k :: 0 <= k < |options| ==> d[k] == Damage(s, options[k])
    requires |d| > 0 && i == IndexOf(d, Min(d))
    ensures i < |options|
    ensures forall k :: 0 <= k < |options| ==> Damage(s, options[i]) <= Damage(s, options[k])
    ensures forall k :: 0 <= k < |options| && Damage(s, options[k]) == Damage(s, options[i]) ==> options[i] in options[..k + 1]
  {
    FirstLeast(d);
    forall k | 0 <= k < |options| ensures Damage(s, options[i]) <= Damage(s, options[k]) {
      assert d[i] <= d[k];
    }
    forall k | 0 <= k < |options| && Damage(s, options[k]) == Damage(s, options[i])
      ensures options[i] in options[..k + 1]
    {
      assert d[k] == d[i];
      assert i <= k;
      assert options[..k + 1][i] == options[i];
    }
  }

  /**
   * When every option has a non-empty path the unguarded copy and the
   * reference selection agree.
   */
  lemma UnguardedAgreesWithSelectBest(s: Snapshot, options: seq<Coord>)
    requires forall c :: c in options ==> HasPath(s, c)
    ensures UnguardedChoice(s, options) == SelectBest(s, options)
  {
    DamagesExactly(s, options);
    ViableWhenAllHavePaths(s, options);
    if options != [] {
      var d := Damages(s, options).value;
      assert d == Risks(s, options);
    }
  }

  /**
   * `least_damage_spawn_location` as it stands in the dumbo strategy: every
   * option's path is walked, even an empty one.
   */
  method LeastDamageSpawnLocation(gs: GameState, locationOptions: seq<Coord>) returns (r: Result<Coord>)
    ensures r == UnguardedChoice(gs.snap, locationOptions)
  {
    var s := gs.snap;
    var damages: seq<nat> := [];
    for k := 0 to |locationOptions|
      invariant Damages(s, locationOptions[..k]) == Ok(damages)
    {
      var location := locationOptions[k];
      assert locationOptions[..k + 1][..k] == locationOptions[..k];
      var path := s.findPathToEdge(location);
      if path.None? {
        DamagesErrStays(s, locationOptions, k + 1);
        return Err(NotIterable);
      }
      var damage: nat := 0;
      for m := 0 to |path.value|
        invariant damage == PathDamage(s, path.value[..m])
      {
        assert path.value[..m + 1][..m] == path.value[..m];
        damage := damage + s.attackers(path.value[m]) * s.destructorDamage;
      }
      assert path.value[..|path.value|] == path.value;
      damages := damages + [damage];
    }
    assert locationOptions[..|locationOptions|] == locationOptions;
    if damages == [] {
      return Err(EmptySequence);
    }
    r := Ok(locationOptions[IndexOf(damages, Min(damages))]);
  }

  /** Once a prefix of the options raises, so do all the options. */
  lemma {:induction false} DamagesErrStays(s: Snapshot, options: seq<Coord>, n: nat)
    requires n <= |options| && Damages(s, options[..n]) == Err(NotIterable)
    ensures Damages(s, options) == Err(NotIterable)
    decreases |options| - n
  {
    if n < |options| {
      assert options[..n + 1][..n] == options[..n];
      DamagesErrStays(s, options, n + 1);
    } else {
      assert options[..n] == options;
    }
  }

  // ---------------------------------------------------------------------------
  // The agent

  class AlgoStrategy {
    var scoredOnLocations: seq<Coord>
    var send: bool
    var sendScrambler: bool
    var enemyHealthOvertime: seq<int>

    /** `__init__` followed by `on_game_start`. */
    constructor ()
      ensures scoredOnLocations == [] && enemyHealthOvertime == []
      ensures !send && !sendScrambler
    {
      scoredOnLocations := [];
      send := false;
      sendScrambler := false;
      enemyHealthOvertime := [];
    }

    /**
     * `starter_strategy`: record the opponent's health, then the fixed
     * defences, then the fixed attack.
     */
    method StarterStrategy(gs: GameState)
      modifies this`enemyHealthOvertime, gs`log
      ensures enemyHealthOvertime == old(enemyHealthOvertime) + [gs.snap.enemyHealth]
      ensures gs.log == old(gs.log) + DefenceCommands + AttackCommands
    {
      enemyHealthOvertime := enemyHealthOvertime + [gs.snap.enemyHealth];
      BuildDefences(gs);
      Attack(gs);
    }

    /** `attack`: a scrambler squad from [0, 13] and an EMP wave from [9, 4]. */
    method Attack(gs: GameState)
      modifies gs`log
      ensures gs.log == old(gs.log) + AttackCommands
    {
      var n: nat;
      n := gs.AttemptSpawn(Scrambler, [Coord(0, 13)], 5);
      n := gs.AttemptSpawn(Emp, [Coord(9, 4)], 100);
    }

    /** `build_defences`: both destructor rows, the encryptors, then the destructor upgrade. */
    method BuildDefences(gs: GameState)
      modifies gs`log
      ensures gs.log == old(gs.log) + DefenceCommands
    {
      var n: nat;
      n := gs.AttemptSpawn(Destructor, PinkDestructors, 1);
      n := gs.AttemptSpawn(Destructor, TealDestructors, 1);
      n := gs.AttemptSpawn(Encryptor, BlueEncryptors, 1);
      n := gs.AttemptUpgrade(TealDestructors + PinkDestructors);
    }

    /** `build_reactive_defense`: a destructor one cell above every recorded breach. */
    method BuildReactiveDefense(gs: GameState)
      modifies gs`log
      ensures gs.log == old(gs.log) + AboveBreaches(scoredOnLocations)
    {
      var scored := scoredOnLocations;
      for k := 0 to |scored|
        invariant gs.log == old(gs.log) + AboveBreaches(scored[..k])
      {
        var location := scored[k];
        assert scored[..k + 1][..k] == scored[..k];
        var buildLocation := Coord(location.x, location.y + 1);
        var n := gs.AttemptSpawn(Destructor, [buildLocation], 1);
      }
      assert scored[..|scored|] == scored;
    }

    /** `on_action_frame`, after decoding: remember where the opponent broke through. */
    method OnActionFrame(breaches: seq<BreachEvent>)
      modifies this`scoredOnLocations
      ensures scoredOnLocations == old(scoredOnLocations) + OpponentBreaches(breaches)
    {
      for k := 0 to |breaches|
        invariant scoredOnLocations == old(scoredOnLocations) + OpponentBreaches(breaches[..k])
      {
        var breach := breaches[k];
        assert breaches[..k + 1][..k] == breaches[..k];
        var location := breach.location;
        var unitOwnerSelf := breach.owner == 1;
        if !unitOwnerSelf {
          scoredOnLocations := scoredOnLocations + [location];
        }
      }
      assert breaches[..|breaches|] == breaches;
    }
  }
}
