/**
 * Path risk: how much damage a mobile unit would take walking from a spawn
 * cell to the far edge, and the choice of the least risky spawn cell.
 *
 * `LeastDamageSpawnLocation` is the guarded copy of
 * `least_damage_spawn_location` shared by two strategies: it records a
 * damage only for options whose path is non-empty, yet indexes the options
 * list with a position in the shorter damages list. `SelectBest` is the
 * reference definition that keeps options and damages aligned.
 */
module PathRisk {
  import opened Game

  /** Damage along `path`: every cell adds (destructors in range) x (damage per hit). */
  function PathDamage(s: Snapshot, path: seq<Coord>): nat {
    if path == [] then 0
    else PathDamage(s, path[..|path| - 1]) + s.attackers(Last(path)) * s.destructorDamage
  }

  /** Python truthiness of `path`: a path was found and it is not empty. */
  predicate HasPath(s: Snapshot, c: Coord) {
    s.findPathToEdge(c).Some? && s.findPathToEdge(c).value != []
  }

  function Risk(s: Snapshot, c: Coord): nat
    requires HasPath(s, c)
  {
    PathDamage(s, s.findPathToEdge(c).value)
  }

  /** Python `min` on a non-empty list. */
  function Min(xs: seq<nat>): (m: nat)
    requires |xs| > 0
    ensures m in xs
    ensures forall k :: 0 <= k < |xs| ==> m <= xs[k]
  {
    if |xs| == 1 then xs[0]
    else
      var rest := Min(xs[1..]);
      if xs[0] <= rest then xs[0] else rest
  }

  /** Python `list.index`: the position of the first occurrence of `v`. */
  function IndexOf(xs: seq<nat>, v: nat): (i: nat)
    requires v in xs
    ensures i < |xs| && xs[i] == v
    ensures forall k :: 0 <= k < i ==> xs[k] != v
  {
    if xs[0] == v then 0 else 1 + IndexOf(xs[1..], v)
  }

  /** `damages.index(min(damages))`: the first position holding the least value. */
  lemma FirstLeast(xs: seq<nat>)
    requires |xs| > 0
    ensures var i := IndexOf(xs, Min(xs));
      && i < |xs|
      && (forall k :: 0 <= k < |xs| ==> xs[i] <= xs[k])
      && (forall k :: 0 <= k < i ==> xs[k] > xs[i])
  {
  }

  /** The `damages` list of the guarded loop: one entry per option whose path is non-empty. */
  function GuardedDamages(s: Snapshot, options: seq<Coord>): (d: seq<nat>)
    ensures |d| <= |options|
  {
    if options == [] then []
    else GuardedDamages(s, options[..|options| - 1])
         + (if HasPath(s, Last(options)) then [Risk(s, Last(options))] else [])
  }

  /** What the guarded `least_damage_spawn_location` returns, or the error `min` raises. */
  function GuardedChoice(s: Snapshot, options: seq<Coord>): Result<Coord> {
    var d := GuardedDamages(s, options);
    if d == [] then Err(EmptySequence) else Ok(options[IndexOf(d, Min(d))])
  }

  /**
   * `least_damage_spawn_location` as it stands in the STAMPEDE and
   * scramblerDef strategies.
   */
  method LeastDamageSpawnLocation(gs: GameState, locationOptions: seq<Coord>) returns (r: Result<Coord>)
    ensures r == GuardedChoice(gs.snap, locationOptions)
  {
    var s := gs.snap;
    var damages: seq<nat> := [];
    for k := 0 to |locationOptions|
      invariant damages == GuardedDamages(s, locationOptions[..k])
    {
      var location := locationOptions[k];
      assert locationOptions[..k + 1][..k] == locationOptions[..k];
      var path := s.findPathToEdge(location);
      var damage: nat := 0;
      if path.Some? && path.value != [] {
        for m := 0 to |path.value|
          invariant damage == PathDamage(s, path.value[..m])
        {
          assert path.value[..m + 1][..m] == path.value[..m];
          damage := damage + s.attackers(path.value[m]) * s.destructorDamage;
        }
        assert path.value[..|path.value|] == path.value;
        damages := damages + [damage];
      }
    }
    assert locationOptions[..|locationOptions|] == locationOptions;
    if damages == [] {
      return Err(EmptySequence);
    }
    r := Ok(locationOptions[IndexOf(damages, Min(damages))]);
  }

  /** The options that have a path, in order. */
  function Viable(s: Snapshot, options: seq<Coord>): (v: seq<Coord>)
    ensures |v| <= |options|
    ensures forall c :: c in v <==> c in options && HasPath(s, c)
  {
    if options == [] then []
    else
      var init := options[..|options| - 1];
      assert options == init + [Last(options)];
      Viable(s, init) + (if HasPath(s, Last(options)) then [Last(options)] else [])
  }

  /** The risks of cells that all have paths, position by position. */
  function Risks(s: Snapshot, cells: seq<Coord>): (d: seq<nat>)
    requires forall c :: c in cells ==> HasPath(s, c)
    ensures |d| == |cells|
    ensures forall k :: 0 <= k < |cells| ==> d[k] == Risk(s, cells[k])
  {
    if cells == [] then []
    else
      var init := cells[..|cells| - 1];
      assert forall c :: c in init ==> c in cells;
      Risks(s, init) + [Risk(s, Last(cells))]
  }

  /**
   * Reference selection: among the options that have a path, the first one
   * with the least risk; an error when no option has a path.
   */
  function SelectBest(s: Snapshot, options: seq<Coord>): Result<Coord> {
    var v := Viable(s, options);
    if v == [] then Err(EmptySequence)
    else
      var d := Risks(s, v);
      Ok(v[IndexOf(d, Min(d))])
  }

  /** The guarded damages list is the list of risks of the viable options. */
  lemma {:induction false} GuardedDamagesAreViableRisks(s: Snapshot, options: seq<Coord>)
    ensures GuardedDamages(s, options) == Risks(s, Viable(s, options))
  {
    if options != [] {
      var init := options[..|options| - 1];
      GuardedDamagesAreViableRisks(s, init);
    }
  }

  /** When every option has a path, nothing is dropped. */
  lemma {:induction false} ViableWhenAllHavePaths(s: Snapshot, options: seq<Coord>)
    requires forall c :: c in options ==> HasPath(s, c)
    ensures Viable(s, options) == options
  {
    if options != [] {
      var init, last := options[..|options| - 1], Last(options);
      assert options == init + [last];
      forall c | c in init ensures HasPath(s, c) {
        assert c in options;
      }
      ViableWhenAllHavePaths(s, init);
      assert last in options;
    }
  }

  /**
   * The reference selection fails exactly when no option has a path; otherwise
   * it returns an option that has a path and whose risk is no greater than
   * that of any other option with a path.
   */
  lemma SelectBestIsLeastRisk(s: Snapshot, options: seq<Coord>)
    ensures SelectBest(s, options).Err? <==> forall c :: c in options ==> !HasPath(s, c)
    ensures SelectBest(s, options).Ok? ==>
      var c := SelectBest(s, options).value;
      && c in options && HasPath(s, c)
      && forall o :: o in options && HasPath(s, o) ==> Risk(s, c) <= Risk(s, o)
  {
    var v := Viable(s, options);
    if v == [] {
      forall c | c in options ensures !HasPath(s, c) {
        assert c !in v;
      }
    } else {
      var d := Risks(s, v);
      var i := IndexOf(d, Min(d));
      forall o | o in options && HasPath(s, o) ensures Risk(s, v[i]) <= Risk(s, o) {
        assert o in v;
        var k :| 0 <= k < |v| && v[k] == o;
        assert d[k] == Risk(s, o);
      }
    }
  }

  /**
   * The guarded copy fails exactly when no option has a path. When it
   * succeeds it indexes `options` at the very position where the reference
   * selection indexes the viable options: the two agree only while no option
   * before the chosen one was dropped.
   */
  lemma GuardedChoiceIndexesWrongList(s: Snapshot, options: seq<Coord>)
    ensures GuardedChoice(s, options).Err? <==> SelectBest(s, options).Err?
    ensures GuardedChoice(s, options).Ok? ==>
      exists i :: 0 <= i < |Viable(s, options)| && i < |options|
        && GuardedChoice(s, options).value == options[i]
        && SelectBest(s, options).value == Viable(s, options)[i]
  {
    GuardedDamagesAreViableRisks(s, options);
    var v := Viable(s, options);
    if v != [] {
      var d := Risks(s, v);
      var i := IndexOf(d, Min(d));
      assert GuardedChoice(s, options).value == options[i];
    }
  }

  /**
   * When every option has a non-empty path the damages list is aligned with
   * the options, and the guarded copy returns what the reference selection
   * returns: an option of least damage, at or before every other option of
   * that damage.
   */
  lemma GuardedChoiceWhenAllHavePaths(s: Snapshot, options: seq<Coord>)
    requires options != []
    requires forall c :: c in options ==> HasPath(s, c)
    ensures GuardedDamages(s, options) == Risks(s, options)
    ensures GuardedChoice(s, options) == SelectBest(s, options)
    ensures GuardedChoice(s, options).Ok?
    ensures var c := GuardedChoice(s, options).value;
      && c in options
      && (forall k :: 0 <= k < |options| ==> Risk(s, c) <= Risk(s, options[k]))
      && (forall k :: 0 <= k < |options| && Risk(s, options[k]) == Risk(s, c) ==> c in options[..k + 1])
  {
    GuardedDamagesAreViableRisks(s, options);
    ViableWhenAllHavePaths(s, options);
    var d := Risks(s, options);
    var i := IndexOf(d, Min(d));
    assert GuardedChoice(s, options) == Ok(options[i]);
    FirstLeastRisk(s, options, d, i);
  }

  lemma FirstLeastRisk(s: Snapshot, options: seq<Coord>, d: seq<nat>, i: nat)
    requires forall c :: c in options ==> HasPath(s, c)
    requires |d| == |options| && forall k :: 0 <= k < |options| ==> d[k] == Risk(s, options[k])
    requires |d| > 0 && i == IndexOf(d, Min(d))
    ensures i < |options|
    ensures forall k :: 0 <= k < |options| ==> Risk(s, options[i]) <= Risk(s, options[k])
    ensures forall k :: 0 <= k < |options| && Risk(s, options[k]) == Risk(s, options[i]) ==> options[i] in options[..k + 1]
  {
    FirstLeast(d);
    forall k | 0 <= k < |options| ensures Risk(s, options[i]) <= Risk(s, options[k]) {
      assert d[i] <= d[k];
    }
    forall k | 0 <= k < i ensures Risk(s, options[k]) > Risk(s, options[i]) {
      assert d[k] > d[i];
    }
    forall k | 0 <= k < |options| && Risk(s, options[k]) == Risk(s, options[i])
      ensures options[i] in options[..k + 1]
    {
      assert i <= k;
      assert options[..k + 1][i] == options[i];
    }
  }

  /**
   * A board on which the left-hand spawn cell [13, 0] holds one of the
   * agent's filters, so no path starts there, and [14, 0] has a one-cell
   * path under one destructor hitting for 2.
   */
  function BlockedLeftCell(): Snapshot {
    Snapshot(3, 30, 5.0, map[Coord(13, 0) := [Unit(0, Filter)]], [Coord(13, 0), Coord(14, 0)],
             [Coord(13, 0), Coord(14, 0)],
             c => if c == Coord(13, 0) then None else Some([c]), c => 1, 2)
  }

  /**
   * On that board the guarded copy picks the wrong cell: `damages` holds one
   * entry, its index 0 is looked up in the options, and the blocked cell is
   * returned where the reference selection returns the open one.
   */
  lemma GuardedChoiceReturnsBlockedCell()
    ensures var s, blocked, open := BlockedLeftCell(), Coord(13, 0), Coord(14, 0);
      && ContainsStationaryUnit(s.board, blocked) && !ContainsStationaryUnit(s.board, open)
      && !HasPath(s, blocked) && HasPath(s, open)
      && GuardedChoice(s, [blocked, open]) == Ok(blocked)
      && SelectBest(s, [blocked, open]) == Ok(open)
  {
    var s, blocked, open := BlockedLeftCell(), Coord(13, 0), Coord(14, 0);
    var options := [blocked, open];
    assert Unit(0, Filter) in UnitsAt(s.board, blocked);
    assert s.findPathToEdge(blocked) == None;
    assert s.findPathToEdge(open) == Some([open]);
    assert [open][..0] == [] && [blocked][..0] == [];
    assert PathDamage(s, [open]) == 2;
    assert options[..1] == [blocked];
    assert GuardedDamages(s, [blocked]) == [];
    assert GuardedDamages(s, options) == [2];
    assert Viable(s, [blocked]) == [];
    assert Viable(s, options) == [open];
    assert Risks(s, [open]) == [2];
  }
}
