/**
 * Board queries shared by the three strategies: counting units through
 * optional filters (`detect_unit`, `detect_enemy_unit`) and dropping blocked
 * cells from a list (`filter_blocked_locations`).
 */
module Board {
  import opened Game

  /** The filters of one count; a filter left as `None` accepts everything. */
  datatype Query = Query(
    player: int,
    unitType: Option<UnitType>,
    validX: Option<seq<int>>,
    validY: Option<seq<int>>)

  predicate Accepts(filter: Option<seq<int>>, v: int) {
    filter.None? || v in filter.value
  }

  predicate OfType(filter: Option<UnitType>, t: UnitType) {
    filter.None? || t == filter.value
  }

  /** Whether unit `u`, standing on `c`, is one the query counts. */
  predicate Matches(u: Unit, c: Coord, q: Query) {
    u.playerIndex == q.player && OfType(q.unitType, u.unitType)
    && Accepts(q.validX, c.x) && Accepts(q.validY, c.y)
  }

  /** Number of units in `units` (all standing on `c`) that the query counts. */
  function MatchingUnits(units: seq<Unit>, c: Coord, q: Query): nat {
    if units == [] then 0
    else MatchingUnits(units[..|units| - 1], c, q) + (if Matches(Last(units), c, q) then 1 else 0)
  }

  /** Units counted on one cell: only cells holding a stationary unit are looked at. */
  function CountedAt(board: Board, c: Coord, q: Query): nat {
    if ContainsStationaryUnit(board, c) then MatchingUnits(UnitsAt(board, c), c, q) else 0
  }

  /** Units counted over the cells `cells`, visited in order. */
  function CountUnits(board: Board, cells: seq<Coord>, q: Query): nat {
    if cells == [] then 0
    else CountUnits(board, cells[..|cells| - 1], q) + CountedAt(board, Last(cells), q)
  }

  /**
   * `detect_unit`: visit every cell of the map and, on cells holding a
   * stationary unit, count the units that pass every filter.
   */
  method DetectUnit(gs: GameState, playerIndex: int, unitType: Option<UnitType>,
                    validX: Option<seq<int>>, validY: Option<seq<int>>)
    returns (totalUnits: nat)
    ensures totalUnits == CountUnits(gs.snap.board, gs.snap.arena, Query(playerIndex, unitType, validX, validY))
  {
    var q := Query(playerIndex, unitType, validX, validY);
    var board, cells := gs.snap.board, gs.snap.arena;
    totalUnits := 0;
    for k := 0 to |cells|
      invariant totalUnits == CountUnits(board, cells[..k], q)
    {
      var location := cells[k];
      assert cells[..k + 1][..k] == cells[..k];
      if ContainsStationaryUnit(board, location) {
        var units := UnitsAt(board, location);
        ghost var before := totalUnits;
        for m := 0 to |units|
          invariant totalUnits == before + MatchingUnits(units[..m], location, q)
        {
          var unit := units[m];
          assert units[..m + 1][..m] == units[..m];
          if unit.playerIndex == playerIndex && (unitType.None? || unit.unitType == unitType.value)
             && (validX.None? || location.x in validX.value) && (validY.None? || location.y in validY.value)
          {
            totalUnits := totalUnits + 1;
          }
        }
        assert units[..|units|] == units;
      }
    }
    assert cells[..|cells|] == cells;
  }

  /** `detect_enemy_unit`: the same count, always for the opponent (player 1). */
  method DetectEnemyUnit(gs: GameState, unitType: Option<UnitType>,
                         validX: Option<seq<int>>, validY: Option<seq<int>>)
    returns (totalUnits: nat)
    ensures totalUnits == CountUnits(gs.snap.board, gs.snap.arena, Query(1, unitType, validX, validY))
  {
    totalUnits := DetectUnit(gs, 1, unitType, validX, validY);
  }

  lemma {:induction false} MatchingUnitsFiltersOnlyLower(units: seq<Unit>, c: Coord, q: Query)
    ensures MatchingUnits(units, c, q) <= MatchingUnits(units, c, q.(unitType := None))
    ensures MatchingUnits(units, c, q) <= MatchingUnits(units, c, q.(validX := None))
    ensures MatchingUnits(units, c, q) <= MatchingUnits(units, c, q.(validY := None))
  {
    if units != [] {
      MatchingUnitsFiltersOnlyLower(units[..|units| - 1], c, q);
    }
  }

  /** Supplying a filter (type, x or y) can only lower the count. */
  lemma {:induction false} CountFiltersOnlyLower(board: Board, cells: seq<Coord>, q: Query)
    ensures CountUnits(board, cells, q) <= CountUnits(board, cells, q.(unitType := None))
    ensures CountUnits(board, cells, q) <= CountUnits(board, cells, q.(validX := None))
    ensures CountUnits(board, cells, q) <= CountUnits(board, cells, q.(validY := None))
  {
    if cells != [] {
      CountFiltersOnlyLower(board, cells[..|cells| - 1], q);
      MatchingUnitsFiltersOnlyLower(UnitsAt(board, Last(cells)), Last(cells), q);
    }
  }

  /** A coordinate filter that admits every visited cell counts as if it were left as `None`. */
  lemma {:induction false} CoveringFiltersAreNone(board: Board, cells: seq<Coord>, q: Query)
    requires forall c :: c in cells ==> Accepts(q.validX, c.x) && Accepts(q.validY, c.y)
    ensures CountUnits(board, cells, q) == CountUnits(board, cells, q.(validX := None, validY := None))
  {
    if cells != [] {
      CoveringFiltersAreNone(board, cells[..|cells| - 1], q);
      MatchingUnitsIgnoreAcceptedCoords(UnitsAt(board, Last(cells)), Last(cells), q);
    }
  }

  lemma {:induction false} MatchingUnitsIgnoreAcceptedCoords(units: seq<Unit>, c: Coord, q: Query)
    requires Accepts(q.validX, c.x) && Accepts(q.validY, c.y)
    ensures MatchingUnits(units, c, q) == MatchingUnits(units, c, q.(validX := None, validY := None))
  {
    if units != [] {
      MatchingUnitsIgnoreAcceptedCoords(units[..|units| - 1], c, q);
    }
  }

  /** Sum of the counts restricted to each of the six unit types. */
  function PerTypeTotal(board: Board, cells: seq<Coord>, q: Query): nat {
    CountUnits(board, cells, q.(unitType := Some(Filter)))
    + CountUnits(board, cells, q.(unitType := Some(Encryptor)))
    + CountUnits(board, cells, q.(unitType := Some(Destructor)))
    + CountUnits(board, cells, q.(unitType := Some(Ping)))
    + CountUnits(board, cells, q.(unitType := Some(Emp)))
    + CountUnits(board, cells, q.(unitType := Some(Scrambler)))
  }

  lemma {:induction false} MatchingUnitsSplitByType(units: seq<Unit>, c: Coord, q: Query)
    requires q.unitType.None?
    ensures MatchingUnits(units, c, q)
         == MatchingUnits(units, c, q.(unitType := Some(Filter)))
          + MatchingUnits(units, c, q.(unitType := Some(Encryptor)))
          + MatchingUnits(units, c, q.(unitType := Some(Destructor)))
          + MatchingUnits(units, c, q.(unitType := Some(Ping)))
          + MatchingUnits(units, c, q.(unitType := Some(Emp)))
          + MatchingUnits(units, c, q.(unitType := Some(Scrambler)))
  {
    if units != [] {
      MatchingUnitsSplitByType(units[..|units| - 1], c, q);
    }
  }

  /** With no type filter every unit is counted exactly once, under its own type. */
  lemma {:induction false} CountSplitsByType(board: Board, cells: seq<Coord>, q: Query)
    requires q.unitType.None?
    ensures CountUnits(board, cells, q) == PerTypeTotal(board, cells, q)
  {
    if cells != [] {
      CountSplitsByType(board, cells[..|cells| - 1], q);
      MatchingUnitsSplitByType(UnitsAt(board, Last(cells)), Last(cells), q);
    }
  }

  lemma {:induction false} MatchingUnitsOfOthers(units: seq<Unit>, c: Coord, q: Query)
    requires forall u :: u in units ==> u.playerIndex != q.player
    ensures MatchingUnits(units, c, q) == 0
  {
    if units != [] {
      MatchingUnitsOfOthers(units[..|units| - 1], c, q);
    }
  }

  /**
   * Only the queried player's units on cells holding a stationary unit count:
   * if no visited cell has both, the count is zero.
   */
  lemma {:induction false} CountZeroWithoutOwnedStationaryCells(board: Board, cells: seq<Coord>, q: Query)
    requires forall c :: c in cells ==>
      !ContainsStationaryUnit(board, c) || forall u :: u in UnitsAt(board, c) ==> u.playerIndex != q.player
    ensures CountUnits(board, cells, q) == 0
  {
    if cells != [] {
      CountZeroWithoutOwnedStationaryCells(board, cells[..|cells| - 1], q);
      if ContainsStationaryUnit(board, Last(cells)) {
        MatchingUnitsOfOthers(UnitsAt(board, Last(cells)), Last(cells), q);
      }
    }
  }

  /** The cells of `locations`, in order, that hold no stationary unit. */
  function Unblocked(board: Board, locations: seq<Coord>): seq<Coord> {
    if locations == [] then []
    else Unblocked(board, locations[..|locations| - 1])
         + (if ContainsStationaryUnit(board, Last(locations)) then [] else [Last(locations)])
  }

  /** `filter_blocked_locations` */
  method FilterBlockedLocations(locations: seq<Coord>, gs: GameState) returns (filtered: seq<Coord>)
    ensures filtered == Unblocked(gs.snap.board, locations)
  {
    filtered := [];
    for k := 0 to |locations|
      invariant filtered == Unblocked(gs.snap.board, locations[..k])
    {
      assert locations[..k + 1][..k] == locations[..k];
      if !ContainsStationaryUnit(gs.snap.board, locations[k]) {
        filtered := filtered + [locations[k]];
      }
    }
    assert locations[..|locations|] == locations;
  }

  /** A cell survives the filter exactly when it was offered and holds no stationary unit. */
  lemma {:induction false} UnblockedMembers(board: Board, locations: seq<Coord>)
    ensures |Unblocked(board, locations)| <= |locations|
    ensures forall c :: c in Unblocked(board, locations) <==> c in locations && !ContainsStationaryUnit(board, c)
  {
    if locations != [] {
      var init := locations[..|locations| - 1];
      UnblockedMembers(board, init);
      assert locations == init + [Last(locations)];
    }
  }

  /** Filtering keeps input order: filtering a concatenation concatenates the filtered parts. */
  lemma {:induction false} UnblockedConcat(board: Board, a: seq<Coord>, b: seq<Coord>)
    ensures Unblocked(board, a + b) == Unblocked(board, a) + Unblocked(board, b)
  {
    if b != [] {
      var init := b[..|b| - 1];
      UnblockedConcat(board, a, init);
      assert (a + b)[..|a + b| - 1] == a + init;
    } else {
      assert a + b == a;
    }
  }

  /** A list with no blocked cell comes back unchanged. */
  lemma {:induction false} UnblockedKeepsFreeCells(board: Board, locations: seq<Coord>)
    requires forall c :: c in locations ==> !ContainsStationaryUnit(board, c)
    ensures Unblocked(board, locations) == locations
  {
    if locations != [] {
      var init, last := locations[..|locations| - 1], Last(locations);
      assert locations == init + [last];
      forall c | c in init ensures !ContainsStationaryUnit(board, c) {
        assert c in locations;
      }
      UnblockedKeepsFreeCells(board, init);
      assert last in locations;
    }
  }
}
