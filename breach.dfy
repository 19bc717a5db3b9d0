/**
 * Breach events reported by the engine during a turn. `on_action_frame`
 * (identical in the three strategies) keeps the location of every breach not
 * made by the agent's own units.
 */
module Breach {
  import opened Game

  /**
   * A breach record after decoding the frame: `breach[0]` is the location and
   * `breach[4]` the owner, where 1 means the agent itself.
   */
  datatype BreachEvent = BreachEvent(location: Coord, owner: int)

  predicate ByOpponent(b: BreachEvent) {
    b.owner != 1
  }

  /** Locations of the breaches not made by the agent's own units, in frame order. */
  function OpponentBreaches(breaches: seq<BreachEvent>): seq<Coord> {
    if breaches == [] then []
    else OpponentBreaches(breaches[..|breaches| - 1])
         + (if ByOpponent(Last(breaches)) then [Last(breaches).location] else [])
  }

  /** Frames processed one after the other record the same as one frame holding both. */
  lemma {:induction false} OpponentBreachesConcat(a: seq<BreachEvent>, b: seq<BreachEvent>)
    ensures OpponentBreaches(a + b) == OpponentBreaches(a) + OpponentBreaches(b)
  {
    if b != [] {
      var init := b[..|b| - 1];
      OpponentBreachesConcat(a, init);
      assert (a + b)[..|a + b| - 1] == a + init;
    } else {
      assert a + b == a;
    }
  }

  /**
   * Exactly the opponent's breaches are recorded: the k-th recorded location
   * is that of an opponent breach, every opponent breach is recorded, and the
   * agent's own breaches add nothing.
   */
  lemma {:induction false} OpponentBreachesExactly(breaches: seq<BreachEvent>)
    ensures |OpponentBreaches(breaches)| <= |breaches|
    ensures forall c :: c in OpponentBreaches(breaches) <==>
      exists b :: b in breaches && ByOpponent(b) && b.location == c
    ensures (forall b :: b in breaches ==> !ByOpponent(b)) ==> OpponentBreaches(breaches) == []
  {
    if breaches != [] {
      var init := breaches[..|breaches| - 1];
      OpponentBreachesExactly(init);
      assert breaches == init + [Last(breaches)];
      forall c | c in OpponentBreaches(breaches)
        ensures exists b :: b in breaches && ByOpponent(b) && b.location == c
      {
        if c in OpponentBreaches(init) {
          var b :| b in init && ByOpponent(b) && b.location == c;
          assert b in breaches;
        }
      }
    }
  }
}
