/** Days, nights and half-open stays `[start, end)`: the unit in which occupancy is stated. */
module Nights {

  type Day = int

  /** The guest sleeps over on night `n`. */
  predicate Covers(start: Day, end: Day, n: Day)
  {
    start <= n < end
  }

  /** The overlap test written, with the same two comparisons, in the conflict query,
      the unavailability check and the overbooking check. */
  predicate Overlap(s1: Day, e1: Day, s2: Day, e2: Day)
  {
    s1 < e2 && e1 > s2
  }

  ghost predicate ShareNight(s1: Day, e1: Day, s2: Day, e2: Day)
  {
    exists n :: Covers(s1, e1, n) && Covers(s2, e2, n)
  }

  /** For stays of at least one night the comparison test means "some night is in both". */
  lemma OverlapIsSharedNight(s1: Day, e1: Day, s2: Day, e2: Day)
    requires s1 < e1 && s2 < e2
    ensures Overlap(s1, e1, s2, e2) <==> ShareNight(s1, e1, s2, e2)
  {
    if Overlap(s1, e1, s2, e2) {
      var n := if s1 < s2 then s2 else s1;
      assert Covers(s1, e1, n) && Covers(s2, e2, n);
    }
  }
}
