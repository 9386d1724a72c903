/**
 * Wall-clock time to instant. A zone is an offset function: at instant u a clock in the zone shows u + offset(u).
 * Times are milliseconds; a wall time is the instant at which a UTC clock would show it.
 */
module TimeZone {
  const ROUNDS: nat := 4

  function Displayed(offset: int -> int, instant: int): int {
    instant + offset(instant)
  }

  function Corrected(offset: int -> int, wall: int, guess: int, rounds: nat): int
    decreases rounds
  {
    if rounds == 0 then guess
    else Corrected(offset, wall, guess + (wall - Displayed(offset, guess)), rounds - 1)
  }

  /** The instant the solver settles on for a wall time. */
  function Solved(offset: int -> int, wall: int): int {
    Corrected(offset, wall, wall, ROUNDS)
  }

  /** Wall times skipped by a forward jump are shown at no instant. */
  ghost predicate Shown(offset: int -> int, wall: int) {
    exists u :: Displayed(offset, u) == wall
  }

  ghost predicate StepNear(offset: int -> int, at: int, reach: nat, t: int, a: int, b: int) {
    && 0 - reach <= a <= reach && 0 - reach <= b <= reach
    && forall u :: at - 3 * reach <= u <= at + 3 * reach ==> offset(u) == if u < t then a else b
  }

  /** A real zone: offsets are bounded, and around any time there is at most one transition. */
  ghost predicate Zone(offset: int -> int, reach: nat) {
    forall at :: OneStepNear(offset, at, reach)
  }

  ghost predicate OneStepNear(offset: int -> int, at: int, reach: nat) {
    exists t, a, b :: StepNear(offset, at, reach, t, a, b)
  }

  method WallClockToUtc(offset: int -> int, wall: int) returns (corrected: int)
    ensures corrected == Solved(offset, wall)
  {
    corrected := wall;
    for attempt := 0 to ROUNDS
      invariant Corrected(offset, wall, corrected, ROUNDS - attempt) == Solved(offset, wall)
    {
      var displayed := corrected + offset(corrected);
      corrected := corrected + (wall - displayed);
    }
  }

  lemma FourRounds(offset: int -> int, wall: int)
    ensures var c1 := wall - offset(wall);
            var c2 := wall - offset(c1);
            var c3 := wall - offset(c2);
            Solved(offset, wall) == wall - offset(c3)
  {
    var c1 := wall - offset(wall);
    var c2 := wall - offset(c1);
    var c3 := wall - offset(c2);
    assert Corrected(offset, wall, wall, 4) == Corrected(offset, wall, c1, 3);
    assert Corrected(offset, wall, c1, 3) == Corrected(offset, wall, c2, 2);
    assert Corrected(offset, wall, c2, 2) == Corrected(offset, wall, c3, 1);
    assert Corrected(offset, wall, c3, 1) == Corrected(offset, wall, wall - offset(c3), 0);
  }

  /**
   * Around one transition at t from offset a to offset b: the solver shows the wall time whenever some instant
   * does; in the skipped hour it oscillates and ends off by exactly the size of the jump.
   */
  lemma SolvedNearTransition(offset: int -> int, reach: nat, wall: int, t: int, a: int, b: int)
    requires StepNear(offset, wall, reach, t, a, b)
    ensures var r := Solved(offset, wall);
            && wall - reach <= r <= wall + reach
            && (wall - a < t || wall - b >= t ==> Displayed(offset, r) == wall)
            && (!(wall - a < t || wall - b >= t) ==>
                  a < b && (Displayed(offset, r) == wall + (b - a) || Displayed(offset, r) == wall - (b - a)))
  {
    FourRounds(offset, wall);
  }

  lemma ShownNearTransition(offset: int -> int, reach: nat, wall: int, t: int, a: int, b: int)
    requires Zone(offset, reach) && StepNear(offset, wall, reach, t, a, b)
    ensures Shown(offset, wall) <==> wall - a < t || wall - b >= t
  {
    if Shown(offset, wall) {
      var u :| Displayed(offset, u) == wall;
      assert OneStepNear(offset, u, reach);
      var t', a', b' :| StepNear(offset, u, reach, t', a', b');
      assert offset(u) == if u < t' then a' else b';
    }
    if wall - a < t {
      assert Displayed(offset, wall - a) == wall;
    } else if wall - b >= t {
      assert Displayed(offset, wall - b) == wall;
    }
  }

  /** In any zone the solved instant shows the requested wall time unless no instant does. */
  lemma SolverIsExact(offset: int -> int, reach: nat, wall: int)
    requires Zone(offset, reach)
    ensures Displayed(offset, Solved(offset, wall)) == wall <==> Shown(offset, wall)
  {
    assert OneStepNear(offset, wall, reach);
    var t, a, b :| StepNear(offset, wall, reach, t, a, b);
    SolvedNearTransition(offset, reach, wall, t, a, b);
    ShownNearTransition(offset, reach, wall, t, a, b);
  }

  /** Over wall times that exist, solving is strictly increasing, across any number of transitions. */
  lemma SolverIsIncreasing(offset: int -> int, reach: nat, wall: int, wall': int)
    requires Zone(offset, reach) && wall < wall'
    requires Shown(offset, wall) && Shown(offset, wall')
    ensures Solved(offset, wall) < Solved(offset, wall')
  {
    SolverIsExact(offset, reach, wall);
    SolverIsExact(offset, reach, wall');
    SolvedWithinReach(offset, reach, wall);
    SolvedWithinReach(offset, reach, wall');
    if wall' - wall <= 2 * reach {
      // Every instant either computation looks at lies near the one transition around the earlier wall time.
      assert OneStepNear(offset, wall, reach);
      var t, a, b :| StepNear(offset, wall, reach, t, a, b);
      SolvedTwice(offset, reach, wall, wall', t, a, b);
    }
  }

  lemma SolvedWithinReach(offset: int -> int, reach: nat, wall: int)
    requires Zone(offset, reach)
    ensures wall - reach <= Solved(offset, wall) <= wall + reach
  {
    assert OneStepNear(offset, wall, reach);
    var t, a, b :| StepNear(offset, wall, reach, t, a, b);
    SolvedNearTransition(offset, reach, wall, t, a, b);
  }

  lemma SolvedTwice(offset: int -> int, reach: nat, wall: int, wall': int, t: int, a: int, b: int)
    requires StepNear(offset, wall, reach, t, a, b) && wall < wall' <= wall + 2 * reach
    requires Displayed(offset, Solved(offset, wall)) == wall && Displayed(offset, Solved(offset, wall')) == wall'
    ensures Solved(offset, wall) < Solved(offset, wall')
  {
    FourRounds(offset, wall);
    FourRounds(offset, wall');
  }

  /** The caveat is real: inside a skipped hour the order of two boundaries can be reversed. */
  lemma SkippedHourReverses()
    ensures exists offset: int -> int, wall, wall' ::
              Zone(offset, 60) && wall < wall' && Solved(offset, wall) > Solved(offset, wall')
  {
    var offset := (u: int) => if u < 100 then 0 else 60;
    forall at ensures OneStepNear(offset, at, 60) {
      assert StepNear(offset, at, 60, 100, 0, 60);
    }
    FourRounds(offset, 130);
    FourRounds(offset, 160);
    assert Solved(offset, 130) == 130 && Solved(offset, 160) == 100;
  }
}
