/**
 * The wait inside `autoArc`: poll the heading until it lies strictly inside
 * a band of 5 degrees either side of the target, or until it has repeated
 * its previous value more than 5 polls in a row. There is no timeout and no
 * wrap-around at 0/360 degrees. The headings the sensor reports are the
 * finite sequence `h`; if it ends before either exit fires, the wait is
 * still polling.
 */
module Arc {

  const Tolerance: real := 5.0
  const StuckLimit: nat := 5

  datatype ArcExit = ReachedBand | Stalled | StillPolling

  predicate InBand(heading: real, target: real)
  {
    target - Tolerance < heading < target + Tolerance
  }

  /** The heading the i-th poll is compared with: the previous one, or 0 before the first. */
  function Previous(h: seq<real>, i: nat): real
    requires i < |h|
  {
    if i == 0 then 0.0 else h[i - 1]
  }

  /** How many polls in a row, ending with poll i, repeated the heading before them. */
  function SameRun(h: seq<real>, i: nat): nat
    requires i < |h|
  {
    if h[i] != Previous(h, i) then 0
    else if i == 0 then 1
    else SameRun(h, i - 1) + 1
  }

  predicate Stuck(h: seq<real>, i: nat)
    requires i < |h|
  {
    SameRun(h, i) > StuckLimit
  }

  predicate ExitsAt(h: seq<real>, target: real, i: nat)
    requires i < |h|
  {
    InBand(h[i], target) || Stuck(h, i)
  }

  predicate NoExitBefore(h: seq<real>, target: real, n: nat)
    requires n <= |h|
  {
    forall j :: 0 <= j < n ==> !ExitsAt(h, target, j)
  }

  /**
   * The wait ends after `polls` polls with `exit`: at the first poll where
   * an exit condition holds (the band is tested first), or, when none
   * holds, it has used up every heading and is still polling.
   */
  predicate ArcStops(h: seq<real>, target: real, polls: nat, exit: ArcExit)
  {
    polls <= |h| &&
    if exit == StillPolling then
      polls == |h| && NoExitBefore(h, target, polls)
    else
      1 <= polls && NoExitBefore(h, target, polls - 1) && ExitsAt(h, target, polls - 1) &&
      (exit == ReachedBand <==> InBand(h[polls - 1], target))
  }

  /** The `while True` loop of `autoArc`. */
  method WatchHeading(h: seq<real>, target: real) returns (exit: ArcExit, polls: nat)
    ensures ArcStops(h, target, polls, exit)
  {
    var lastHeading := 0.0;
    var sameHeadings := 0;
    polls := 0;
    while polls < |h|
      invariant polls <= |h|
      invariant NoExitBefore(h, target, polls)
      invariant lastHeading == if polls == 0 then 0.0 else h[polls - 1]
      invariant sameHeadings == if polls == 0 then 0 else SameRun(h, polls - 1)
    {
      var heading := h[polls];
      polls := polls + 1;
      if InBand(heading, target) {
        return ReachedBand, polls;
      }
      if heading == lastHeading {
        sameHeadings := sameHeadings + 1;
      } else {
        sameHeadings := 0;
      }
      if sameHeadings > StuckLimit {
        return Stalled, polls;
      }
      lastHeading := heading;
    }
    exit := StillPolling;
  }

  /** The description of where the wait stops admits exactly one answer. */
  lemma ArcStopsUnique(h: seq<real>, target: real, n1: nat, e1: ArcExit, n2: nat, e2: ArcExit)
    requires ArcStops(h, target, n1, e1) && ArcStops(h, target, n2, e2)
    ensures n1 == n2 && e1 == e2
  {
  }

  /** The stuck test fires at poll i exactly when polls i-5 .. i each repeated their predecessor. */
  lemma {:induction false} StuckIffSixRepeats(h: seq<real>, i: nat)
    requires i < |h|
    ensures Stuck(h, i) <==>
              StuckLimit <= i && forall j :: i - StuckLimit <= j <= i ==> h[j] == Previous(h, j)
  {
    RunLength(h, i);
  }

  /** SameRun(h, i) is the length of the run of repeats ending at poll i. */
  lemma {:induction false} RunLength(h: seq<real>, i: nat)
    requires i < |h|
    ensures SameRun(h, i) <= i + 1
    ensures forall j :: i - SameRun(h, i) < j <= i ==> h[j] == Previous(h, j)
    ensures SameRun(h, i) <= i ==> h[i - SameRun(h, i)] != Previous(h, i - SameRun(h, i))
  {
    if h[i] == Previous(h, i) && i > 0 {
      RunLength(h, i - 1);
    }
  }

  /**
   * A sensor frozen at one heading outside the band trips the stuck test:
   * after 6 polls if the frozen value is 0 (the initial comparison value),
   * otherwise after 7.
   */
  lemma FrozenHeading(h: seq<real>, target: real, c: real, polls: nat, exit: ArcExit)
    requires |h| >= 7 && forall j :: 0 <= j < |h| ==> h[j] == c
    requires !InBand(c, target)
    requires ArcStops(h, target, polls, exit)
    ensures exit == Stalled
    ensures polls == if c == 0.0 then 6 else 7
  {
    forall j | 0 <= j < |h|
      ensures SameRun(h, j) == if c == 0.0 then j + 1 else j
    {
      FrozenRun(h, c, j);
    }
    var n := if c == 0.0 then 6 else 7;
    assert NoExitBefore(h, target, n - 1);
    assert ArcStops(h, target, n, Stalled);
    ArcStopsUnique(h, target, polls, exit, n, Stalled);
  }

  lemma {:induction false} FrozenRun(h: seq<real>, c: real, i: nat)
    requires i < |h| && forall j :: 0 <= j < |h| ==> h[j] == c
    ensures SameRun(h, i) == if c == 0.0 then i + 1 else i
  {
    if i > 0 {
      FrozenRun(h, c, i - 1);
    }
  }

  /** Headings are compared as plain numbers: 358 degrees is not near a target of 0. */
  lemma NoWrapAround()
    ensures !InBand(358.0, 0.0) && !InBand(2.0, 358.0)
    ensures InBand(-2.0, 0.0)
  {
  }
}
