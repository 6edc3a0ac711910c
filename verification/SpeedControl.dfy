/**
  Speed changes without a jump: input timestamps are scaled around the last synchronisation point, and
  every change of speed moves that point and makes up for it in a shift. One timebase, exact speeds.
 */
module SpeedControl {
  import opened Options

  /** std::round(): to the nearest, ties away from zero. */
  function Rounded(x: real): (r: int)
    ensures x - 0.5 <= r as real <= x + 0.5
    ensures x >= 0.0 && r as real == x - 0.5 ==> false
    ensures x <= 0.0 && r as real == x + 0.5 ==> false
  {
    if x >= 0.0 then (x + 0.5).Floor else -((0.5 - x).Floor)
  }

  lemma RoundedMonotone(x: real, y: real)
    requires x <= y
    ensures Rounded(x) <= Rounded(y)
  {
  }

  lemma RoundedExact(n: int)
    ensures Rounded(n as real) == n
  {
  }

  // ------------------------------------------------------------------ the team

  datatype State = State(speed: real, lastPts: Option<int>, lastSync: Option<int>, shift: int)

  function Fresh(): State { State(1.0, None, None, 0) }

  function Inverse(speed: real): (r: real)
    requires speed != 0.0
    ensures (speed > 0.0 ==> r > 0.0) && (speed < 0.0 ==> r < 0.0) && r * speed == 1.0
  {
    1.0 / speed
  }

  function ScaledBy(elapsed: int, inverse: real): int {
    Rounded(elapsed as real * inverse)
  }

  function Scaled(elapsed: int, speed: real): int
    requires speed != 0.0
  {
    ScaledBy(elapsed, Inverse(speed))
  }

  function WithSpeed(s: State, speed: real): State
    requires s.speed != 0.0 && (s.lastSync.Some? ==> s.lastPts.Some?)
  {
    var shift :=
      if s.lastSync.None? then s.shift
      else s.shift + s.lastSync.value + Scaled(s.lastPts.value - s.lastSync.value, s.speed) - s.lastPts.value;
    State(speed, s.lastPts, s.lastPts, shift)
  }

  function WithPts(s: State, pts: int): State {
    s.(lastPts := Some(pts), lastSync := if s.lastSync.None? then Some(pts) else s.lastSync)
  }

  /** None for a timestamp that is discarded because the speed is not 1. */
  function Scale(s: State, pts: int, forbidChanged: bool): Option<int>
    requires s.speed != 0.0
  {
    if forbidChanged && s.speed != 1.0 then None else Some(Output(s, pts))
  }

  function Output(s: State, pts: int): int
    requires s.speed != 0.0
  {
    if s.lastSync.None? then pts else s.lastSync.value + Scaled(pts - s.lastSync.value, s.speed) + s.shift
  }

  class SpeedTeam {
    var speed: real
    var invSpeed: real
    var lastPts: Option<int>
    var lastSync: Option<int>
    var shift: int

    ghost function View(): State
      reads this
    {
      State(speed, lastPts, lastSync, shift)
    }

    ghost predicate Valid()
      reads this
    {
      speed != 0.0 && invSpeed == Inverse(speed) && (lastSync.Some? ==> lastPts.Some?)
    }

    constructor ()
      ensures Valid() && View() == Fresh()
    {
      speed, invSpeed, lastPts, lastSync, shift := 1.0, 1.0, None, None, 0;
    }

    /** setSpeedNonRecursive(), the arithmetic. */
    method SetSpeed(newSpeed: real) returns (directionChanged: bool)
      requires Valid() && newSpeed != 0.0
      modifies this
      ensures Valid() && View() == WithSpeed(old(View()), newSpeed)
      ensures directionChanged <==> (old(speed) < 0.0) != (newSpeed < 0.0)
    {
      if lastSync.Some? {
        var elapsed := lastPts.value - lastSync.value;
        var scaled := ScaledBy(elapsed, invSpeed);
        shift := shift + lastSync.value + scaled - lastPts.value;
      }
      directionChanged := (speed < 0.0) != (newSpeed < 0.0);
      speed := newSpeed;
      invSpeed := Inverse(newSpeed);
      lastSync := lastPts;
    }

    method SetLastPts(pts: int)
      requires Valid()
      modifies this
      ensures Valid() && View() == WithPts(old(View()), pts)
    {
      lastPts := Some(pts);
      if lastSync.None? {
        lastSync := lastPts;
      }
    }

    method ScalePts(pts: int, forbidChanged: bool) returns (r: Option<int>)
      requires Valid()
      ensures r == Scale(View(), pts, forbidChanged)
    {
      if forbidChanged && speed != 1.0 {
        return None;
      }
      if lastSync.None? {
        return Some(pts);
      }
      var elapsed := pts - lastSync.value;
      var scaled := ScaledBy(elapsed, invSpeed);
      r := Some(lastSync.value + scaled + shift);
    }
  }

  // ------------------------------------------------------------------ one step

  /** The output does not jump at a change of speed or direction: at the last input it is what it was. */
  lemma ContinuousAtChange(s: State, speed: real)
    requires s.speed != 0.0 && speed != 0.0 && s.lastSync.Some? && s.lastPts.Some?
    ensures Output(WithSpeed(s, speed), s.lastPts.value) == Output(s, s.lastPts.value)
  {
    RoundedExact(0);
  }

  /** ... nor at the very first input. */
  lemma ContinuousAtStart(s: State, pts: int)
    requires s.speed != 0.0 && s.lastSync.None? && s.shift == 0
    ensures Output(WithPts(s, pts), pts) == Output(s, pts) == pts
  {
    RoundedExact(0);
  }

  lemma Product(a: int, b: int, inverse: real)
    requires (a <= b && inverse > 0.0) || (a >= b && inverse < 0.0)
    ensures a as real * inverse <= b as real * inverse
  {
    var x, y := a as real, b as real;
    assert (y - x) * inverse >= 0.0;
    assert y * inverse - x * inverse == (y - x) * inverse;
  }

  lemma ScaledMonotone(a: int, b: int, inverse: real)
    requires (a <= b && inverse > 0.0) || (a >= b && inverse < 0.0)
    ensures ScaledBy(a, inverse) <= ScaledBy(b, inverse)
  {
    Product(a, b, inverse);
    RoundedMonotone(a as real * inverse, b as real * inverse);
  }

  /** While input moves in the playback direction, output never goes back. */
  lemma NeverGoesBack(s: State, a: int, b: int)
    requires s.speed != 0.0 && s.lastSync.Some?
    requires if s.speed > 0.0 then a <= b else a >= b
    ensures Output(s, a) <= Output(s, b)
  {
    ScaledMonotone(a - s.lastSync.value, b - s.lastSync.value, Inverse(s.speed));
  }

  // ------------------------------------------------------------------ whole runs

  datatype Event = Speed(speed: real) | Input(pts: int)

  function Apply(s: State, e: Event): State
    requires s.speed != 0.0 && (s.lastSync.Some? ==> s.lastPts.Some?) && (e.Speed? ==> e.speed != 0.0)
  {
    match e
    case Speed(v) => WithSpeed(s, v)
    case Input(pts) => WithPts(s, pts)
  }

  /** The team with the unrounded clock beside it: `base` is that clock at the last synchronisation. */
  datatype Run = Run(s: State, base: real, changes: nat)

  predicate GoodEvent(s: State, e: Event) {
    match e
    case Speed(v) => v != 0.0
    case Input(pts) => s.lastPts.Some? ==> if s.speed > 0.0 then s.lastPts.value <= pts else s.lastPts.value >= pts
  }

  function Exact(r: Run, pts: int): real
    requires r.s.speed != 0.0
  {
    if r.s.lastSync.None? then pts as real else r.base + (pts - r.s.lastSync.value) as real * Inverse(r.s.speed)
  }

  predicate Well(r: Run) {
    r.s.speed != 0.0 && (r.s.lastSync.Some? <==> r.s.lastPts.Some?)
  }

  function Next(r: Run, e: Event): Run
    requires Well(r) && GoodEvent(r.s, e)
  {
    match e
    case Speed(v) =>
      if r.s.lastPts.None? then r.(s := Apply(r.s, e))
      else Run(Apply(r.s, e), Exact(r, r.s.lastPts.value), r.changes + 1)
    case Input(pts) => if r.s.lastPts.None? then r.(s := Apply(r.s, e), base := pts as real) else r.(s := Apply(r.s, e))
  }

  /** The output where the input stands. */
  function Position(r: Run): Option<int>
    requires Well(r)
  {
    if r.s.lastPts.None? then None else Some(Output(r.s, r.s.lastPts.value))
  }

  /** Each change may have added half a tick of rounding. */
  predicate DriftLaw(r: Run) {
    && Well(r) && (r.s.lastSync.None? ==> r.s.shift == 0 && r.changes == 0)
    && (r.s.lastSync.Some? ==>
          var error := (r.s.lastSync.value + r.s.shift) as real - r.base;
          -(r.changes as real) / 2.0 <= error <= r.changes as real / 2.0)
  }

  lemma NextKeeps(r: Run, e: Event)
    requires DriftLaw(r) && GoodEvent(r.s, e)
    ensures DriftLaw(Next(r, e))
  {
  }

  /** Within (k + 1) / 2 ticks of the unrounded piecewise linear clock after k changes, at any timestamp. */
  lemma DriftBound(r: Run, pts: int)
    requires DriftLaw(r)
    ensures var error := Output(r.s, pts) as real - Exact(r, pts);
      -((r.changes + 1) as real) / 2.0 <= error <= (r.changes + 1) as real / 2.0
  {
  }

  function Play(r: Run, es: seq<Event>): Run
    requires Well(r) && Playable(r, es)
    decreases |es|
  {
    if es == [] then r else Play(Next(r, es[0]), es[1..])
  }

  predicate Playable(r: Run, es: seq<Event>)
    requires Well(r)
    decreases |es|
  {
    es == [] || (GoodEvent(r.s, es[0]) && Playable(Next(r, es[0]), es[1..]))
  }

  lemma StepForward(r: Run, e: Event)
    requires DriftLaw(r) && GoodEvent(r.s, e) && Position(r).Some?
    ensures var t := Next(r, e);
      && Position(t).Some? && Position(r).value <= Position(t).value && (e.Speed? ==> Position(t) == Position(r))
  {
    match e
    case Speed(v) => ContinuousAtChange(r.s, v);
    case Input(pts) => NeverGoesBack(r.s, r.s.lastPts.value, pts);
  }

  /**
    Over any sequence of inputs and changes of speed and direction, the output never goes back and
    stays within (k + 1) / 2 ticks of the unrounded clock.
   */
  lemma {:induction false} StaysOnTheClock(r: Run, es: seq<Event>)
    requires DriftLaw(r) && Playable(r, es) && Position(r).Some?
    ensures var t := Play(r, es);
      && DriftLaw(t) && Position(t).Some? && Position(r).value <= Position(t).value
      && var error := Position(t).value as real - Exact(t, t.s.lastPts.value);
      -((t.changes + 1) as real) / 2.0 <= error <= (t.changes + 1) as real / 2.0
    decreases |es|
  {
    if es == [] {
      DriftBound(r, r.s.lastPts.value);
    } else {
      StepForward(r, es[0]);
      NextKeeps(r, es[0]);
      StaysOnTheClock(Next(r, es[0]), es[1..]);
    }
  }

  /** A new team and its first input are such a beginning. */
  lemma FirstInput(pts: int)
    ensures var r := Next(Run(Fresh(), 0.0, 0), Input(pts)); DriftLaw(r) && Position(r) == Some(pts)
  {
    RoundedExact(0);
  }
}
