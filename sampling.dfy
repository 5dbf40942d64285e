/** The sample generator of a Runge-Kutta method (`makeIterator`): it reads
    the time range, checks the derivative's result kind against the initial
    state, yields the initial sample, and then one sample per step while
    the pre-step time stays at or below the final time.

    A generator runs lazily: nothing of its body runs until the first
    `next()`. `SamplePull(..., k)` is what pull number k (counted from 0)
    hands back; `SampleGenerator` is the generator's body written as a
    state machine whose `Next` is proved to hand back exactly that. */
module Sampling {
  import opened Common
  import opened Butcher
  import opened Stepping

  /** The third argument of `makeIterator`: an array [tInitial, tFinal],
      a number tFinal (the range is then [0, tFinal]), or anything else.
      A missing final time (`undefined`) is `None`. */
  datatype Range = Bounds(tInitial: real, tFinal: Option<real>) | Upto(end: real) | OtherRange

  /** One yielded sample { t, y }. */
  datatype Sample = Sample(t: real, y: State)

  /** The start and the end of the time range, or the error for a range
      that is neither an array nor a number. */
  function ParseRange(range: Range): (r: Result<(real, Option<real>), Error>)
    ensures r.Err? <==> range.OtherRange?
    ensures r.Err? ==> r.error == BadRange
    ensures range.Upto? ==> r == Ok((0.0, Some(range.end)))
    ensures range.Bounds? ==> r == Ok((range.tInitial, range.tFinal))
  {
    match range
    case Bounds(t0, tF) => Ok((t0, tF))
    case Upto(tF) => Ok((0.0, Some(tF)))
    case OtherRange => Err(BadRange)
  }

  /** The step size, which defaults to 1 when it is not given. */
  function StepSize(stepSize: Option<real>): real {
    if stepSize.Some? then stepSize.value else 1.0
  }

  /** `t <= tFinal`; false when tFinal is undefined. */
  predicate Below(t: real, tFinal: Option<real>) {
    tFinal.Some? && t <= tFinal.value
  }

  /** The loop variable t in round k of the loop: t0, then `t += h`. */
  function LoopTime(t0: real, h: real, k: nat): real {
    if k == 0 then t0 else LoopTime(t0, h, k - 1) + h
  }

  /** Over exact reals the loop variable in round k is t0 + k*h. */
  lemma {:induction false} LoopTimeIs(t0: real, h: real, k: nat)
    ensures LoopTime(t0, h, k) == t0 + k as real * h
  {
    if k > 0 {
      LoopTimeIs(t0, h, k - 1);
      assert k as real * h == (k - 1) as real * h + h;
    }
  }

  /** The loop of the generator has run its body in rounds 0 .. k: the
      condition t <= tFinal held each time. */
  predicate Running(t0: real, tFinal: Option<real>, h: real, k: nat) {
    Below(LoopTime(t0, h, k), tFinal) && (k == 0 || Running(t0, tFinal, h, k - 1))
  }

  /** The state after k steps from y0 at t0, each step taken from the
      time reached so far. Its kind and length are those of y0. */
  function Trajectory(tab: Tableau, field: Field, y0: State, t0: real, h: real, k: nat): (y: State)
    requires Shaped(tab) && FieldOk(field) && Matches(field, y0)
    ensures Matches(field, y)
    ensures y.Vec? ==> |y.v| == |y0.v|
  {
    if k == 0 then y0
    else StepState(tab, field, LoopTime(t0, h, k - 1), Trajectory(tab, field, y0, t0, h, k - 1), h)
  }

  /** What pull number k of the generator hands back. The two checks throw
      out of the first `next()`; after that the generator is finished. */
  function SamplePull(tab: Tableau, field: Field, y0: State, range: Range, stepSize: Option<real>, k: nat)
    : Pull<Sample, ()>
    requires Shaped(tab) && FieldOk(field)
  {
    var h := StepSize(stepSize);
    match ParseRange(range)
    case Err(e) => if k == 0 then Throw(e) else Done(None)
    case Ok((t0, tF)) =>
      if !Matches(field, y0) then (if k == 0 then Throw(TypeMismatch) else Done(None))
      else if k == 0 then Yield(Sample(t0, y0))
      else if Running(t0, tF, h, k - 1) then Yield(Sample(LoopTime(t0, h, k - 1), Trajectory(tab, field, y0, t0, h, k)))
      else Done(None)
  }

  // ---------------------------------------------------------------------
  // Properties of the sample sequence
  // ---------------------------------------------------------------------

  /** A rejected range is reported by the first pull, before any sample. */
  lemma RejectsRange(tab: Tableau, field: Field, y0: State, stepSize: Option<real>, k: nat)
    requires Shaped(tab) && FieldOk(field)
    ensures SamplePull(tab, field, y0, OtherRange, stepSize, k) == if k == 0 then Throw(BadRange) else Done(None)
  {
  }

  /** A derivative of the wrong kind is reported by the first pull, before
      any sample; the range is checked first. */
  lemma RejectsKind(tab: Tableau, field: Field, y0: State, range: Range, stepSize: Option<real>)
    requires Shaped(tab) && FieldOk(field) && !range.OtherRange? && !Matches(field, y0)
    ensures SamplePull(tab, field, y0, range, stepSize, 0) == Throw(TypeMismatch)
    ensures forall k :: k > 0 ==> SamplePull(tab, field, y0, range, stepSize, k) == Done(None)
  {
  }

  /** The first sample is the initial state at the initial time. */
  lemma FirstSample(tab: Tableau, field: Field, y0: State, range: Range, stepSize: Option<real>)
    requires Shaped(tab) && FieldOk(field) && !range.OtherRange? && Matches(field, y0)
    ensures SamplePull(tab, field, y0, range, stepSize, 0) == Yield(Sample(ParseRange(range).value.0, y0))
  {
  }

  /** Each later sample is one step from the previous sample's state,
      taken from the new sample's time, which is the pre-step time; the
      labels go t0, t0, t0 + h, t0 + 2h, ... */
  lemma NextSample(tab: Tableau, field: Field, y0: State, range: Range, stepSize: Option<real>, k: nat)
    requires Shaped(tab) && FieldOk(field)
    requires SamplePull(tab, field, y0, range, stepSize, k + 1).Yield?
    ensures SamplePull(tab, field, y0, range, stepSize, k).Yield?
    ensures var prev := SamplePull(tab, field, y0, range, stepSize, k).value;
            var next := SamplePull(tab, field, y0, range, stepSize, k + 1).value;
            && next.y == StepState(tab, field, next.t, prev.y, StepSize(stepSize))
            && next.t == (if k == 0 then prev.t else prev.t + StepSize(stepSize))
  {
    assert !range.OtherRange?;
    var h := StepSize(stepSize);
    var t0, tF := ParseRange(range).value.0, ParseRange(range).value.1;
    assert Matches(field, y0);
    assert Running(t0, tF, h, k);
    assert Trajectory(tab, field, y0, t0, h, k + 1)
        == StepState(tab, field, LoopTime(t0, h, k), Trajectory(tab, field, y0, t0, h, k), h);
    if k > 0 {
      assert Running(t0, tF, h, k - 1);
      assert LoopTime(t0, h, k) == LoopTime(t0, h, k - 1) + h;
    }
  }

  /** Once the loop condition fails it has failed for good. */
  lemma {:induction false} RunningPrefix(t0: real, tFinal: Option<real>, h: real, j: nat, k: nat)
    requires j <= k && Running(t0, tFinal, h, k)
    ensures Running(t0, tFinal, h, j)
  {
    if j < k {
      RunningPrefix(t0, tFinal, h, j, k - 1);
    }
  }

  /** With a non-negative step the times only grow, so the loop has run
      through round k exactly when round k's time is within the range. */
  lemma {:induction false} RunningIffBelow(t0: real, tFinal: Option<real>, h: real, k: nat)
    requires h >= 0.0
    ensures Running(t0, tFinal, h, k) <==> Below(LoopTime(t0, h, k), tFinal)
  {
    if k > 0 {
      RunningIffBelow(t0, tFinal, h, k - 1);
    }
  }

  lemma ScaleMonotone(a: real, b: real, h: real)
    requires h > 0.0
    ensures a <= b <==> a * h <= b * h
  {
    assert b * h - a * h == (b - a) * h;
    if a <= b {
      assert (b - a) * h >= 0.0;
    } else {
      assert (b - a) * h < 0.0;
    }
  }

  /** The number of loop rounds for a positive step: floor((tF - t0) / h) + 1,
      or none when the range is empty. */
  function StepCount(t0: real, tFinal: real, h: real): nat
    requires h > 0.0
  {
    if tFinal < t0 then 0 else ((tFinal - t0) / h).Floor as nat + 1
  }

  /** Round k's time t0 + k*h is within the range exactly when k is
      below the round count. */
  lemma CountArith(t0: real, tFinal: real, h: real, k: nat)
    requires h > 0.0
    ensures t0 + k as real * h <= tFinal <==> k < StepCount(t0, tFinal, h)
  {
    var x := (tFinal - t0) / h;
    assert x * h == tFinal - t0;
    ScaleMonotone(k as real, x, h);
    if tFinal < t0 {
      ScaleMonotone(0.0, x, h);
    } else {
      assert k as real <= x <==> k <= x.Floor;
    }
  }

  /** For a positive step the loop runs exactly StepCount rounds. */
  lemma RunningIffCount(t0: real, tFinal: real, h: real, k: nat)
    requires h > 0.0
    ensures Running(t0, Some(tFinal), h, k) <==> k < StepCount(t0, tFinal, h)
  {
    RunningIffBelow(t0, Some(tFinal), h, k);
    LoopTimeIs(t0, h, k);
    CountArith(t0, tFinal, h, k);
  }

  /** For a positive step, the generator yields the initial sample and
      StepCount(t0, tF, h) more, and is then finished. */
  lemma SampleCount(tab: Tableau, field: Field, y0: State, t0: real, tFinal: real, h: real, k: nat)
    requires Shaped(tab) && FieldOk(field) && Matches(field, y0) && h > 0.0
    ensures (SamplePull(tab, field, y0, Bounds(t0, Some(tFinal)), Some(h), k).Yield?
             <==> k <= StepCount(t0, tFinal, h))
    ensures !SamplePull(tab, field, y0, Bounds(t0, Some(tFinal)), Some(h), k).Yield? ==>
              SamplePull(tab, field, y0, Bounds(t0, Some(tFinal)), Some(h), k) == Done(None)
  {
    if k > 0 {
      RunningIffCount(t0, tFinal, h, k - 1);
    }
  }

  /** The default final time of twenty steps gives 21 loop rounds. */
  lemma TwentyStepsCount(t0: real, h: real)
    requires h > 0.0
    ensures StepCount(t0, t0 + 20.0 * h, h) == 21
  {
    assert (t0 + 20.0 * h - t0) / h == 20.0;
  }

  /** With a step that is zero or negative and a non-empty range, the
      generator never finishes. */
  lemma {:induction false} Unbounded(t0: real, tFinal: real, h: real, k: nat)
    requires h <= 0.0 && t0 <= tFinal
    ensures Running(t0, Some(tFinal), h, k)
    ensures LoopTime(t0, h, k) <= t0
  {
    if k > 0 {
      Unbounded(t0, tFinal, h, k - 1);
    }
  }

  /** Without a final time the loop never runs: only the initial sample. */
  lemma NoFinalTime(t0: real, h: real, k: nat)
    ensures !Running(t0, None, h, k)
  {
  }

  // ---------------------------------------------------------------------
  // The generator's body as a state machine
  // ---------------------------------------------------------------------

  /** Where the generator's body is suspended: before its first line, at
      the initial `yield`, at the `yield` inside the loop, or finished. */
  datatype Phase = Fresh | AtInitial | InLoop | Finished

  /** After k pulls the generator can hand back nothing more. */
  ghost predicate Stopped(tab: Tableau, field: Field, y0: State, range: Range, stepSize: Option<real>, k: nat)
  {
    k >= 1 &&
    (range.OtherRange? || !Matches(field, y0) ||
     (k >= 2 && !Running(ParseRange(range).value.0, ParseRange(range).value.1, StepSize(stepSize), k - 2)))
  }

  lemma StoppedStays(tab: Tableau, field: Field, y0: State, range: Range, stepSize: Option<real>, k: nat)
    requires Shaped(tab) && FieldOk(field) && Stopped(tab, field, y0, range, stepSize, k)
    ensures SamplePull(tab, field, y0, range, stepSize, k) == Done(None)
    ensures Stopped(tab, field, y0, range, stepSize, k + 1)
  {
  }

  /** Step k of the trajectory is taken from round k - 1's time. */
  lemma TrajectoryStep(tab: Tableau, field: Field, y0: State, t0: real, h: real, k: nat, t: real, y: State)
    requires Shaped(tab) && FieldOk(field) && Matches(field, y0) && k >= 1
    requires t == LoopTime(t0, h, k - 1) && y == Trajectory(tab, field, y0, t0, h, k - 1)
    ensures Matches(field, y)
    ensures Trajectory(tab, field, y0, t0, h, k) == StepState(tab, field, t, y, h)
  {
  }

  /** Pull k >= 1 runs round k - 1 of the loop when all earlier rounds ran
      and round k - 1's time is within the range. */
  lemma LoopContinues(tab: Tableau, field: Field, y0: State, range: Range, stepSize: Option<real>, k: nat)
    requires Shaped(tab) && FieldOk(field) && k >= 1 && !range.OtherRange? && Matches(field, y0)
    requires k == 1 || Running(ParseRange(range).value.0, ParseRange(range).value.1, StepSize(stepSize), k - 2)
    requires Below(LoopTime(ParseRange(range).value.0, StepSize(stepSize), k - 1), ParseRange(range).value.1)
    ensures Running(ParseRange(range).value.0, ParseRange(range).value.1, StepSize(stepSize), k - 1)
    ensures SamplePull(tab, field, y0, range, stepSize, k)
            == Yield(Sample(LoopTime(ParseRange(range).value.0, StepSize(stepSize), k - 1),
                            Trajectory(tab, field, y0, ParseRange(range).value.0, StepSize(stepSize), k)))
  {
  }

  /** Otherwise pull k finds the loop condition false: the generator ends
      and stays finished. */
  lemma LoopStops(tab: Tableau, field: Field, y0: State, range: Range, stepSize: Option<real>, k: nat)
    requires Shaped(tab) && FieldOk(field) && k >= 1 && !range.OtherRange? && Matches(field, y0)
    requires !Below(LoopTime(ParseRange(range).value.0, StepSize(stepSize), k - 1), ParseRange(range).value.1)
    ensures SamplePull(tab, field, y0, range, stepSize, k) == Done(None)
    ensures Stopped(tab, field, y0, range, stepSize, k + 1)
  {
  }

  class SampleGenerator {
    const tab: Tableau
    const dy_dt: Field
    const yInitial: State
    const tRange: Range
    const stepSize: Option<real>

    var phase: Phase
    var tInitial: real
    var tFinal: Option<real>
    var t: real
    var y: State
    /** The number of `next()` calls so far. */
    ghost var pulls: nat

    ghost predicate Valid()
      reads this
    {
      Shaped(tab) && FieldOk(dy_dt) &&
      (phase == Fresh <==> pulls == 0) &&
      (phase == AtInitial ==> pulls == 1) &&
      (phase == InLoop ==> pulls >= 2) &&
      ((phase == AtInitial || phase == InLoop) ==>
         ParseRange(tRange) == Ok((tInitial, tFinal)) && Matches(dy_dt, yInitial)) &&
      (phase == InLoop ==>
         Running(tInitial, tFinal, StepSize(stepSize), pulls - 2) &&
         t == LoopTime(tInitial, StepSize(stepSize), pulls - 2) &&
         y == Trajectory(tab, dy_dt, yInitial, tInitial, StepSize(stepSize), pulls - 1)) &&
      (phase == Finished ==> Stopped(tab, dy_dt, yInitial, tRange, stepSize, pulls))
    }

    /** `makeIterator(dy_dt, yInitial, tRange, stepSize)`: a generator
        object whose body has not started. */
    constructor (tab: Tableau, dy_dt: Field, yInitial: State, tRange: Range, stepSize: Option<real>)
      requires Shaped(tab) && FieldOk(dy_dt)
      ensures Valid() && pulls == 0
      ensures this.tab == tab && this.dy_dt == dy_dt && this.yInitial == yInitial
      ensures this.tRange == tRange && this.stepSize == stepSize
    {
      this.tab := tab;
      this.dy_dt := dy_dt;
      this.yInitial := yInitial;
      this.tRange := tRange;
      this.stepSize := stepSize;
      phase := Fresh;
      tInitial, tFinal, t, y := 0.0, None, 0.0, yInitial;
      pulls := 0;
    }

    /** `next()`: run the body to its next `yield` or to its end. */
    method Next() returns (r: Pull<Sample, ()>)
      requires Valid()
      modifies this
      ensures Valid() && pulls == old(pulls) + 1
      ensures r == SamplePull(tab, dy_dt, yInitial, tRange, stepSize, old(pulls))
    {
      if phase == Fresh {
        r := Start();
      } else if phase == Finished {
        StoppedStays(tab, dy_dt, yInitial, tRange, stepSize, pulls);
        pulls := pulls + 1;
        r := Done(None);
      } else {
        r := Resume();
      }
    }

    /** The first `next()`: read the range, check the derivative's result
        kind, and stop at the initial `yield`. */
    method Start() returns (r: Pull<Sample, ()>)
      requires Valid() && phase == Fresh
      modifies this
      ensures Valid() && pulls == old(pulls) + 1
      ensures r == SamplePull(tab, dy_dt, yInitial, tRange, stepSize, old(pulls))
    {
      match tRange {
        case Bounds(a, b) =>
          tInitial, tFinal := a, b;
        case Upto(b) =>
          tInitial, tFinal := 0.0, Some(b);
        case OtherRange =>
          phase, pulls := Finished, pulls + 1;
          return Throw(BadRange);
      }
      if !Matches(dy_dt, yInitial) {
        phase, pulls := Finished, pulls + 1;
        return Throw(TypeMismatch);
      }
      phase, pulls := AtInitial, pulls + 1;
      r := Yield(Sample(tInitial, yInitial));
    }

    /** A later `next()`: enter the loop or advance t by the step size,
        then run one round of the loop. */
    method Resume() returns (r: Pull<Sample, ()>)
      requires Valid() && (phase == AtInitial || phase == InLoop)
      modifies this
      ensures Valid() && pulls == old(pulls) + 1
      ensures r == SamplePull(tab, dy_dt, yInitial, tRange, stepSize, old(pulls))
    {
      if phase == AtInitial {
        y, t := yInitial, tInitial;
      } else {
        t := t + StepSize(stepSize);
      }
      r := Round();
    }

    /** One round of the loop: test t <= tFinal, then either step y from t
        and yield the new state labelled t, or finish. */
    method Round() returns (r: Pull<Sample, ()>)
      requires Shaped(tab) && FieldOk(dy_dt) && pulls >= 1
      requires ParseRange(tRange) == Ok((tInitial, tFinal)) && Matches(dy_dt, yInitial)
      requires pulls == 1 || Running(tInitial, tFinal, StepSize(stepSize), pulls - 2)
      requires t == LoopTime(tInitial, StepSize(stepSize), pulls - 1)
      requires y == Trajectory(tab, dy_dt, yInitial, tInitial, StepSize(stepSize), pulls - 1)
      modifies this
      ensures Valid() && pulls == old(pulls) + 1
      ensures r == SamplePull(tab, dy_dt, yInitial, tRange, stepSize, old(pulls))
    {
      if Below(t, tFinal) {
        r := StepRound();
      } else {
        LoopStops(tab, dy_dt, yInitial, tRange, stepSize, pulls);
        phase, pulls := Finished, pulls + 1;
        r := Done(None);
      }
    }

    /** The loop body: `y = this.yNext(dy_dt, t, y, stepSize)`, then
        `yield { t, y }`. */
    method StepRound() returns (r: Pull<Sample, ()>)
      requires Shaped(tab) && FieldOk(dy_dt) && pulls >= 1
      requires ParseRange(tRange) == Ok((tInitial, tFinal)) && Matches(dy_dt, yInitial)
      requires pulls == 1 || Running(tInitial, tFinal, StepSize(stepSize), pulls - 2)
      requires t == LoopTime(tInitial, StepSize(stepSize), pulls - 1) && Below(t, tFinal)
      requires y == Trajectory(tab, dy_dt, yInitial, tInitial, StepSize(stepSize), pulls - 1)
      modifies this
      ensures Valid() && pulls == old(pulls) + 1
      ensures r == SamplePull(tab, dy_dt, yInitial, tRange, stepSize, old(pulls))
    {
      LoopContinues(tab, dy_dt, yInitial, tRange, stepSize, pulls);
      var h := StepSize(stepSize);
      var yNew := YNext(tab, dy_dt, t, y, h);
      TrajectoryStep(tab, dy_dt, yInitial, tInitial, h, pulls, t, y);
      assert yNew == Trajectory(tab, dy_dt, yInitial, tInitial, h, pulls);
      y, phase, pulls := yNew, InLoop, pulls + 1;
      r := Yield(Sample(t, y));
    }
  }
}
