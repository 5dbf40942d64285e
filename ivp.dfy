/** The initial value problem y'(t) = f(y(t), t), y(t0) = y0: it joins a
    Runge-Kutta method's sample generator and the limit wrapper. Its
    `makeIterator` is a generator that resolves the method argument,
    builds the sample generator over [tInitial, tFinal], and delegates to
    it (`yield*`), wrapped in `limitIterable` when the limit is truthy;
    `solve` collects that generator into an array, supplying defaults. */
module Ivp {
  import opened Common
  import opened Butcher
  import opened Stepping
  import opened Sampling
  import opened Limiting

  /** The method argument: a method instance, a preset name, or anything
      else. */
  datatype MethodArg = Instance(tab: Tableau) | Name(name: string) | OtherArg

  /** Method instances only come from the constructor, which hands back
      consistent tableaux. */
  predicate ArgOk(arg: MethodArg) {
    arg.Instance? ==> Consistent(arg.tab)
  }

  /** An instance is used as it is; a name is looked up in the preset
      catalog, where an unknown name fails; anything else is refused. */
  function ResolveMethod(arg: MethodArg): (r: Result<Tableau, Error>)
    ensures arg.Instance? ==> r == Ok(arg.tab)
    ensures arg.Name? ==> && (r.Ok? <==> arg.name in PresetNames)
                          && (r.Ok? ==> r == GetDefaults(arg.name))
                          && (r.Err? ==> r.error == UnknownPreset)
    ensures arg.OtherArg? ==> r == Err(BadMethodArgument)
    ensures ArgOk(arg) && r.Ok? ==> Consistent(r.value)
  {
    match arg
    case Instance(tab) => Ok(tab)
    case Name(name) =>
      (match NewMethod(ByName(name))
       case Ok(built) => Ok(built.tab)
       case Err(e) => Err(e))
    case OtherArg => Err(BadMethodArgument)
  }

  /** A limit is truthy when it is given and not zero. */
  predicate Truthy(limit: Option<real>) {
    limit.Some? && limit.value != 0.0
  }

  /** `yield*` hands on the values and exceptions of the inner generator
      but not its return value: the outer generator returns `undefined`. */
  function Delegated(p: Pull<Sample, ()>): (q: Pull<Sample, ()>)
    ensures q.Yield? <==> p.Yield?
    ensures q.Throw? <==> p.Throw?
    ensures !q.Done? ==> q == p
    ensures q.Done? ==> q.result == None
  {
    if p.Done? then Done(None) else p
  }

  /** `[...iterator]` over the pulls from `from` on: the yielded values, in
      order, up to the end of the iteration; an exception is passed on.
      `end` is a pull by which the iteration has ended. */
  function Spread<V, R>(p: nat -> Pull<V, R>, from: nat, end: nat): (r: Result<seq<V>, Error>)
    requires from <= end && !p(end).Yield?
    ensures r.Ok? ==> && from + |r.value| <= end
                      && (forall i :: 0 <= i < |r.value| ==> p(from + i) == Yield(r.value[i]))
                      && p(from + |r.value|).Done?
    ensures r.Err? ==> exists j :: && from <= j <= end && p(j) == Throw(r.error)
                                   && (forall i :: from <= i < j ==> p(i).Yield?)
    decreases end - from
  {
    match p(from)
    case Yield(v) =>
      (match Spread(p, from + 1, end)
       case Ok(rest) =>
         var r := [v] + rest;
         assert forall i :: 1 <= i < |r| ==> p(from + i) == Yield(r[i]) by {
           forall i | 1 <= i < |r| ensures p(from + i) == Yield(r[i]) {
             assert p(from + 1 + (i - 1)) == Yield(rest[i - 1]);
           }
         }
         Ok(r)
       case Err(e) => Err(e))
    case Done(_) => Ok([])
    case Throw(e) => Err(e)
  }

  /** When pulls from .. m - 1 yield and pull m finishes, `Spread`
      collects m - from values (by its contract, those of pulls from ..
      m - 1). */
  lemma {:induction false} SpreadCollects<V, R>(p: nat -> Pull<V, R>, from: nat, m: nat, end: nat)
    requires from <= m <= end && !p(end).Yield?
    requires forall j :: from <= j < m ==> p(j).Yield?
    requires p(m).Done?
    ensures Spread(p, from, end).Ok? && |Spread(p, from, end).value| == m - from
    decreases m - from
  {
    if from < m {
      SpreadCollects(p, from + 1, m, end);
    }
  }

  /** The default iteration limit of `solve`. */
  const DefaultLimit: real := 1000.0

  /** The default callback of `solve`: it prints a warning and returns
      `undefined`. */
  function Warn(s: Sample, n: nat): Option<()> {
    None
  }

  class InitialValueProblem {
    const dy_dt: Field
    const yInitial: State
    const tInitial: real
    const numDimensions: nat

    /** `new InitialValueProblem(dy_dt, yInitial, tInitial = 0)`. */
    constructor (dy_dt: Field, yInitial: State, tInitial: Option<real>)
      ensures this.dy_dt == dy_dt && this.yInitial == yInitial
      ensures this.tInitial == if tInitial.Some? then tInitial.value else 0.0
      ensures numDimensions == if yInitial.Scalar? then 1 else |yInitial.v|
    {
      this.dy_dt := dy_dt;
      this.yInitial := yInitial;
      this.tInitial := if tInitial.Some? then tInitial.value else 0.0;
      numDimensions := if yInitial.Scalar? then 1 else |yInitial.v|;
    }

    /** The pulls of the sample generator over [tInitial, tFinal]. */
    function Samples(tab: Tableau, stepSize: Option<real>, tFinal: Option<real>): nat -> Pull<Sample, ()>
      requires Shaped(tab) && FieldOk(dy_dt)
    {
      (k: nat) => SamplePull(tab, dy_dt, yInitial, Bounds(tInitial, tFinal), stepSize, k)
    }

    /** Pull k of the generator `makeIterator(rkMethod, stepSize, tFinal,
        limit, limitCallback)`. The method is resolved when the body
        starts, then the limit's arguments are checked (only when the
        limit is truthy), and then the samples come. */
    function MakeIteratorPull(rkMethod: MethodArg, stepSize: Option<real>, tFinal: Option<real>,
                              limit: Option<real>, limitCallback: Callback<Sample, ()>, k: nat): Pull<Sample, ()>
      requires FieldOk(dy_dt) && ArgOk(rkMethod)
    {
      match ResolveMethod(rkMethod)
      case Err(e) => if k == 0 then Throw(e) else Done(None)
      case Ok(tab) =>
        var samples := Samples(tab, stepSize, tFinal);
        if !Truthy(limit) then Delegated(samples(k))
        else match CheckLimitArgs(true, limit.value, limitCallback)
          case Some(e) => if k == 0 then Throw(e) else Done(None)
          case None => Delegated(Limited(samples, limit.value.Floor as nat, limitCallback, k))
    }

    /** A method argument that cannot be resolved is reported by the first
        pull, and the generator is then finished. */
    lemma RejectsMethod(rkMethod: MethodArg, stepSize: Option<real>, tFinal: Option<real>,
                        limit: Option<real>, limitCallback: Callback<Sample, ()>, k: nat)
      requires FieldOk(dy_dt) && ArgOk(rkMethod) && ResolveMethod(rkMethod).Err?
      ensures MakeIteratorPull(rkMethod, stepSize, tFinal, limit, limitCallback, k)
              == if k == 0 then Throw(ResolveMethod(rkMethod).error) else Done(None)
    {
    }

    /** The samples start at the problem's initial time and state: the
        range handed on is [tInitial, tFinal]. */
    lemma StartsAtInitial(rkMethod: MethodArg, stepSize: Option<real>, tFinal: Option<real>,
                          limit: Option<real>, limitCallback: Callback<Sample, ()>)
      requires FieldOk(dy_dt) && ArgOk(rkMethod) && ResolveMethod(rkMethod).Ok? && Matches(dy_dt, yInitial)
      requires Truthy(limit) ==> CheckLimitArgs(true, limit.value, limitCallback).None?
      ensures MakeIteratorPull(rkMethod, stepSize, tFinal, limit, limitCallback, 0)
              == Yield(Sample(tInitial, yInitial))
    {
    }

    /** A truthy limit that is not a whole number of at least 1, or a
        callback that is not a function, is reported by the first pull. */
    lemma RejectsLimit(rkMethod: MethodArg, stepSize: Option<real>, tFinal: Option<real>,
                       limit: Option<real>, limitCallback: Callback<Sample, ()>)
      requires FieldOk(dy_dt) && ArgOk(rkMethod) && ResolveMethod(rkMethod).Ok? && Truthy(limit)
      requires limit.value < 1.0 || !IsInteger(limit.value) || limitCallback.NotFunction?
      ensures MakeIteratorPull(rkMethod, stepSize, tFinal, limit, limitCallback, 0)
              == Throw(if limit.value < 1.0 || !IsInteger(limit.value) then BadLimit else BadCallback)
    {
    }

    /** A falsy limit (missing or 0) leaves the samples unbounded: with a
        step that is not positive and a non-empty range every pull yields. */
    lemma UnlimitedNeverEnds(rkMethod: MethodArg, h: real, tFinal: real, limit: Option<real>,
                             limitCallback: Callback<Sample, ()>, k: nat)
      requires FieldOk(dy_dt) && ArgOk(rkMethod) && ResolveMethod(rkMethod).Ok? && Matches(dy_dt, yInitial)
      requires !Truthy(limit) && h <= 0.0 && tInitial <= tFinal
      ensures MakeIteratorPull(rkMethod, Some(h), Some(tFinal), limit, limitCallback, k).Yield?
    {
      if k > 0 {
        Unbounded(tInitial, tFinal, h, k - 1);
      }
    }

    /** A truthy limit L bounds the generator to at most L samples, and the
        samples before the limit is reached are the unwrapped ones. */
    lemma LimitBounds(rkMethod: MethodArg, stepSize: Option<real>, tFinal: Option<real>,
                      limit: Option<real>, limitCallback: Callback<Sample, ()>, k: nat)
      requires FieldOk(dy_dt) && ArgOk(rkMethod) && ResolveMethod(rkMethod).Ok? && Truthy(limit)
      ensures MakeIteratorPull(rkMethod, stepSize, tFinal, limit, limitCallback, k).Yield? ==>
                && k < limit.value.Floor
                && MakeIteratorPull(rkMethod, stepSize, tFinal, limit, limitCallback, k)
                   == SamplePull(ResolveMethod(rkMethod).value, dy_dt, yInitial, Bounds(tInitial, tFinal), stepSize, k)
    {
    }

    /** `solve`'s final time: tInitial + 20 * stepSize when it is not given
        (not a number, so no steps, when the step size is not given either). */
    function SolveFinal(stepSize: Option<real>, tFinal: Option<real>): (r: Option<real>)
      ensures tFinal.Some? ==> r == tFinal
      ensures tFinal.None? && stepSize.Some? ==> r == Some(tInitial + 20.0 * stepSize.value)
      ensures tFinal.None? && stepSize.None? ==> r.None?
    {
      if tFinal.Some? then tFinal
      else if stepSize.Some? then Some(tInitial + 20.0 * stepSize.value)
      else None
    }

    /** `solve`'s limit, 1000 when it is not given. */
    function SolveLimit(limit: Option<real>): (r: Option<real>)
      ensures limit.Some? ==> r == limit
      ensures limit.None? ==> r == Some(DefaultLimit) && Truthy(r)
    {
      if limit.Some? then limit else Some(DefaultLimit)
    }

    /** `solve`'s callback: the warning when none is given. */
    function SolveCallback(limitCallback: Callback<Sample, ()>): (r: Callback<Sample, ()>)
      ensures limitCallback.Omitted? ==> r == Fn(Warn)
      ensures !limitCallback.Omitted? ==> r == limitCallback
    {
      if limitCallback.Omitted? then Fn(Warn) else limitCallback
    }

    /** The pulls of `makeIterator` with `solve`'s defaults supplied. */
    function SolvePulls(rkMethod: MethodArg, stepSize: Option<real>, tFinal: Option<real>,
                        limit: Option<real>, limitCallback: Callback<Sample, ()>): nat -> Pull<Sample, ()>
      requires FieldOk(dy_dt) && ArgOk(rkMethod)
    {
      (k: nat) => MakeIteratorPull(rkMethod, stepSize, SolveFinal(stepSize, tFinal), SolveLimit(limit),
                                   SolveCallback(limitCallback), k)
    }

    /** `solve(rkMethod, stepSize, tFinal, limit, limitCallback)`: every
        sample of the generator, in order, or the exception it throws.
        `end` is a pull by which the generator has finished. */
    function Solve(rkMethod: MethodArg, stepSize: Option<real>, tFinal: Option<real>,
                   limit: Option<real>, limitCallback: Callback<Sample, ()>, end: nat): (r: Result<seq<Sample>, Error>)
      requires FieldOk(dy_dt) && ArgOk(rkMethod)
      requires !SolvePulls(rkMethod, stepSize, tFinal, limit, limitCallback)(end).Yield?
      ensures r.Ok? ==> forall i :: 0 <= i < |r.value| ==>
                          SolvePulls(rkMethod, stepSize, tFinal, limit, limitCallback)(i) == Yield(r.value[i])
      ensures r.Ok? ==> SolvePulls(rkMethod, stepSize, tFinal, limit, limitCallback)(|r.value|).Done?
      ensures r.Err? ==> exists j: nat :: && j <= end
                                     && SolvePulls(rkMethod, stepSize, tFinal, limit, limitCallback)(j) == Throw(r.error)
                                     && (forall i :: 0 <= i < j ==> SolvePulls(rkMethod, stepSize, tFinal, limit, limitCallback)(i).Yield?)
    {
      Spread(SolvePulls(rkMethod, stepSize, tFinal, limit, limitCallback), 0, end)
    }

    /** The array `solve` returns has at most `limit` entries (1000 by
        default) when the limit is truthy or not given. */
    lemma SolveWithinLimit(rkMethod: MethodArg, stepSize: Option<real>, tFinal: Option<real>,
                           limit: Option<real>, limitCallback: Callback<Sample, ()>, end: nat)
      requires FieldOk(dy_dt) && ArgOk(rkMethod) && (limit.None? || Truthy(limit))
      requires !SolvePulls(rkMethod, stepSize, tFinal, limit, limitCallback)(end).Yield?
      ensures var r := Solve(rkMethod, stepSize, tFinal, limit, limitCallback, end);
              r.Ok? ==> |r.value| <= SolveLimit(limit).value.Floor
    {
      var r := Solve(rkMethod, stepSize, tFinal, limit, limitCallback, end);
      if r.Ok? && |r.value| > 0 {
        var last := |r.value| - 1;
        assert SolvePulls(rkMethod, stepSize, tFinal, limit, limitCallback)(last).Yield?;
        LimitBounds(rkMethod, stepSize, SolveFinal(stepSize, tFinal), SolveLimit(limit),
                    SolveCallback(limitCallback), last);
      }
    }

    /** With a positive step the sample generator over twenty steps'
        worth of range yields 22 samples and then finishes. */
    lemma TwentyStepSamples(tab: Tableau, h: real, j: nat)
      requires Shaped(tab) && FieldOk(dy_dt) && Matches(dy_dt, yInitial) && h > 0.0
      ensures Samples(tab, Some(h), Some(tInitial + 20.0 * h))(j).Yield? <==> j <= 21
      ensures !Samples(tab, Some(h), Some(tInitial + 20.0 * h))(j).Yield? ==>
                Samples(tab, Some(h), Some(tInitial + 20.0 * h))(j) == Done(None)
    {
      TwentyStepsCount(tInitial, h);
      SampleCount(tab, dy_dt, yInitial, tInitial, tInitial + 20.0 * h, h, j);
    }

    /** Within the default limit of 1000 the wrapper hands on the samples:
        22 of them, and then the end. */
    lemma DefaultPull(rkMethod: MethodArg, h: real, limitCallback: Callback<Sample, ()>, j: nat)
      requires FieldOk(dy_dt) && ArgOk(rkMethod) && ResolveMethod(rkMethod).Ok? && Matches(dy_dt, yInitial)
      requires h > 0.0 && !limitCallback.NotFunction? && j <= 22
      ensures var q := SolvePulls(rkMethod, Some(h), None, None, limitCallback)(j);
              && (q.Yield? <==> j <= 21)
              && (q.Yield? ==> q == Samples(ResolveMethod(rkMethod).value, Some(h), Some(tInitial + 20.0 * h))(j))
              && (!q.Yield? ==> q.Done?)
    {
      var samples := Samples(ResolveMethod(rkMethod).value, Some(h), Some(tInitial + 20.0 * h));
      forall i: nat | i < j
        ensures samples(i).Yield?
      {
        TwentyStepSamples(ResolveMethod(rkMethod).value, h, i);
      }
      assert AllYield(samples, j);
      TwentyStepSamples(ResolveMethod(rkMethod).value, h, j);
    }

    /** With a positive step size and the default final time and limit,
        `solve` returns the initial sample and 21 steps: 22 samples. */
    lemma SolveDefaults(rkMethod: MethodArg, h: real, limitCallback: Callback<Sample, ()>)
      requires FieldOk(dy_dt) && ArgOk(rkMethod) && ResolveMethod(rkMethod).Ok? && Matches(dy_dt, yInitial)
      requires h > 0.0 && !limitCallback.NotFunction?
      ensures !SolvePulls(rkMethod, Some(h), None, None, limitCallback)(22).Yield?
      ensures var r := Solve(rkMethod, Some(h), None, None, limitCallback, 22);
              r.Ok? && |r.value| == 22
    {
      var samples := Samples(ResolveMethod(rkMethod).value, Some(h), Some(tInitial + 20.0 * h));
      var p := SolvePulls(rkMethod, Some(h), None, None, limitCallback);
      forall j: nat | j <= 22
        ensures p(j).Yield? <==> j <= 21
        ensures p(j).Yield? ==> p(j) == samples(j)
        ensures !p(j).Yield? ==> p(j).Done?
      {
        DefaultPull(rkMethod, h, limitCallback, j);
      }
      SpreadCollects(p, 0, 22, 22);
    }
  
    /** Entry i of that array is sample i of the sample generator over
        [tInitial, tInitial + 20 * stepSize]. */
    lemma SolveDefaultsEntry(rkMethod: MethodArg, h: real, limitCallback: Callback<Sample, ()>, i: nat)
      requires FieldOk(dy_dt) && ArgOk(rkMethod) && ResolveMethod(rkMethod).Ok? && Matches(dy_dt, yInitial)
      requires h > 0.0 && !limitCallback.NotFunction? && i < 22
      ensures !SolvePulls(rkMethod, Some(h), None, None, limitCallback)(22).Yield?
      ensures var r := Solve(rkMethod, Some(h), None, None, limitCallback, 22);
              && r.Ok? && |r.value| == 22
              && Yield(r.value[i]) == SamplePull(ResolveMethod(rkMethod).value, dy_dt, yInitial,
                                                 Bounds(tInitial, Some(tInitial + 20.0 * h)), Some(h), i)
    {
      SolveDefaults(rkMethod, h, limitCallback);
      DefaultPull(rkMethod, h, limitCallback, i);
    }
  }
}
