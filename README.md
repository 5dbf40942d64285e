# runge-kutta: explicit Runge-Kutta stepping, sample generators and bounded iteration

This project models the core of a small JavaScript library for ordinary
differential equations y'(t) = f(y(t), t). The model covers four parts:

- A Runge-Kutta method (`RungeKuttaMethod`) is a Butcher tableau. It has s
  stages, the nodes c_2 .. c_s, a lower-triangular matrix a_ij, and the
  weights b_1 .. b_s. It comes either from a preset name, which is not
  validated, or from four coefficient arguments, which are validated.
- `yNextScalar`, `yNextArray` and `yNext` take one explicit step from a
  number or from an array.
- `makeIterator` is a generator. It yields the initial sample and then one
  stepped sample per loop round, while the pre-step time stays at or below
  the final time.
- `limitIterable` wraps any iterator. It forwards `next()` arguments and
  stops after a given number of values, handing the held-back value to a
  callback.
- `InitialValueProblem` joins the pieces. Its `makeIterator` resolves the
  method, builds the sample generator over [tInitial, tFinal] and delegates
  to it, wrapped in `limitIterable` when the limit is truthy. Its `solve`
  collects every sample, supplying default arguments.

Modules:

- `Common`: options, results, the library's errors, and `Pull`. A `Pull` is
  what one `next()` call hands back: a value, the end with a return value,
  or an exception.
- `Butcher`: tableaux, `validate`, `getDefaults`, the constructor, and the
  exported Euler, midpoint and rk4 instances.
- `Stepping`: the step methods. Each one is a loop that grows the slope
  list and is proved equal to a specification function (`ScalarStep`,
  `VectorStep`). It also returns a ghost log of the derivative's calls.
- `Sampling`: the sample generator. `SamplePull(.., k)` is what pull k
  hands back. The class `SampleGenerator` runs the generator's body as a
  state machine, and its `Next` is proved to hand back exactly `SamplePull`.
- `Limiting`: `limitIterable`. `Limited(p, L, cb, k)` is pull k of the
  wrapper over an iterator whose pulls are `p`. The class `LimitIterator`
  runs the wrapper's body over a stateful `Source` and is proved to follow
  `Limited`. It also forwards arguments and pulls the source
  `SourcePulls` times.
- `Ivp`: the problem class, method resolution, `makeIterator` as its pull
  sequence, and `solve`.

Arithmetic is over exact reals. A derivative is either a scalar field
(real, time) -> real or a vector field (array, time) -> array. The first
stage reads `nodes[-1]`, so its time is the marker `NotANumber`.

## Model

| member | source | states |
|---|---|---|
| Butcher.RowError | src/utils/runge-kutta-method.js:94-111 | Row i raises no error exactly when it is an array of i + 1 entries summing to node i. |
| Butcher.CheckRowsPasses | src/utils/runge-kutta-method.js:94-111 | The row loop passes exactly when every row from the start row on is fine. |
| Butcher.CheckRowsFindsFirst | src/utils/runge-kutta-method.js:94-111 | A failing row loop reports a row error. It names the first failing row, with that row's first failing check, and every earlier row is fine. |
| Butcher.ValidateAccepts | src/utils/runge-kutta-method.js:72-129 | `validate` accepts exactly the admissible coefficients, whatever the weights sum to. The returned flag is the warning "weight sum is not 1". |
| Butcher.ValidateEarlyErrors | src/utils/runge-kutta-method.js:73-93 | Each check before the rows decides the error exactly when every earlier check holds: stage count, then node count, then node range, then matrix length. |
| Butcher.ValidateRowErrors | src/utils/runge-kutta-method.js:94-111 | Row i is blamed exactly when the earlier checks and rows pass. The error is then not an array, wrong length, or wrong sum, in that order. |
| Butcher.ValidateWeightErrors | src/utils/runge-kutta-method.js:112-120 | The weight-count and weight-range checks come last. Each decides exactly when everything before it holds. |
| Butcher.GetDefaults | src/utils/runge-kutta-method.js:54-70 | It succeeds exactly for "euler", "midpoint" and "rk4", and throws the unknown-name error otherwise. Every preset satisfies all validation constraints. |
| Butcher.Rk4Consistent | src/utils/runge-kutta-method.js:60-66 | The rk4 preset's rows [0.5], [0, 0.5] and [0, 0, 1] sum to its nodes, and its nodes and weights lie in [0, 1]. |
| Butcher.PresetWeightsSumToOne | src/utils/runge-kutta-method.js:54-66 | Over exact reals the weights of every preset sum to 1 (0.167 + 0.333 + 0.333 + 0.167 for rk4). |
| Butcher.FromRaw | src/utils/runge-kutta-method.js:45-51 | Admissible coefficients are stored exactly as given, and the stored tableau is consistent. |
| Butcher.NewMethod | src/utils/runge-kutta-method.js:40-52 | A name is looked up without validation: it fails exactly for unknown names, never warns, and holds the preset's tableau. Coefficients succeed exactly when admissible and are then kept as given. They fail with the first validation error, and warn exactly when the weight sum is not 1. |
| Stepping.AddArrays | src/utils/runge-kutta-method.js:1-3 | The result has the first array's length, and entry i is a[i] + b[i]. |
| Stepping.MultArray | src/utils/runge-kutta-method.js:9-11 | The result has the array's length, and entry i is scalar * arr[i]. |
| Stepping.Zeros | src/utils/runge-kutta-method.js:158 | The starting sum `y.map(() => 0)` has n entries, all 0. |
| Stepping.ScalarStageSum | src/utils/runge-kutta-method.js:134-136 | The inner reduce computes the weighted sum of the earlier slopes with row i - 1 of the matrix. |
| Stepping.ScalarSlopeAt | src/utils/runge-kutta-method.js:133-142 | Slope i is f at stage input i and stage time i, and later stages do not change earlier slopes. |
| Stepping.ScalarStage | src/utils/runge-kutta-method.js:133-142 | One round of the outer reduce appends exactly slope i and adds b_i * k_i to the weight sum. |
| Stepping.ScalarCalls | src/utils/runge-kutta-method.js:131-145 | A scalar step makes exactly n derivative calls. |
| Stepping.ScalarCallAt | src/utils/runge-kutta-method.js:138 | Derivative call i, in stage order, is made at y + h * akSum_i and at time t + h * c_i (not a number for the first stage). |
| Stepping.YNextScalar | src/utils/runge-kutta-method.js:131-145 | The returned value is y + h * sum of b_i * k_i, and the derivative is evaluated exactly numStages times, in stage order. |
| Stepping.VecShift | src/utils/runge-kutta-method.js:162 | `addArrays(y, multArray(a, h))` has y's length. |
| Stepping.VecAkSum | src/utils/runge-kutta-method.js:151-159 | The vector inner sum is as long as y. |
| Stepping.VectorSlopes | src/utils/runge-kutta-method.js:147-173 | A vector step computes n slopes, each at least as long as y. |
| Stepping.VectorStageSum | src/utils/runge-kutta-method.js:151-159 | The vector inner reduce computes the combination of the earlier slopes with row i - 1. |
| Stepping.VectorSlopeAt | src/utils/runge-kutta-method.js:161-165 | Vector slope i is f at vector stage input i and stage time i, and earlier slopes are unchanged. |
| Stepping.VectorStage | src/utils/runge-kutta-method.js:149-168 | One round of the vector outer reduce appends slope i and adds b_i * k_i to the vector sum. |
| Stepping.VectorCalls | src/utils/runge-kutta-method.js:147-173 | A vector step makes exactly n derivative calls. |
| Stepping.VectorCallAt | src/utils/runge-kutta-method.js:161-164 | Vector derivative call i is made at y + h * akSum_i and at time t + h * c_i. |
| Stepping.YNextArray | src/utils/runge-kutta-method.js:147-173 | The returned array is y + h * sum of b_i * k_i, and the derivative is evaluated exactly numStages times, in stage order. |
| Stepping.VectorStep | src/utils/runge-kutta-method.js:172 | A vector step keeps the length of y. |
| Stepping.StepState | src/utils/runge-kutta-method.js:175-179 | `yNext` keeps the kind of y (number or array) and the length of an array. |
| Stepping.YNext | src/utils/runge-kutta-method.js:175-179 | `yNext` returns the step of the state's own kind: the scalar step for a number, the array step for an array. |
| Stepping.ScalarStepZero | src/utils/runge-kutta-method.js:144 | With h = 0 a scalar step returns y, for any tableau. |
| Stepping.VecShiftZero | src/utils/runge-kutta-method.js:172 | Adding the zero multiple of any long-enough array leaves y unchanged. |
| Stepping.VectorStepZero | src/utils/runge-kutta-method.js:172 | With h = 0 a vector step returns y, for any tableau. |
| Stepping.EulerScalarStep | src/utils/runge-kutta-method.js:57 | With the Euler preset a scalar step is y + h * f(y, t1), where t1 is the first stage's not-a-number time. |
| Stepping.EulerDoubles | src/utils/runge-kutta-method.js:131-145 | Euler with f(y) = y, y = 1 and h = 1 gives 2. |
| Stepping.EulerVectorStep | src/utils/runge-kutta-method.js:147-173 | With the Euler preset, entry i of a vector step is y[i] + h * f(y, t1)[i]. |
| Sampling.ParseRange | src/utils/runge-kutta-method.js:193-202 | An array range is [tInitial, tFinal] and a number range is [0, tRange]. Anything else is the range error. |
| Sampling.LoopTimeIs | src/utils/runge-kutta-method.js:211 | Over exact reals the loop variable after k increments of `t += stepSize` is t0 + k * h. |
| Sampling.Trajectory | src/utils/runge-kutta-method.js:211-212 | The state after k loop steps keeps the derivative's kind and the initial length. |
| Sampling.RejectsRange | src/utils/runge-kutta-method.js:200-202 | A bad range throws at the first pull, before any sample, and the generator is then done. |
| Sampling.RejectsKind | src/utils/runge-kutta-method.js:204-208 | A derivative whose result kind differs from yInitial's throws at the first pull, and the generator is then done. |
| Sampling.FirstSample | src/utils/runge-kutta-method.js:210 | The first sample is (tInitial, yInitial). |
| Sampling.NextSample | src/utils/runge-kutta-method.js:209-214 | Each later sample is one `yNext` step from the previous sample's state. It is taken from, and labelled with, the pre-step time. The labels run t0, t0, t0 + h, and so on. |
| Sampling.RunningPrefix | src/utils/runge-kutta-method.js:211 | If the loop has run round k, it has run every earlier round. |
| Sampling.RunningIffBelow | src/utils/runge-kutta-method.js:211 | For h >= 0 the loop runs round k exactly when round k's time is at or below tFinal. |
| Sampling.CountArith | src/utils/runge-kutta-method.js:211 | For h > 0, t0 + k * h <= tFinal exactly when k is less than floor((tFinal - t0) / h) + 1, or less than 0 when tFinal < t0. |
| Sampling.RunningIffCount | src/utils/runge-kutta-method.js:211 | For h > 0 the loop runs exactly StepCount rounds. |
| Sampling.SampleCount | src/utils/runge-kutta-method.js:209-214 | For h > 0 pull k yields exactly when k <= StepCount, which gives floor((tFinal - t0) / h) + 2 samples, or only the initial one when tFinal < t0. Every later pull reports done with no value. |
| Sampling.TwentyStepsCount | src/utils/initial-value-problem.js:43 | A final time of t0 + 20h gives 21 loop rounds. |
| Sampling.Unbounded | src/utils/runge-kutta-method.js:211 | With h <= 0 and t0 <= tFinal the loop condition holds forever. |
| Sampling.NoFinalTime | src/utils/runge-kutta-method.js:211 | With an undefined final time the loop never runs, so only the initial sample comes. |
| Sampling.StoppedStays | src/utils/runge-kutta-method.js:181-215 | A finished generator reports done with no value on every later pull. |
| Sampling.TrajectoryStep | src/utils/runge-kutta-method.js:212 | Step k of the trajectory is `yNext` from round k - 1's time and state. |
| Sampling.LoopContinues | src/utils/runge-kutta-method.js:211-213 | When round k - 1's time passes the test, pull k yields (that time, state after k steps). |
| Sampling.LoopStops | src/utils/runge-kutta-method.js:211 | When the test fails, pull k reports done and the generator stays finished. |
| Sampling.SampleGenerator.constructor | src/utils/runge-kutta-method.js:181-187 | A generator object stores its arguments and has not run any of its body. |
| Sampling.SampleGenerator.Next | src/utils/runge-kutta-method.js:181-215 | Every `next()` hands back exactly `SamplePull` of its pull index and keeps the generator's invariant. |
| Sampling.SampleGenerator.Start | src/utils/runge-kutta-method.js:193-210 | The first `next()` reads the range, checks the result kind, and stops at the initial yield. |
| Sampling.SampleGenerator.Resume | src/utils/runge-kutta-method.js:211 | A later `next()` enters the loop with t = tInitial, or advances t by the step size, and then runs one round. |
| Sampling.SampleGenerator.Round | src/utils/runge-kutta-method.js:211-214 | One round tests t <= tFinal and then either steps and yields, or finishes. |
| Sampling.SampleGenerator.StepRound | src/utils/runge-kutta-method.js:212-213 | The loop body replaces y with `yNext(dy_dt, t, y, stepSize)` and yields { t, y }. |
| Limiting.CheckLimitArgs | src/utils/limit-iterable.js:13-23 | Validation passes exactly for an iterable, an integer limit of at least 1, and an absent or function callback. The first failing check gives the error, in the order iterable, limit, callback: a non-function callback after the first two checks pass gives the callback error. |
| Limiting.SourcePulls | src/utils/limit-iterable.js:28-34 | During the first k pulls the wrapper pulls the iterator at most k times. |
| Limiting.SourcePullsWhileActive | src/utils/limit-iterable.js:28-33 | While the body runs, each wrapper pull has pulled the iterator exactly once. |
| Limiting.YieldsBelowLimit | src/utils/limit-iterable.js:30-31 | A yielded value comes only before the limit, and it is the iterator's value of the same pull. |
| Limiting.SourcePullsBound | src/utils/limit-iterable.js:28-34 | The iterator is never pulled more than limit + 1 times. |
| Limiting.EndsForGood | src/utils/limit-iterable.js:35-42 | Once the wrapper hands back a return or an exception, every later pull is done with no value and stops pulling the iterator. |
| Limiting.ListAllYield | src/utils/limit-iterable.js:30 | A finite iterator yields at its first k pulls exactly when k is at most its length. |
| Limiting.ListPrefix | src/utils/limit-iterable.js:28-34 | Over n items the wrapper yields exactly the first min(n, limit) items, in order. |
| Limiting.ListNoEarlyStop | src/utils/limit-iterable.js:30-37 | If n <= limit (also n = limit) the callback is not called, and the wrapper returns the iterator's return value. |
| Limiting.ListEarlyStop | src/utils/limit-iterable.js:38-41 | If n > limit, the callback's call with the held-back item `limit` and count `limit` ends the wrapper. An absent callback makes that call throw. |
| Limiting.ListAfterEnd | src/utils/limit-iterable.js:35-42 | After its end the wrapper reports done with no value. |
| Limiting.ListSourcePulls | src/utils/limit-iterable.js:28-34 | After k pulls of the wrapper over n items, the iterator has been pulled min(k, min(n, limit) + 1) times. |
| Limiting.Source.constructor | src/utils/limit-iterable.js:26 | A fresh iterator has been pulled zero times. |
| Limiting.Source.Next | src/utils/limit-iterable.js:28-32 | A pull hands back the next result and records the argument it was given. |
| Limiting.LimitIterator.constructor | src/utils/limit-iterable.js:25-26 | The wrapper starts unstarted, remembering the iterator's pull count. |
| Limiting.LimitIterator.Next | src/utils/limit-iterable.js:25-42 | Each `next(arg)` hands back exactly `Limited` of its pull index. The first pull sends the iterator no argument, later ones forward `arg`, and after the end the iterator is left alone. |
| Limiting.LimitIterable | src/utils/limit-iterable.js:1-24 | The arguments are checked before the iterator is touched. An error is the first failing check; success is a fresh, unstarted wrapper over the iterator. |
| Ivp.ResolveMethod | src/utils/initial-value-problem.js:21-29 | An instance is used as given and a string is resolved through the preset catalog, where an unknown name fails. Anything else is rejected. |
| Ivp.Delegated | src/utils/initial-value-problem.js:37 | `yield*` passes values and exceptions through unchanged but drops the inner return value. |
| Ivp.Spread | src/utils/initial-value-problem.js:50-52 | The spread array holds the yielded values in pull order, up to the pull that ends the iteration. On an exception the error is that of a pull that threw, after every earlier pull yielded. |
| Ivp.SpreadCollects | src/utils/initial-value-problem.js:50-52 | When pulls from .. m - 1 yield and pull m ends, the array has m - from entries. |
| Ivp.InitialValueProblem.constructor | src/utils/initial-value-problem.js:7-17 | The fields are stored, tInitial defaults to 0, and numDimensions is 1 for a number and the length for an array. |
| Ivp.InitialValueProblem.RejectsMethod | src/utils/initial-value-problem.js:19-29 | An unresolvable method throws at the first pull, and the generator is then done. |
| Ivp.InitialValueProblem.StartsAtInitial | src/utils/initial-value-problem.js:31-37 | The first sample is (tInitial, yInitial): the range passed on is [tInitial, tFinal]. |
| Ivp.InitialValueProblem.RejectsLimit | src/utils/initial-value-problem.js:37 | A truthy limit that is not an integer of at least 1, or a non-function callback, throws at the first pull. |
| Ivp.InitialValueProblem.UnlimitedNeverEnds | src/utils/initial-value-problem.js:37 | With a falsy limit the samples are unbounded: for h <= 0 and tInitial <= tFinal every pull yields. |
| Ivp.InitialValueProblem.LimitBounds | src/utils/initial-value-problem.js:37 | With a truthy limit L, samples are yielded only at pulls below L, and they are the raw samples. |
| Ivp.InitialValueProblem.SolveFinal | src/utils/initial-value-problem.js:43 | tFinal defaults to tInitial + 20 * stepSize. It is not a number (no steps) when stepSize is absent. |
| Ivp.InitialValueProblem.SolveLimit | src/utils/initial-value-problem.js:44 | The limit defaults to 1000; a given limit is kept. |
| Ivp.InitialValueProblem.SolveCallback | src/utils/initial-value-problem.js:45-48 | The callback defaults to the warning; a given callback is kept. |
| Ivp.InitialValueProblem.Solve | src/utils/initial-value-problem.js:40-53 | The returned array holds every value that `makeIterator`, called with `solve`'s defaults, yields, in order. The pull after the last entry ends the generator. An exception is the one the first non-yielding pull throws. |
| Ivp.InitialValueProblem.SolveWithinLimit | src/utils/initial-value-problem.js:40-53 | With the default or a truthy limit, `solve` returns at most `limit` entries. |
| Ivp.InitialValueProblem.TwentyStepSamples | src/utils/initial-value-problem.js:43 | With h > 0 and the default final time the sample generator yields at pulls 0 .. 21 and is then done. |
| Ivp.InitialValueProblem.DefaultPull | src/utils/initial-value-problem.js:43-52 | Within the default limit, `solve`'s generator hands on those samples and then ends. |
| Ivp.InitialValueProblem.SolveDefaults | src/utils/initial-value-problem.js:40-53 | With h > 0 and the default tFinal and limit, `solve` returns 22 entries: the initial sample and 21 steps. |
| Ivp.InitialValueProblem.SolveDefaultsEntry | src/utils/initial-value-problem.js:40-53 | In that case entry i is the sample generator's sample i over [tInitial, tInitial + 20h]. |

## Left out

- IEEE-754 arithmetic. Everything is over exact reals. The exact `!==`
  comparisons of row sums and of the weight sum are exact real comparisons.
  The drift of `t += stepSize` and the rounding of the rk4 weights are not
  modelled, so the sample counts hold over exact reals.
- NaN and infinities as arguments. A non-numeric stage count, node, weight
  or limit is not represented. The only not-a-number value is the first
  stage's time, and an undefined final time behaves like it (t <= NaN is
  false).
- Derivatives whose result kind depends on their input are left out: a
  derivative is either scalar or vector for all inputs.
- Short vector results are left out. A vector derivative must return
  arrays at least as long as its argument (`FieldOk`); JavaScript would
  produce NaN entries otherwise. Lengths are never compared by the code
  either.
- Exceptions thrown by the derivative or by a callback are not modelled.
- Stepping.YNextScalar / Stepping.YNextArray: the ghost call log records
  the derivative's arguments; the derivative itself is a pure function.
  Side effects of a JavaScript derivative are not modelled.
- Limiting.LimitIterator.Next: the callback gets the held-back value and
  the count, but not the iterator. Pulls the callback makes on the
  iterator are not modelled.
- Limiting.Source: the iterator's results do not depend on the arguments
  it receives. The arguments are recorded, so forwarding is proved, but
  their effect on the values is not modelled.
- Limiting.LimitIterable: a non-iterable first argument is `null`.
  Strings and other built-in iterables are not modelled, so `isIterable`
  is the test `iterable != null`.
- Ranges given as arrays of another length than two, and range entries
  that are not numbers, are not modelled.
- Ivp.InitialValueProblem.MakeIteratorPull: the delegating generator is
  modelled as its pull sequence rather than as a class with a `Next`
  method. The sample generator and the limit wrapper beneath it have
  their state machines proved equal to these sequences. Arguments sent
  into the outer `next()` are not modelled at this level.
- Ivp.InitialValueProblem.Solve: it takes a pull index by which the
  generator has ended, because the spread of a generator that never
  finishes does not terminate (h <= 0 with a falsy limit).
- The warnings (`console.warn`) become a returned flag for the weight sum
  and a callback returning `undefined` for `solve`. The printed text is
  not modelled.
- `src/sketch.js` (canvas drawing and logging) and `webpack.config.js`
  (build configuration) are not part of this model.
