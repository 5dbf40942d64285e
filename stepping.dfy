/** One explicit Runge-Kutta step, for a scalar state and for a vector
    state: the stage slopes k_1 .. k_s, each evaluated at the state plus
    h times a combination of the earlier slopes, and the new state
    y + h * (b_1 k_1 + ... + b_s k_s). Arithmetic is over exact reals. */
module Stepping {
  import opened Butcher

  /** The state of the system: one number, or an array of numbers. */
  datatype State = Scalar(x: real) | Vec(v: seq<real>)

  /** The time handed to the derivative. The first stage reads the
      missing node before c_2, so its time is not a number. */
  datatype Time = NotANumber | At(value: real)

  /** The caller's derivative f(y, t). Its result is a number for every
      scalar argument, or an array for every array argument. */
  datatype Field =
    | ScalarField(fs: (real, Time) -> real)
    | VectorField(fv: (seq<real>, Time) -> seq<real>)

  /** The derivative's result kind is the kind of the state. */
  predicate Matches(field: Field, y: State) {
    field.ScalarField? <==> y.Scalar?
  }

  /** A vector derivative gives at least one entry per entry of its argument. */
  ghost predicate Covers(fv: (seq<real>, Time) -> seq<real>) {
    forall v, t :: |v| <= |fv(v, t)|
  }

  ghost predicate FieldOk(field: Field) {
    field.VectorField? ==> Covers(field.fv)
  }

  // ---------------------------------------------------------------------
  // Array arithmetic
  // ---------------------------------------------------------------------

  /** Entry-wise sum, mapped over the first argument: the result is as
      long as `a`, and entries of `b` past that length are ignored. */
  function AddArrays(a: seq<real>, b: seq<real>): (r: seq<real>)
    requires |a| <= |b|
    ensures |r| == |a|
    ensures forall i :: 0 <= i < |a| ==> r[i] == a[i] + b[i]
  {
    seq(|a|, i requires 0 <= i < |a| => a[i] + b[i])
  }

  /** Every entry scaled by `scalar`. */
  function MultArray(arr: seq<real>, scalar: real): (r: seq<real>)
    ensures |r| == |arr|
    ensures forall i :: 0 <= i < |arr| ==> r[i] == scalar * arr[i]
  {
    seq(|arr|, i requires 0 <= i < |arr| => scalar * arr[i])
  }

  /** An array of n zeros, as `y.map(() => 0)` builds it. */
  function Zeros(n: nat): (z: seq<real>)
    ensures |z| == n
    ensures forall i :: 0 <= i < n ==> z[i] == 0.0
  {
    seq(n, _ => 0.0)
  }

  // ---------------------------------------------------------------------
  // Stage times and scalar steps
  // ---------------------------------------------------------------------

  /** The time of stage i (counted from 0): t + h * c_(i+1), where the
      first stage reads the node before the first stored one. */
  function StageTime(tab: Tableau, t: real, h: real, i: nat): Time
    requires Shaped(tab) && i < tab.numStages
  {
    if i == 0 then NotANumber else At(t + h * tab.nodes[i - 1])
  }

  /** c[0] * ks[0] + ... + c[n-1] * ks[n-1], accumulated from the left. */
  function Dot(c: seq<real>, ks: seq<real>, n: nat): real
    requires n <= |c| && n <= |ks|
  {
    if n == 0 then 0.0 else Dot(c, ks, n - 1) + c[n - 1] * ks[n - 1]
  }

  /** y + h * a. */
  function Shift(y: real, h: real, a: real): real {
    y + h * a
  }

  /** The combination of the earlier slopes that stage i adds to y. */
  function AkSum(tab: Tableau, ks: seq<real>, i: nat): real
    requires Shaped(tab) && i < tab.numStages && i <= |ks|
  {
    if i == 0 then 0.0 else Dot(tab.rkMatrix[i - 1], ks, i)
  }

  /** The first n slopes of a scalar step: each one is the derivative at
      the state shifted by the earlier slopes, at the stage's time. */
  function ScalarSlopes(tab: Tableau, f: (real, Time) -> real, t: real, y: real, h: real, n: nat): (ks: seq<real>)
    requires Shaped(tab) && n <= tab.numStages
    ensures |ks| == n
    decreases n, 0
  {
    if n == 0 then []
    else ScalarSlopes(tab, f, t, y, h, n - 1) + [f(ScalarStageInput(tab, f, t, y, h, n - 1), StageTime(tab, t, h, n - 1))]
  }

  /** The state at which stage i evaluates the derivative: y shifted by
      the slopes before stage i, weighted by row i of the matrix. */
  function ScalarStageInput(tab: Tableau, f: (real, Time) -> real, t: real, y: real, h: real, i: nat): real
    requires Shaped(tab) && i < tab.numStages
    decreases i, 1
  {
    Shift(y, h, AkSum(tab, ScalarSlopes(tab, f, t, y, h, i), i))
  }

  /** y + h * (b_1 k_1 + ... + b_s k_s) for a scalar state. */
  function ScalarStep(tab: Tableau, f: (real, Time) -> real, t: real, y: real, h: real): real
    requires Shaped(tab)
  {
    Shift(y, h, Dot(tab.weights, ScalarSlopes(tab, f, t, y, h, tab.numStages), tab.numStages))
  }

  /** A dot product over the first n entries ignores what follows them. */
  lemma {:induction false} DotPrefix(c: seq<real>, ks: seq<real>, more: seq<real>, n: nat)
    requires n <= |c| && n <= |ks|
    ensures Dot(c, ks + more, n) == Dot(c, ks, n)
  {
    if n > 0 {
      DotPrefix(c, ks, more, n - 1);
    }
  }

  /** Stage order: computing more slopes never changes the earlier ones,
      and slope i is the derivative at stage i's input and time, so it
      uses only the slopes before it. */
  lemma {:induction false} ScalarSlopeAt(tab: Tableau, f: (real, Time) -> real, t: real, y: real, h: real, n: nat, i: nat)
    requires Shaped(tab) && i < n <= tab.numStages
    ensures ScalarSlopes(tab, f, t, y, h, n)[..i] == ScalarSlopes(tab, f, t, y, h, i)
    ensures ScalarSlopes(tab, f, t, y, h, n)[i] == f(ScalarStageInput(tab, f, t, y, h, i), StageTime(tab, t, h, i))
  {
    if i < n - 1 {
      ScalarSlopeAt(tab, f, t, y, h, n - 1, i);
      var prev := ScalarSlopes(tab, f, t, y, h, n - 1);
      assert ScalarSlopes(tab, f, t, y, h, n)[..n - 1] == prev;
      assert ScalarSlopes(tab, f, t, y, h, n)[..i] == prev[..i];
    } else {
      assert ScalarSlopes(tab, f, t, y, h, n)[..i] == ScalarSlopes(tab, f, t, y, h, i);
    }
  }

  /** The inner reduce of a scalar step: the earlier slopes summed with
      the row of stage i. */
  method ScalarStageSum(tab: Tableau, slopes: seq<real>, i: nat) returns (akSum: real)
    requires Shaped(tab) && i < tab.numStages && |slopes| == i
    ensures akSum == AkSum(tab, slopes, i)
  {
    akSum := 0.0;
    var j := 0;
    while j < |slopes|
      invariant 0 <= j <= |slopes| == i
      invariant i > 0 ==> akSum == Dot(tab.rkMatrix[i - 1], slopes, j)
      invariant i == 0 ==> akSum == 0.0
    {
      akSum := akSum + tab.rkMatrix[i - 1][j] * slopes[j];
      j := j + 1;
    }
  }

  /** The arguments of the first n derivative calls of a scalar step, in
      stage order. */
  ghost function ScalarCalls(tab: Tableau, f: (real, Time) -> real, t: real, y: real, h: real, n: nat)
    : (calls: seq<(real, Time)>)
    requires Shaped(tab) && n <= tab.numStages
    ensures |calls| == n
  {
    if n == 0 then []
    else ScalarCalls(tab, f, t, y, h, n - 1) + [(ScalarStageInput(tab, f, t, y, h, n - 1), StageTime(tab, t, h, n - 1))]
  }

  /** Call i of a step is made at stage i's input and time. */
  lemma {:induction false} ScalarCallAt(tab: Tableau, f: (real, Time) -> real, t: real, y: real, h: real, n: nat, i: nat)
    requires Shaped(tab) && i < n <= tab.numStages
    ensures ScalarCalls(tab, f, t, y, h, n)[i] == (ScalarStageInput(tab, f, t, y, h, i), StageTime(tab, t, h, i))
  {
    if i < n - 1 {
      ScalarCallAt(tab, f, t, y, h, n - 1, i);
    }
  }

  /** One scalar step, as the source computes it: the outer reduce runs
      one stage per round, pushing each slope after summing the earlier
      ones with the row of the matrix. The ghost `evaluated` lists the
      arguments of every derivative call, in the order made. */
  method YNextScalar(tab: Tableau, f: (real, Time) -> real, t: real, y: real, h: real)
    returns (yNext: real, ghost evaluated: seq<(real, Time)>)
    requires Shaped(tab)
    ensures yNext == ScalarStep(tab, f, t, y, h)
    ensures evaluated == ScalarCalls(tab, f, t, y, h, tab.numStages)
  {
    var slopes: seq<real> := [];
    var bkSum := 0.0;
    evaluated := [];
    var i := 0;
    while i < tab.numStages
      invariant 0 <= i <= tab.numStages
      invariant slopes == ScalarSlopes(tab, f, t, y, h, i)
      invariant bkSum == Dot(tab.weights, slopes, i)
      invariant evaluated == ScalarCalls(tab, f, t, y, h, i)
    {
      var k, input;
      k, input, bkSum := ScalarStage(tab, f, t, y, h, slopes, bkSum, i);
      evaluated := evaluated + [(input, StageTime(tab, t, h, i))];
      slopes := slopes + [k];
      i := i + 1;
    }
    yNext := Shift(y, h, bkSum);
  }

  /** Round i of the outer reduce of a scalar step: the derivative at the
      shifted state, pushed as slope i and added, weighted, to the sum. */
  method ScalarStage(tab: Tableau, f: (real, Time) -> real, t: real, y: real, h: real,
                     slopes: seq<real>, sum: real, i: nat)
    returns (k: real, input: real, sum': real)
    requires Shaped(tab) && i < tab.numStages
    requires slopes == ScalarSlopes(tab, f, t, y, h, i) && sum == Dot(tab.weights, slopes, i)
    ensures input == ScalarStageInput(tab, f, t, y, h, i)
    ensures slopes + [k] == ScalarSlopes(tab, f, t, y, h, i + 1)
    ensures sum' == Dot(tab.weights, slopes + [k], i + 1)
  {
    var akSum := ScalarStageSum(tab, slopes, i);
    input := Shift(y, h, akSum);
    k := f(input, StageTime(tab, t, h, i));
    DotPrefix(tab.weights, slopes, [k], i);
    sum' := sum + tab.weights[i] * (slopes + [k])[i];
  }

  // ---------------------------------------------------------------------
  // Vector steps
  // ---------------------------------------------------------------------

  /** y + h * a on arrays, as long as y. */
  function VecShift(y: seq<real>, h: real, a: seq<real>): (r: seq<real>)
    requires |y| <= |a|
    ensures |r| == |y|
  {
    AddArrays(y, MultArray(a, h))
  }

  predicate LongEnough(ks: seq<seq<real>>, n: nat, len: nat)
    requires n <= |ks|
  {
    forall j :: 0 <= j < n ==> len <= |ks[j]|
  }

  /** c[0] * ks[0] + ... + c[n-1] * ks[n-1] on arrays of length `len`,
      accumulated from the left starting at zeros. */
  function Combo(c: seq<real>, ks: seq<seq<real>>, n: nat, len: nat): (r: seq<real>)
    requires n <= |c| && n <= |ks| && LongEnough(ks, n, len)
    ensures |r| == len
  {
    if n == 0 then Zeros(len)
    else AddArrays(Combo(c, ks, n - 1, len), MultArray(ks[n - 1], c[n - 1]))
  }

  /** The combination of the earlier slopes that stage i adds to y. */
  function VecAkSum(tab: Tableau, ks: seq<seq<real>>, i: nat, len: nat): (r: seq<real>)
    requires Shaped(tab) && i < tab.numStages && i <= |ks| && LongEnough(ks, i, len)
    ensures |r| == len
  {
    if i == 0 then Zeros(len) else Combo(tab.rkMatrix[i - 1], ks, i, len)
  }

  /** The first n slopes of a vector step; each is at least as long as y. */
  function VectorSlopes(tab: Tableau, fv: (seq<real>, Time) -> seq<real>, t: real, y: seq<real>, h: real, n: nat)
    : (ks: seq<seq<real>>)
    requires Shaped(tab) && Covers(fv) && n <= tab.numStages
    ensures |ks| == n && LongEnough(ks, n, |y|)
    decreases n, 0
  {
    if n == 0 then []
    else VectorSlopes(tab, fv, t, y, h, n - 1) + [fv(VectorStageInput(tab, fv, t, y, h, n - 1), StageTime(tab, t, h, n - 1))]
  }

  /** The state at which stage i evaluates the derivative. */
  function VectorStageInput(tab: Tableau, fv: (seq<real>, Time) -> seq<real>, t: real, y: seq<real>, h: real, i: nat)
    : seq<real>
    requires Shaped(tab) && Covers(fv) && i < tab.numStages
    decreases i, 1
  {
    VecShift(y, h, VecAkSum(tab, VectorSlopes(tab, fv, t, y, h, i), i, |y|))
  }

  /** y + h * (b_1 k_1 + ... + b_s k_s) for a vector state. Its length is
      y's, because the sums are mapped over their first argument. */
  function VectorStep(tab: Tableau, fv: (seq<real>, Time) -> seq<real>, t: real, y: seq<real>, h: real): (r: seq<real>)
    requires Shaped(tab) && Covers(fv)
    ensures |r| == |y|
  {
    var ks := VectorSlopes(tab, fv, t, y, h, tab.numStages);
    VecShift(y, h, Combo(tab.weights, ks, tab.numStages, |y|))
  }

  /** A combination of the first n arrays ignores what follows them. */
  lemma {:induction false} ComboPrefix(c: seq<real>, ks: seq<seq<real>>, more: seq<seq<real>>, n: nat, len: nat)
    requires n <= |c| && n <= |ks| && LongEnough(ks, n, len)
    ensures LongEnough(ks + more, n, len)
    ensures Combo(c, ks + more, n, len) == Combo(c, ks, n, len)
  {
    assert forall j :: 0 <= j < n ==> (ks + more)[j] == ks[j];
    if n > 0 {
      ComboPrefix(c, ks, more, n - 1, len);
    }
  }

  /** Stage order for vector steps, as ScalarSlopeAt states it for scalars. */
  lemma {:induction false} VectorSlopeAt(tab: Tableau, fv: (seq<real>, Time) -> seq<real>, t: real, y: seq<real>, h: real, n: nat, i: nat)
    requires Shaped(tab) && Covers(fv) && i < n <= tab.numStages
    ensures VectorSlopes(tab, fv, t, y, h, n)[..i] == VectorSlopes(tab, fv, t, y, h, i)
    ensures VectorSlopes(tab, fv, t, y, h, n)[i] == fv(VectorStageInput(tab, fv, t, y, h, i), StageTime(tab, t, h, i))
  {
    if i < n - 1 {
      VectorSlopeAt(tab, fv, t, y, h, n - 1, i);
      var prev := VectorSlopes(tab, fv, t, y, h, n - 1);
      assert VectorSlopes(tab, fv, t, y, h, n)[..n - 1] == prev;
      assert VectorSlopes(tab, fv, t, y, h, n)[..i] == prev[..i];
    } else {
      assert VectorSlopes(tab, fv, t, y, h, n)[..i] == VectorSlopes(tab, fv, t, y, h, i);
    }
  }

  /** The inner reduce of a vector step: the earlier slopes summed with
      the row of stage i, starting from zeros of y's length. */
  method VectorStageSum(tab: Tableau, slopes: seq<seq<real>>, i: nat, len: nat) returns (akSum: seq<real>)
    requires Shaped(tab) && i < tab.numStages && |slopes| == i && LongEnough(slopes, i, len)
    ensures akSum == VecAkSum(tab, slopes, i, len)
  {
    akSum := Zeros(len);
    var j := 0;
    while j < |slopes|
      invariant 0 <= j <= |slopes| == i
      invariant i > 0 ==> akSum == Combo(tab.rkMatrix[i - 1], slopes, j, len)
      invariant i == 0 ==> akSum == Zeros(len)
    {
      akSum := AddArrays(akSum, MultArray(slopes[j], tab.rkMatrix[i - 1][j]));
      j := j + 1;
    }
  }

  /** The arguments of the first n derivative calls of a vector step, in
      stage order. */
  ghost function VectorCalls(tab: Tableau, fv: (seq<real>, Time) -> seq<real>, t: real, y: seq<real>, h: real, n: nat)
    : (calls: seq<(seq<real>, Time)>)
    requires Shaped(tab) && Covers(fv) && n <= tab.numStages
    ensures |calls| == n
  {
    if n == 0 then []
    else VectorCalls(tab, fv, t, y, h, n - 1) + [(VectorStageInput(tab, fv, t, y, h, n - 1), StageTime(tab, t, h, n - 1))]
  }

  /** Call i of a step is made at stage i's input and time. */
  lemma {:induction false} VectorCallAt(tab: Tableau, fv: (seq<real>, Time) -> seq<real>, t: real, y: seq<real>, h: real, n: nat, i: nat)
    requires Shaped(tab) && Covers(fv) && i < n <= tab.numStages
    ensures VectorCalls(tab, fv, t, y, h, n)[i] == (VectorStageInput(tab, fv, t, y, h, i), StageTime(tab, t, h, i))
  {
    if i < n - 1 {
      VectorCallAt(tab, fv, t, y, h, n - 1, i);
    }
  }

  /** After i rounds of a vector step: the slopes so far, their weighted
      sum, and the derivative calls made. */
  ghost predicate VectorProgress(tab: Tableau, fv: (seq<real>, Time) -> seq<real>, t: real, y: seq<real>, h: real,
                                 i: nat, slopes: seq<seq<real>>, sum: seq<real>, calls: seq<(seq<real>, Time)>)
    requires Shaped(tab) && Covers(fv)
  {
    i <= tab.numStages &&
    slopes == VectorSlopes(tab, fv, t, y, h, i) &&
    sum == Combo(tab.weights, slopes, i, |y|) &&
    calls == VectorCalls(tab, fv, t, y, h, i)
  }

  /** One vector step, as the source computes it with array sums: the
      outer reduce runs one stage per round. The ghost `evaluated` lists
      the arguments of every derivative call, in the order made. */
  method YNextArray(tab: Tableau, fv: (seq<real>, Time) -> seq<real>, t: real, y: seq<real>, h: real)
    returns (yNext: seq<real>, ghost evaluated: seq<(seq<real>, Time)>)
    requires Shaped(tab) && Covers(fv)
    ensures yNext == VectorStep(tab, fv, t, y, h)
    ensures evaluated == VectorCalls(tab, fv, t, y, h, tab.numStages)
  {
    var slopes: seq<seq<real>> := [];
    var bkSum := Zeros(|y|);
    evaluated := [];
    var i := 0;
    while i < tab.numStages
      invariant VectorProgress(tab, fv, t, y, h, i, slopes, bkSum, evaluated)
    {
      var k, input;
      k, input, bkSum := VectorStage(tab, fv, t, y, h, slopes, bkSum, i);
      evaluated := evaluated + [(input, StageTime(tab, t, h, i))];
      slopes := slopes + [k];
      i := i + 1;
    }
    yNext := VecShift(y, h, bkSum);
  }

  /** Round i of the outer reduce of a vector step. */
  method VectorStage(tab: Tableau, fv: (seq<real>, Time) -> seq<real>, t: real, y: seq<real>, h: real,
                     slopes: seq<seq<real>>, sum: seq<real>, i: nat)
    returns (k: seq<real>, input: seq<real>, sum': seq<real>)
    requires Shaped(tab) && Covers(fv) && i < tab.numStages
    requires slopes == VectorSlopes(tab, fv, t, y, h, i) && sum == Combo(tab.weights, slopes, i, |y|)
    ensures input == VectorStageInput(tab, fv, t, y, h, i)
    ensures slopes + [k] == VectorSlopes(tab, fv, t, y, h, i + 1)
    ensures sum' == Combo(tab.weights, slopes + [k], i + 1, |y|)
  {
    var akSum := VectorStageSum(tab, slopes, i, |y|);
    input := VecShift(y, h, akSum);
    k := fv(input, StageTime(tab, t, h, i));
    ComboPrefix(tab.weights, slopes, [k], i, |y|);
    sum' := AddArrays(sum, MultArray((slopes + [k])[i], tab.weights[i]));
  }

  // ---------------------------------------------------------------------
  // The dispatching step
  // ---------------------------------------------------------------------

  /** One step of either kind: the scalar path exactly for a number. */
  function StepState(tab: Tableau, field: Field, t: real, y: State, h: real): (r: State)
    requires Shaped(tab) && FieldOk(field) && Matches(field, y)
    ensures r.Scalar? <==> y.Scalar?
    ensures r.Vec? ==> |r.v| == |y.v|
  {
    match y
    case Scalar(x) => Scalar(ScalarStep(tab, field.fs, t, x, h))
    case Vec(v) => Vec(VectorStep(tab, field.fv, t, v, h))
  }

  method YNext(tab: Tableau, field: Field, t: real, y: State, h: real) returns (r: State)
    requires Shaped(tab) && FieldOk(field) && Matches(field, y)
    ensures r == StepState(tab, field, t, y, h)
  {
    if y.Scalar? {
      var x, _ := YNextScalar(tab, field.fs, t, y.x, h);
      r := Scalar(x);
    } else {
      var v, _ := YNextArray(tab, field.fv, t, y.v, h);
      r := Vec(v);
    }
  }

  // ---------------------------------------------------------------------
  // Properties of a step
  // ---------------------------------------------------------------------

  /** With a zero step size a scalar step returns y unchanged. */
  lemma ScalarStepZero(tab: Tableau, f: (real, Time) -> real, t: real, y: real)
    requires Shaped(tab)
    ensures ScalarStep(tab, f, t, y, 0.0) == y
  {
  }

  /** With a zero step size a vector step returns y unchanged. */
  lemma VectorStepZero(tab: Tableau, fv: (seq<real>, Time) -> seq<real>, t: real, y: seq<real>)
    requires Shaped(tab) && Covers(fv)
    ensures VectorStep(tab, fv, t, y, 0.0) == y
  {
    VecShiftZero(y, Combo(tab.weights, VectorSlopes(tab, fv, t, y, 0.0, tab.numStages), tab.numStages, |y|));
  }

  lemma VecShiftZero(y: seq<real>, a: seq<real>)
    requires |y| <= |a|
    ensures VecShift(y, 0.0, a) == y
  {
    assert forall i :: 0 <= i < |y| ==> VecShift(y, 0.0, a)[i] == y[i];
  }

  /** The Euler preset takes one slope, at the state itself: the step is
      y + h * f(y, t) (with the time of the first stage). */
  lemma EulerScalarStep(f: (real, Time) -> real, t: real, y: real, h: real)
    ensures ScalarStep(EulerMethod, f, t, y, h) == y + h * f(y, NotANumber)
  {
    assert ScalarStageInput(EulerMethod, f, t, y, h, 0) == Shift(y, h, 0.0) == y;
    var ks := ScalarSlopes(EulerMethod, f, t, y, h, 1);
    assert ks == [f(y, NotANumber)];
    assert Dot(EulerMethod.weights, ks, 1) == 1.0 * ks[0];
  }

  /** The Euler preset on y' = y from y = 1 with h = 1 gives 2. */
  lemma EulerDoubles()
    ensures ScalarStep(EulerMethod, (y: real, t: Time) => y, 0.0, 1.0, 1.0) == 2.0
  {
    EulerScalarStep((y: real, t: Time) => y, 0.0, 1.0, 1.0);
  }

  /** The Euler preset on a vector: entry i becomes y[i] + h * f(y)[i]. */
  lemma EulerVectorStep(fv: (seq<real>, Time) -> seq<real>, t: real, y: seq<real>, h: real)
    requires Covers(fv)
    ensures forall i :: 0 <= i < |y| ==>
              VectorStep(EulerMethod, fv, t, y, h)[i] == y[i] + h * fv(y, NotANumber)[i]
  {
    assert VecShift(y, h, Zeros(|y|)) == y;
    assert VectorStageInput(EulerMethod, fv, t, y, h, 0) == y;
    var ks := VectorSlopes(EulerMethod, fv, t, y, h, 1);
    assert ks == [fv(y, NotANumber)];
    assert EulerMethod.weights == [1.0];
    var sum := Combo(EulerMethod.weights, ks, 1, |y|);
    assert Combo(EulerMethod.weights, ks, 0, |y|) == Zeros(|y|);
    assert sum == AddArrays(Zeros(|y|), MultArray(ks[0], 1.0));
    assert forall i :: 0 <= i < |y| ==> sum[i] == fv(y, NotANumber)[i];
  }
}
