/** The Butcher tableau of an explicit Runge-Kutta method: how a coefficient
    set is checked before a method is built from it, the three preset
    methods, and the construction that chooses between the two. */
module Butcher {
  import opened Common

  /** A checked tableau with s stages. `nodes` holds c_2 .. c_s (c_1 is
      always 0 and is not stored), `rkMatrix[i]` holds the coefficients
      a_(i+2),1 .. a_(i+2),(i+1) of stage i + 2, and `weights` holds
      b_1 .. b_s. */
  datatype Tableau = Tableau(numStages: nat, nodes: seq<real>, rkMatrix: seq<seq<real>>, weights: seq<real>)

  /** The shape the stepping code relies on: s >= 1, s - 1 nodes, a
      lower-triangular matrix of s - 1 rows where row i has i + 1 entries,
      and s weights. */
  predicate Shaped(tab: Tableau) {
    && tab.numStages >= 1
    && |tab.nodes| == tab.numStages - 1
    && |tab.rkMatrix| == tab.numStages - 1
    && (forall i :: 0 <= i < |tab.rkMatrix| ==> |tab.rkMatrix[i]| == i + 1)
    && |tab.weights| == tab.numStages
  }

  predicate InUnit(x: real) {
    0.0 <= x <= 1.0
  }

  predicate AllInUnit(s: seq<real>) {
    forall i :: 0 <= i < |s| ==> InUnit(s[i])
  }

  /** The sum of a sequence, accumulated from the left as `reduce` does. */
  function Sum(s: seq<real>): real {
    if s == [] then 0.0 else Sum(s[..|s| - 1]) + s[|s| - 1]
  }

  /** Every constraint the validation enforces, stated on a tableau: the
      shape, nodes and weights in [0, 1], and each row summing to its node. */
  predicate Consistent(tab: Tableau) {
    && Shaped(tab)
    && AllInUnit(tab.nodes)
    && (forall i :: 0 <= i < |tab.rkMatrix| ==> Sum(tab.rkMatrix[i]) == tab.nodes[i])
    && AllInUnit(tab.weights)
  }

  // ---------------------------------------------------------------------
  // Validation of caller-supplied coefficients
  // ---------------------------------------------------------------------

  /** A caller-supplied argument that should be an array: either an array
      or some other value. */
  datatype Arg<+T> = Array(items: seq<T>) | NotArray

  /** The four arguments of the coefficient constructor, before checking.
      The stage count is any number, so it may be fractional. */
  datatype RawTableau = RawTableau(numStages: real, nodes: Arg<real>, rkMatrix: Arg<Arg<real>>, weights: Arg<real>)

  predicate StagesOk(raw: RawTableau) {
    raw.numStages >= 1.0 && IsInteger(raw.numStages)
  }

  predicate NodesLengthOk(raw: RawTableau) {
    raw.nodes.Array? && |raw.nodes.items| == raw.numStages.Floor - 1
  }

  predicate MatrixLengthOk(raw: RawTableau) {
    raw.rkMatrix.Array? && |raw.rkMatrix.items| == raw.numStages.Floor - 1
  }

  predicate WeightsLengthOk(raw: RawTableau) {
    raw.weights.Array? && |raw.weights.items| == raw.numStages.Floor
  }

  /** Everything that is checked before the rows of the matrix. */
  predicate BeforeRows(raw: RawTableau) {
    && StagesOk(raw)
    && NodesLengthOk(raw)
    && AllInUnit(raw.nodes.items)
    && MatrixLengthOk(raw)
  }

  /** Row i of the matrix is an array of i + 1 entries summing to node i. */
  predicate RowFine(rows: seq<Arg<real>>, nodes: seq<real>, i: nat)
    requires i < |rows| && |rows| == |nodes|
  {
    rows[i].Array? && |rows[i].items| == i + 1 && Sum(rows[i].items) == nodes[i]
  }

  predicate RowsFineBelow(raw: RawTableau, n: nat)
    requires BeforeRows(raw) && n <= |raw.rkMatrix.items|
  {
    forall j :: 0 <= j < n ==> RowFine(raw.rkMatrix.items, raw.nodes.items, j)
  }

  /** The coefficients pass every check: the acceptance condition stated
      without the order in which the checks run. */
  predicate Admissible(raw: RawTableau) {
    && BeforeRows(raw)
    && RowsFineBelow(raw, |raw.rkMatrix.items|)
    && WeightsLengthOk(raw)
    && AllInUnit(raw.weights.items)
  }

  /** The checks on one row, in the order the row loop makes them. */
  function RowError(rows: seq<Arg<real>>, nodes: seq<real>, i: nat): (e: Option<TableauError>)
    requires i < |rows| && |rows| == |nodes|
    ensures e == None <==> RowFine(rows, nodes, i)
  {
    if rows[i].NotArray? then Some(RowNotArray(i))
    else if |rows[i].items| != i + 1 then Some(BadRowLength(i))
    else if Sum(rows[i].items) != nodes[i] then Some(BadRowSum(i))
    else None
  }

  /** The row loop from row `from` on: the first failing row decides. */
  function CheckRows(rows: seq<Arg<real>>, nodes: seq<real>, from: nat): Option<TableauError>
    requires from <= |rows| && |rows| == |nodes|
    decreases |rows| - from
  {
    if from == |rows| then None
    else if RowError(rows, nodes, from).Some? then RowError(rows, nodes, from)
    else CheckRows(rows, nodes, from + 1)
  }

  /** The validation of caller-supplied coefficients. It fails with the
      first check that does not hold, in the order stage count, nodes,
      matrix, weights; on success it returns whether the weights miss a
      sum of exactly 1, which only warns. */
  function Validate(raw: RawTableau): Result<bool, TableauError> {
    if !StagesOk(raw) then Err(BadNumStages)
    else if !NodesLengthOk(raw) then Err(BadNodesLength)
    else if !AllInUnit(raw.nodes.items) then Err(NodeOutOfRange)
    else if !MatrixLengthOk(raw) then Err(BadMatrixLength)
    else match CheckRows(raw.rkMatrix.items, raw.nodes.items, 0) {
      case Some(e) => Err(e)
      case None =>
        if !WeightsLengthOk(raw) then Err(BadWeightsLength)
        else if !AllInUnit(raw.weights.items) then Err(WeightOutOfRange)
        else Ok(Sum(raw.weights.items) != 1.0)
    }
  }

  /** The row loop succeeds exactly when every remaining row is fine. */
  lemma {:induction false} CheckRowsPasses(rows: seq<Arg<real>>, nodes: seq<real>, from: nat)
    requires from <= |rows| && |rows| == |nodes|
    ensures CheckRows(rows, nodes, from) == None <==>
            forall j :: from <= j < |rows| ==> RowFine(rows, nodes, j)
    decreases |rows| - from
  {
    if from < |rows| {
      CheckRowsPasses(rows, nodes, from + 1);
    }
  }

  /** When the row loop fails, its error is the one of the first failing
      row, and every row before that one is fine. */
  lemma {:induction false} CheckRowsFindsFirst(rows: seq<Arg<real>>, nodes: seq<real>, from: nat)
    requires from <= |rows| && |rows| == |nodes|
    requires CheckRows(rows, nodes, from).Some?
    ensures var e := CheckRows(rows, nodes, from).value;
            && (e.RowNotArray? || e.BadRowLength? || e.BadRowSum?)
            && from <= e.row < |rows|
            && RowError(rows, nodes, e.row) == Some(e)
            && forall j :: from <= j < e.row ==> RowFine(rows, nodes, j)
    decreases |rows| - from
  {
    if RowError(rows, nodes, from).None? {
      CheckRowsFindsFirst(rows, nodes, from + 1);
    }
  }

  /** Acceptance: the coefficients are accepted exactly when every check
      holds, whatever the weights sum to; the returned flag is the weight
      sum warning. */
  lemma ValidateAccepts(raw: RawTableau)
    ensures Validate(raw).Ok? <==> Admissible(raw)
    ensures Validate(raw).Ok? ==> (Validate(raw).value <==> Sum(raw.weights.items) != 1.0)
  {
    if BeforeRows(raw) {
      CheckRowsPasses(raw.rkMatrix.items, raw.nodes.items, 0);
    }
  }

  /** The checks before the matrix rows, each reported only when all the
      earlier ones hold. */
  lemma ValidateEarlyErrors(raw: RawTableau)
    ensures Validate(raw) == Err(BadNumStages) <==> !StagesOk(raw)
    ensures Validate(raw) == Err(BadNodesLength) <==> StagesOk(raw) && !NodesLengthOk(raw)
    ensures Validate(raw) == Err(NodeOutOfRange) <==>
            StagesOk(raw) && NodesLengthOk(raw) && !AllInUnit(raw.nodes.items)
    ensures Validate(raw) == Err(BadMatrixLength) <==>
            StagesOk(raw) && NodesLengthOk(raw) && AllInUnit(raw.nodes.items) && !MatrixLengthOk(raw)
  {
    if BeforeRows(raw) && CheckRows(raw.rkMatrix.items, raw.nodes.items, 0).Some? {
      CheckRowsFindsFirst(raw.rkMatrix.items, raw.nodes.items, 0);
    }
  }

  /** The row checks: row i is blamed exactly when every earlier check and
      every earlier row passes, and then its first failing check names the
      error. */
  lemma ValidateRowErrors(raw: RawTableau, i: nat)
    ensures Validate(raw) == Err(RowNotArray(i)) <==>
            BeforeRows(raw) && i < |raw.rkMatrix.items| && RowsFineBelow(raw, i)
            && raw.rkMatrix.items[i].NotArray?
    ensures Validate(raw) == Err(BadRowLength(i)) <==>
            BeforeRows(raw) && i < |raw.rkMatrix.items| && RowsFineBelow(raw, i)
            && raw.rkMatrix.items[i].Array? && |raw.rkMatrix.items[i].items| != i + 1
    ensures Validate(raw) == Err(BadRowSum(i)) <==>
            BeforeRows(raw) && i < |raw.rkMatrix.items| && RowsFineBelow(raw, i)
            && raw.rkMatrix.items[i].Array? && |raw.rkMatrix.items[i].items| == i + 1
            && Sum(raw.rkMatrix.items[i].items) != raw.nodes.items[i]
  {
    if BeforeRows(raw) {
      var rows, nodes := raw.rkMatrix.items, raw.nodes.items;
      if CheckRows(rows, nodes, 0).Some? {
        CheckRowsFindsFirst(rows, nodes, 0);
        var e := CheckRows(rows, nodes, 0).value;
        // a row that fails after fine rows only is the first failing row
        assert i < |rows| && RowsFineBelow(raw, i) && !RowFine(rows, nodes, i) ==> e.row == i;
      } else {
        CheckRowsPasses(rows, nodes, 0);
        if i < |rows| {
          assert RowFine(rows, nodes, i);
        }
      }
    }
  }

  /** The weight checks come last, and are reported only when every row
      passes. */
  lemma ValidateWeightErrors(raw: RawTableau)
    ensures Validate(raw) == Err(BadWeightsLength) <==>
            BeforeRows(raw) && RowsFineBelow(raw, |raw.rkMatrix.items|) && !WeightsLengthOk(raw)
    ensures Validate(raw) == Err(WeightOutOfRange) <==>
            BeforeRows(raw) && RowsFineBelow(raw, |raw.rkMatrix.items|) && WeightsLengthOk(raw)
            && !AllInUnit(raw.weights.items)
  {
    if BeforeRows(raw) {
      CheckRowsPasses(raw.rkMatrix.items, raw.nodes.items, 0);
      if CheckRows(raw.rkMatrix.items, raw.nodes.items, 0).Some? {
        CheckRowsFindsFirst(raw.rkMatrix.items, raw.nodes.items, 0);
      }
    }
  }

  // ---------------------------------------------------------------------
  // Presets and construction
  // ---------------------------------------------------------------------

  const PresetNames: set<string> := {"euler", "midpoint", "rk4"}

  /** The classical fourth-order tableau satisfies every check. */
  lemma Rk4Consistent()
    ensures Consistent(Tableau(4, [0.5, 0.5, 1.0], [[0.5], [0.0, 0.5], [0.0, 0.0, 1.0]],
                               [0.167, 0.333, 0.333, 0.167]))
  {
    assert [0.0, 0.5][..1] == [0.0];
    assert [0.0, 0.0, 1.0][..2] == [0.0, 0.0];
    assert [0.0, 0.0][..1] == [0.0];
    assert Sum([0.5]) == 0.5;
    assert Sum([0.0, 0.5]) == 0.5;
    assert Sum([0.0, 0.0, 1.0]) == 1.0;
  }

  /** The preset catalog; any other name is an error. */
  function GetDefaults(name: string): (r: Result<Tableau, Error>)
    ensures r.Ok? <==> name in PresetNames
    ensures r.Err? ==> r.error == UnknownPreset
    ensures r.Ok? ==> Consistent(r.value)
  {
    Rk4Consistent();
    if name == "euler" then
      Ok(Tableau(1, [], [], [1.0]))
    else if name == "midpoint" then
      Ok(Tableau(2, [0.5], [[0.5]], [0.0, 1.0]))
    else if name == "rk4" then
      Ok(Tableau(4, [0.5, 0.5, 1.0], [[0.5], [0.0, 0.5], [0.0, 0.0, 1.0]],
                 [0.167, 0.333, 0.333, 0.167]))
    else
      Err(UnknownPreset)
  }

  lemma SumSnoc(s: seq<real>, x: real)
    ensures Sum(s + [x]) == Sum(s) + x
  {
    assert (s + [x])[..|s|] == s;
  }

  /** Over exact reals the weights of every preset sum to 1, so building a
      preset would never warn even if it were validated. */
  lemma PresetWeightsSumToOne(name: string)
    requires name in PresetNames
    ensures Sum(GetDefaults(name).value.weights) == 1.0
  {
    if name == "midpoint" {
      SumSnoc([0.0], 1.0);
      SumSnoc([], 0.0);
    } else if name == "rk4" {
      assert [0.167, 0.333, 0.333, 0.167] == [0.167, 0.333, 0.333] + [0.167];
      assert [0.167, 0.333, 0.333] == [0.167, 0.333] + [0.333];
      assert [0.167, 0.333] == [0.167] + [0.333];
      assert [0.167] == [] + [0.167];
      SumSnoc([0.167, 0.333, 0.333], 0.167);
      SumSnoc([0.167, 0.333], 0.333);
      SumSnoc([0.167], 0.333);
      SumSnoc([], 0.167);
    } else {
      SumSnoc([], 1.0);
    }
  }

  /** What the constructor is given: a preset name, or four coefficient
      arguments. */
  datatype MethodSource = ByName(name: string) | ByCoefficients(raw: RawTableau)

  /** A constructed method and whether building it printed the weight sum
      warning. */
  datatype Built = Built(tab: Tableau, weightSumWarning: bool)

  /** The checked tableau of admissible coefficients. */
  function FromRaw(raw: RawTableau): (tab: Tableau)
    requires Admissible(raw)
    ensures Consistent(tab)
    ensures tab.numStages as real == raw.numStages && tab.nodes == raw.nodes.items
    ensures |tab.rkMatrix| == |raw.rkMatrix.items|
    ensures forall i :: 0 <= i < |tab.rkMatrix| ==> raw.rkMatrix.items[i] == Array(tab.rkMatrix[i])
    ensures tab.weights == raw.weights.items
  {
    var rows := raw.rkMatrix.items;
    var table := seq(|rows|, i requires 0 <= i < |rows| => if rows[i].Array? then rows[i].items else []);
    forall i | 0 <= i < |rows|
      ensures rows[i] == Array(table[i]) && |table[i]| == i + 1 && Sum(table[i]) == raw.nodes.items[i]
    {
      assert RowFine(rows, raw.nodes.items, i);
    }
    Tableau(raw.numStages.Floor as nat, raw.nodes.items, table, raw.weights.items)
  }

  /** The constructor. A preset name is looked up and not validated; four
      coefficient arguments are validated and kept as given. */
  function NewMethod(source: MethodSource): (r: Result<Built, Error>)
    ensures r.Ok? ==> Consistent(r.value.tab)
    ensures source.ByName? ==>
              && (r.Ok? <==> source.name in PresetNames)
              && (r.Err? ==> r.error == UnknownPreset)
              && (r.Ok? ==> !r.value.weightSumWarning)
              && (r.Ok? ==> r.value.tab == GetDefaults(source.name).value)
    ensures source.ByCoefficients? ==>
              && (r.Ok? <==> Admissible(source.raw))
              && (r.Err? ==> Validate(source.raw).Err? && r.error == InvalidTableau(Validate(source.raw).error))
              && (r.Ok? ==> r.value.weightSumWarning == (Sum(source.raw.weights.items) != 1.0))
              && (r.Ok? ==> r.value.tab == FromRaw(source.raw))
  {
    match source
    case ByName(name) =>
      (match GetDefaults(name)
       case Ok(tab) => Ok(Built(tab, false))
       case Err(e) => Err(e))
    case ByCoefficients(raw) =>
      ValidateAccepts(raw);
      match Validate(raw)
      case Err(e) => Err(InvalidTableau(e))
      case Ok(warn) => Ok(Built(FromRaw(raw), warn))
  }

  /** The three method instances the module exports. */
  const EulerMethod: Tableau := GetDefaults("euler").value
  const MidpointMethod: Tableau := GetDefaults("midpoint").value
  const Rk4Method: Tableau := GetDefaults("rk4").value
}
