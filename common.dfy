/** Values shared by every part of the solver: optional values, results,
    the exceptions the library throws, and what one call of an iterator's
    `next()` hands back. */
module Common {

  datatype Option<+T> = None | Some(value: T)

  datatype Result<+T, +E> = Ok(value: T) | Err(error: E)

  /** A number with no fractional part, as `Number.isInteger` tests it. */
  predicate IsInteger(x: real) {
    x.Floor as real == x
  }

  /** Why a coefficient set was refused, in the order the checks run. */
  datatype TableauError =
    | BadNumStages             // not an integer >= 1
    | BadNodesLength           // nodes not an array of length s - 1
    | NodeOutOfRange           // some node outside [0, 1]
    | BadMatrixLength          // rkMatrix not an array of length s - 1
    | RowNotArray(row: nat)    // rkMatrix[row] is not an array
    | BadRowLength(row: nat)   // rkMatrix[row] does not have row + 1 entries
    | BadRowSum(row: nat)      // rkMatrix[row] does not sum to nodes[row]
    | BadWeightsLength         // weights not an array of length s
    | WeightOutOfRange         // some weight outside [0, 1]

  /** Every exception the modelled code throws. */
  datatype Error =
    | InvalidTableau(reason: TableauError)
    | UnknownPreset            // a method name outside the preset catalog
    | BadRange                 // the time range is neither an array nor a number
    | TypeMismatch             // the derivative's result kind differs from y's
    | NotIterable              // limitIterable's first argument
    | BadLimit                 // limitIterable's iteration limit
    | BadCallback              // limitIterable's callback is neither absent nor a function
    | CallbackNotCallable      // the absent callback is called when the limit is hit
    | BadMethodArgument        // neither a preset name nor a method instance

  /** One result of an iterator's `next()`: a yielded value (`done: false`),
      the end of the iteration with its return value (`done: true`; `None`
      is `undefined`), or an exception thrown out of `next()`. */
  datatype Pull<+V, +R> = Yield(value: V) | Done(result: Option<R>) | Throw(error: Error)
}
