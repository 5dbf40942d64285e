/** `limitIterable(iterable, iterationLimit, callback)`: after checking its
    arguments it hands back a generator that passes on the values of the
    iterable's iterator, forwarding what its own `next()` is given, until
    the iterator ends or `iterationLimit` values have been passed on. In
    the second case the callback's return value ends the generator.

    An iterator is modelled by its sequence of `next()` results: `p(k)` is
    what pull k (counted from 0) of it hands back. `Limited` is the
    sequence the wrapper hands back; `LimitIterator` is the wrapper's body
    as a state machine over a stateful `Source`, proved to hand back
    exactly that sequence. */
module Limiting {
  import opened Common

  /** The third argument: absent, a function, or some other value. The
      function is given the value of the pull that was held back and the
      iteration count; `None` as its result is `undefined`. */
  datatype Callback<!V, R> = Omitted | Fn(f: (V, nat) -> Option<R>) | NotFunction

  /** The argument checks, in the order they run: the first failing one
      decides the error. */
  function CheckLimitArgs<V, R>(iterable: bool, iterationLimit: real, callback: Callback<V, R>): (r: Option<Error>)
    ensures r.None? <==> iterable && iterationLimit >= 1.0 && IsInteger(iterationLimit) && !callback.NotFunction?
    ensures !iterable ==> r == Some(NotIterable)
    ensures iterable && (iterationLimit < 1.0 || !IsInteger(iterationLimit)) ==> r == Some(BadLimit)
    ensures iterable && iterationLimit >= 1.0 && IsInteger(iterationLimit) && callback.NotFunction? ==>
              r == Some(BadCallback)
  {
    if !iterable then Some(NotIterable)
    else if iterationLimit < 1.0 || !IsInteger(iterationLimit) then Some(BadLimit)
    else if callback.NotFunction? then Some(BadCallback)
    else None
  }

  /** The first k pulls of the iterator all yielded a value. */
  predicate AllYield<V, R>(p: nat -> Pull<V, R>, k: nat) {
    forall j: nat :: j < k ==> p(j).Yield?
  }

  /** The wrapper's body is still running at its pull k: the loop has
      yielded every earlier value and has not reached the limit before. */
  predicate Active<V, R>(p: nat -> Pull<V, R>, limit: nat, k: nat) {
    k <= limit && AllYield(p, k)
  }

  /** What the callback's call hands back: its result, or the TypeError of
      calling a callback that was never given. */
  function RunCallback<V, R>(callback: Callback<V, R>, held: V, count: nat): Pull<V, R> {
    if callback.Fn? then Done(callback.f(held, count)) else Throw(CallbackNotCallable)
  }

  /** Pull k of the wrapper: while active, pull k of the iterator, except
      that a value at the limit is held back and handed to the callback.
      An exception of the iterator passes through and ends the wrapper. */
  function Limited<V, R>(p: nat -> Pull<V, R>, limit: nat, callback: Callback<V, R>, k: nat): Pull<V, R> {
    if !Active(p, limit, k) then Done(None)
    else match p(k)
      case Yield(v) => if k < limit then Yield(v) else RunCallback(callback, v, k)
      case Done(ret) => Done(ret)
      case Throw(e) => Throw(e)
  }

  /** The number of times the wrapper has pulled the iterator during its
      first k pulls: once in each pull that runs the body. */
  function SourcePulls<V, R>(p: nat -> Pull<V, R>, limit: nat, k: nat): (n: nat)
    ensures n <= k
  {
    if k == 0 then 0 else SourcePulls(p, limit, k - 1) + (if Active(p, limit, k - 1) then 1 else 0)
  }

  lemma ActiveShrinks<V, R>(p: nat -> Pull<V, R>, limit: nat, j: nat, k: nat)
    requires j <= k
    ensures Active(p, limit, k) ==> Active(p, limit, j)
  {
  }

  /** While the body runs, every pull of the wrapper has pulled the iterator. */
  lemma {:induction false} SourcePullsWhileActive<V, R>(p: nat -> Pull<V, R>, limit: nat, k: nat)
    requires Active(p, limit, k)
    ensures SourcePulls(p, limit, k) == k
  {
    if k > 0 {
      ActiveShrinks(p, limit, k - 1, k);
      SourcePullsWhileActive(p, limit, k - 1);
    }
  }

  /** The wrapper yields only before the limit: at most `limit` values. */
  lemma YieldsBelowLimit<V, R>(p: nat -> Pull<V, R>, limit: nat, callback: Callback<V, R>, k: nat)
    ensures Limited(p, limit, callback, k).Yield? ==> k < limit && p(k) == Limited(p, limit, callback, k)
  {
  }

  /** The iterator is never pulled more than limit + 1 times. */
  lemma {:induction false} SourcePullsBound<V, R>(p: nat -> Pull<V, R>, limit: nat, k: nat)
    ensures SourcePulls(p, limit, k) <= limit + 1
  {
    if k > limit + 1 {
      SourcePullsBound(p, limit, k - 1);
      assert !Active(p, limit, k - 1);
    }
  }

  /** Once the wrapper hands back something other than a value, it has
      finished, and later pulls leave the iterator alone. */
  lemma EndsForGood<V, R>(p: nat -> Pull<V, R>, limit: nat, callback: Callback<V, R>, j: nat, k: nat)
    requires j < k && !Limited(p, limit, callback, j).Yield?
    ensures Limited(p, limit, callback, k) == Done(None)
    ensures !Active(p, limit, k)
  {
    ActiveShrinks(p, limit, j, k);
    ActiveShrinks(p, limit, j + 1, k);
    assert !Active(p, limit, j + 1) by {
      assert Active(p, limit, j + 1) ==> p(j).Yield? && j < limit;
    }
  }

  // ---------------------------------------------------------------------
  // The wrapper over a finite iterator
  // ---------------------------------------------------------------------

  /** An iterator over `items` that returns `ret`: a generator that yields
      each item and then returns, and after that reports `done` with
      `undefined`. */
  function ListIterator<V, R>(items: seq<V>, ret: Option<R>): nat -> Pull<V, R> {
    (k: nat) => if k < |items| then Yield(items[k]) else if k == |items| then Done(ret) else Done(None)
  }

  function Min(a: nat, b: nat): nat {
    if a <= b then a else b
  }

  lemma ListAllYield<V, R>(items: seq<V>, ret: Option<R>, k: nat)
    ensures AllYield(ListIterator(items, ret), k) <==> k <= |items|
  {
    if k > |items| {
      assert !ListIterator(items, ret)(|items|).Yield?;
    }
  }

  /** Prefix law: the wrapper yields exactly the first min(n, limit) items,
      in order. */
  lemma ListPrefix<V, R>(items: seq<V>, ret: Option<R>, limit: nat, callback: Callback<V, R>, k: nat)
    ensures Limited(ListIterator(items, ret), limit, callback, k).Yield? <==> k < Min(|items|, limit)
    ensures k < Min(|items|, limit) ==> Limited(ListIterator(items, ret), limit, callback, k) == Yield(items[k])
  {
    ListAllYield(items, ret, k);
  }

  /** No early stop: when the iterator ends within the limit (also exactly
      at it) the callback is not called and the wrapper returns the
      iterator's return value. */
  lemma ListNoEarlyStop<V, R>(items: seq<V>, ret: Option<R>, limit: nat, callback: Callback<V, R>)
    requires |items| <= limit
    ensures Limited(ListIterator(items, ret), limit, callback, |items|) == Done(ret)
  {
    ListAllYield(items, ret, |items|);
  }

  /** Early stop: when the iterator has more than `limit` items, the item
      at the limit is held back and the callback's call, with the
      iteration count `limit`, ends the wrapper. */
  lemma ListEarlyStop<V, R>(items: seq<V>, ret: Option<R>, limit: nat, callback: Callback<V, R>)
    requires |items| > limit
    ensures Limited(ListIterator(items, ret), limit, callback, limit) == RunCallback(callback, items[limit], limit)
  {
    ListAllYield(items, ret, limit);
  }

  /** After its end the wrapper reports `done` with `undefined`. */
  lemma ListAfterEnd<V, R>(items: seq<V>, ret: Option<R>, limit: nat, callback: Callback<V, R>, k: nat)
    requires k > Min(|items|, limit)
    ensures Limited(ListIterator(items, ret), limit, callback, k) == Done(None)
  {
    var m := Min(|items|, limit);
    ListPrefix(items, ret, limit, callback, m);
    EndsForGood(ListIterator(items, ret), limit, callback, m, k);
  }

  /** Pull count: the wrapper pulls the iterator min(n, limit) + 1 times in
      all, and never more than its own pull count. */
  lemma {:induction false} ListSourcePulls<V, R>(items: seq<V>, ret: Option<R>, limit: nat, k: nat)
    ensures SourcePulls(ListIterator(items, ret), limit, k) == Min(k, Min(|items|, limit) + 1)
  {
    if k > 0 {
      ListSourcePulls(items, ret, limit, k - 1);
      ListAllYield(items, ret, k - 1);
    }
  }

  // ---------------------------------------------------------------------
  // The wrapper as a state machine
  // ---------------------------------------------------------------------

  /** A stateful iterator whose pull k hands back `results(k)`. It records
      the argument of every `next()` call (`None` when it is given none). */
  class Source<V, R, A> {
    const results: nat -> Pull<V, R>
    var count: nat
    var received: seq<Option<A>>

    constructor (results: nat -> Pull<V, R>)
      ensures this.results == results && count == 0 && received == []
    {
      this.results := results;
      count := 0;
      received := [];
    }

    method Next(arg: Option<A>) returns (r: Pull<V, R>)
      modifies this
      ensures r == results(old(count))
      ensures count == old(count) + 1 && received == old(received) + [arg]
    {
      r := results(count);
      count := count + 1;
      received := received + [arg];
    }
  }

  /** Where the wrapper's body is: not started, suspended at the `yield`
      inside the loop, or finished. */
  datatype LimitPhase = NotStarted | Suspended | Over

  class LimitIterator<V, R, A> {
    const source: Source<V, R, A>
    const limit: nat
    const callback: Callback<V, R>
    /** The iterator's pull count when the wrapper was made. */
    ghost const start: nat

    var phase: LimitPhase
    /** `iterationCount`. */
    var count: nat
    /** The number of `next()` calls so far. */
    ghost var pulls: nat

    /** The iterator's results from the wrapper's point of view. */
    ghost function Pulled(): nat -> Pull<V, R> {
      (j: nat) => source.results(start + j)
    }

    ghost predicate Valid()
      reads this, source
    {
      limit >= 1 &&
      (phase == NotStarted <==> pulls == 0) &&
      source.count == start + SourcePulls(Pulled(), limit, pulls) &&
      (phase == Suspended ==>
         pulls >= 1 && count == pulls - 1 && Active(Pulled(), limit, pulls)) &&
      (phase == Over ==> pulls >= 1 && !Active(Pulled(), limit, pulls))
    }

    constructor (source: Source<V, R, A>, limit: nat, callback: Callback<V, R>)
      requires limit >= 1
      ensures Valid() && pulls == 0 && start == source.count
      ensures this.source == source && this.limit == limit && this.callback == callback
    {
      this.source := source;
      this.limit := limit;
      this.callback := callback;
      start := source.count;
      phase := NotStarted;
      count := 0;
      pulls := 0;
    }

    /** `next(arg)`. The first call starts the body, which pulls the
        iterator with no argument; a later call resumes the `yield` and
        forwards `arg` to the iterator. After the end nothing is pulled. */
    method Next(arg: Option<A>) returns (r: Pull<V, R>)
      requires Valid()
      modifies this, source
      ensures Valid() && pulls == old(pulls) + 1
      ensures r == Limited(Pulled(), limit, callback, old(pulls))
      ensures old(phase) == NotStarted ==> source.received == old(source.received) + [None]
      ensures old(phase) == Suspended ==> source.received == old(source.received) + [arg]
      ensures old(phase) == Over ==> source.count == old(source.count) && source.received == old(source.received)
    {
      if phase == Over {
        ActiveShrinks(Pulled(), limit, pulls, pulls + 1);
        pulls := pulls + 1;
        return Done(None);
      }
      SourcePullsWhileActive(Pulled(), limit, pulls);
      var result: Pull<V, R>;
      if phase == NotStarted {
        result := source.Next(None);
        count := 0;
      } else {
        result := source.Next(arg);
        count := count + 1;
      }
      assert result == Pulled()(pulls);
      pulls := pulls + 1;
      if result.Yield? && count < limit {
        phase := Suspended;
        r := Yield(result.value);
      } else {
        phase := Over;
        if result.Yield? {
          r := RunCallback(callback, result.value, count);
        } else if result.Done? {
          r := Done(result.result);
        } else {
          r := Throw(result.error);
        }
      }
    }
  }

  /** `limitIterable(iterable, iterationLimit, callback)`. Anything that is
      not an iterator is `null`. The arguments are checked eagerly, before
      the iterator is touched; the iterator itself is only pulled by the
      wrapper's `next()`. */
  method LimitIterable<V, R, A>(iterable: Source?<V, R, A>, iterationLimit: real, callback: Callback<V, R>)
    returns (r: Result<LimitIterator<V, R, A>, Error>)
    ensures r.Err? <==> CheckLimitArgs(iterable != null, iterationLimit, callback).Some?
    ensures r.Err? ==> Some(r.error) == CheckLimitArgs(iterable != null, iterationLimit, callback)
    ensures r.Ok? ==> && fresh(r.value) && r.value.Valid() && r.value.pulls == 0
                      && r.value.source == iterable && r.value.start == iterable.count
                      && r.value.limit as real == iterationLimit && r.value.callback == callback
  {
    var e := CheckLimitArgs(iterable != null, iterationLimit, callback);
    if e.Some? {
      return Err(e.value);
    }
    var w := new LimitIterator(iterable, iterationLimit.Floor as nat, callback);
    r := Ok(w);
  }
}
