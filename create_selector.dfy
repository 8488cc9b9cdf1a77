/** `createSelector`: a last-call memo. The closure keeps `funcs`, the
    arguments of the last call that recomputed (`lastArgs`, initially null)
    and its result (`lastResult`). A call whose raw arguments are shallowly
    equal to `lastArgs` returns `lastResult`; any other call pops the last
    element of `funcs` as the combiner and recomputes. */
module CreateSelector {
  import opened JsValues
  import opened Equality
  import opened SelectorCore

  /** The closure state of one selector. */
  datatype Memo = Memo(funcs: seq<Fn>, lastArgs: Option<seq<Value>>, lastResult: Value)

  /** The state `createSelector(...funcs)` sets up: nothing remembered yet. */
  function Initial(funcs: seq<Fn>): Memo
  {
    Memo(funcs, None, Null)
  }

  /** The arguments of this call match those remembered, under `===`. */
  predicate IsHit(m: Memo, args: seq<Value>)
  {
    ShallowlyEqual(DefaultEqualityCheck, m.lastArgs, Some(args))
  }

  /** One call of the returned closure: the new closure state and what the
      call returns or throws. A recomputation that throws has already popped
      `funcs` but leaves `lastArgs` and `lastResult` as they were. */
  function Invoke(m: Memo, args: seq<Value>): (out: (Memo, Result<Value>))
    ensures out.1.Ok? ==> IsHit(out.0, args) && out.0.lastResult == out.1.value
    ensures out.1.Throw? ==> out.0 == m.(funcs := Pop(m.funcs).0)
  {
    if IsHit(m, args) then (m, Ok(m.lastResult))
    else
      var r := Recompute(m.funcs, args);
      var funcs := Pop(m.funcs).0;
      if r.Ok? then (Memo(funcs, Some(args), r.value), r) else (m.(funcs := funcs), r)
  }

  /** The selector `createSelector` returns, with its closure state as fields. */
  class LastCallSelector {
    var funcs: seq<Fn>
    var lastArgs: Option<seq<Value>>
    var lastResult: Value

    function State(): Memo
      reads this
    {
      Memo(funcs, lastArgs, lastResult)
    }

    constructor (funcs: seq<Fn>)
      ensures State() == Initial(funcs)
    {
      this.funcs := funcs;
      lastArgs := None;
      lastResult := Null;
    }

    /** Calls the selector with `args`. */
    method Call(args: seq<Value>) returns (r: Result<Value>)
      modifies this
      ensures (State(), r) == Invoke(old(State()), args)
    {
      var equal, _ := AreArgumentsShallowlyEqual(DefaultEqualityCheck, lastArgs, Some(args));
      if !equal {
        var resultFunc;
        funcs, resultFunc := Pop(funcs).0, Pop(funcs).1;
        var extracted := ApplyAll(funcs, args);
        if extracted.Throw? {
          return Throw(extracted.error);
        }
        if resultFunc.None? {
          return Throw(NotAFunction);
        }
        var result := resultFunc.value(extracted.value);
        if result.Throw? {
          return result;
        }
        lastResult := result.value;
        lastArgs := Some(args);
      }
      return Ok(lastResult);
    }
  }

  /** `lastArgs` starts as null, so the first call always recomputes: it pops
      the last element of `funcs` and returns what the recomputation gives. */
  lemma FirstCallMisses(funcs: seq<Fn>, args: seq<Value>)
    ensures !IsHit(Initial(funcs), args)
    ensures Invoke(Initial(funcs), args).0.funcs == Pop(funcs).0
    ensures Invoke(Initial(funcs), args).1 == Recompute(funcs, args)
  {
  }

  /** A hit returns `lastResult` and changes neither `lastArgs`, `lastResult`
      nor `funcs`. */
  lemma HitChangesNothing(m: Memo, args: seq<Value>)
    requires IsHit(m, args)
    ensures Invoke(m, args) == (m, Ok(m.lastResult))
  {
  }

  /** A miss removes exactly one element of `funcs`, the last, whether the
      recomputation returns or throws; on an empty list it removes nothing. */
  lemma MissPopsLast(m: Memo, args: seq<Value>)
    requires !IsHit(m, args)
    ensures |m.funcs| > 0 ==> Invoke(m, args).0.funcs + [m.funcs[|m.funcs| - 1]] == m.funcs
    ensures |m.funcs| == 0 ==> Invoke(m, args).0.funcs == []
  {
  }

  /** A miss whose recomputation returns sets `lastArgs` to these arguments
      and `lastResult` to the combiner's result; one that throws leaves both
      as they were. */
  lemma MissRecordsCall(m: Memo, args: seq<Value>)
    requires !IsHit(m, args)
    ensures var (m', r) := Invoke(m, args);
            r == Recompute(m.funcs, args)
            && (r.Ok? ==> m'.lastArgs == Some(args) && m'.lastResult == r.value)
            && (r.Throw? ==> m'.lastArgs == m.lastArgs && m'.lastResult == m.lastResult)
  {
  }

  /** Calling again with the same arguments after a call that returned is a
      hit: it returns the same result and changes nothing, `funcs` included. */
  lemma RepeatedCallHits(m: Memo, args: seq<Value>)
    requires Invoke(m, args).1.Ok?
    ensures var (m', r) := Invoke(m, args);
            Invoke(m', args) == (m', r)
  {
  }

  /** The combiner is not fixed: after a miss that returned, the next call
      with other arguments misses again, pops what was the last extractor and
      calls it as the combiner, on the results of the extractors before it. */
  lemma SuccessiveMissesUseSuccessiveCombiners(m: Memo, first: seq<Value>, second: seq<Value>)
    requires !IsHit(m, first) && Invoke(m, first).1.Ok?
    requires !ShallowlyEqual(DefaultEqualityCheck, Some(first), Some(second))
    ensures var m' := Invoke(m, first).0;
            !IsHit(m', second)
            && Invoke(m', second).1 == Recompute(Pop(m.funcs).0, second)
            && Invoke(m', second).0.funcs == Pop(Pop(m.funcs).0).0
  {
  }
}
