/** `createSelectorMap`: a selector memoized in a value-keyed map. The key of a
    call is the serialization of its whole argument list (`JSON.stringify(args)`),
    so argument lists that serialize alike share one entry. A miss pops the
    last element of `funcs` as the combiner, like `createSelector`. */
module CreateSelectorMap {
  import opened JsValues
  import opened SelectorCore

  /** The serialization of an argument list; the host's `JSON.stringify` is
      not part of this model, so the selector is given it. */
  type Stringify = seq<Value> -> string

  /** The closure state of one selector. */
  datatype Memo = Memo(funcs: seq<Fn>, memoizedResults: map<string, Value>)

  /** The state `createSelectorMap(...funcs)` sets up: an empty map. */
  function Initial(funcs: seq<Fn>): Memo
  {
    Memo(funcs, map[])
  }

  /** One call of the returned closure. A recomputation that throws has already
      popped `funcs` and stores nothing. */
  function Invoke(m: Memo, stringify: Stringify, args: seq<Value>): (out: (Memo, Result<Value>))
    ensures out.1.Ok? ==> stringify(args) in out.0.memoizedResults && out.0.memoizedResults[stringify(args)] == out.1.value
    ensures out.1.Throw? ==> out.0 == m.(funcs := Pop(m.funcs).0)
  {
    var argsKey := stringify(args);
    if argsKey in m.memoizedResults then (m, Ok(m.memoizedResults[argsKey]))
    else
      var r := Recompute(m.funcs, args);
      var funcs := Pop(m.funcs).0;
      if r.Ok? then (Memo(funcs, m.memoizedResults[argsKey := r.value]), r)
      else (m.(funcs := funcs), r)
  }

  /** The selector `createSelectorMap` returns, with its closure state as fields. */
  class MapSelector {
    const stringify: Stringify
    var funcs: seq<Fn>
    var memoizedResults: map<string, Value>

    function State(): Memo
      reads this
    {
      Memo(funcs, memoizedResults)
    }

    constructor (stringify: Stringify, funcs: seq<Fn>)
      ensures this.stringify == stringify && State() == Initial(funcs)
    {
      this.stringify := stringify;
      this.funcs := funcs;
      memoizedResults := map[];
    }

    /** Calls the selector with `args`. */
    method Call(args: seq<Value>) returns (r: Result<Value>)
      modifies this
      ensures (State(), r) == Invoke(old(State()), stringify, args)
    {
      var argsKey := stringify(args);
      if argsKey in memoizedResults {
        return Ok(memoizedResults[argsKey]);
      }
      var resultFunc;
      funcs, resultFunc := Pop(funcs).0, Pop(funcs).1;
      var extracted := ApplyAll(funcs, args);
      if extracted.Throw? {
        return Throw(extracted.error);
      }
      if resultFunc.None? {
        return Throw(NotAFunction);
      }
      r := resultFunc.value(extracted.value);
      if r.Ok? {
        memoizedResults := memoizedResults[argsKey := r.value];
      }
    }
  }

  /** A hit on the key returns the stored result without calling any function
      and changes nothing. */
  lemma HitReturnsStored(m: Memo, stringify: Stringify, args: seq<Value>)
    requires stringify(args) in m.memoizedResults
    ensures Invoke(m, stringify, args) == (m, Ok(m.memoizedResults[stringify(args)]))
  {
  }

  /** A miss pops the last element of `funcs`, returns what the recomputation
      gives and, when it returns, stores that result under the key and nothing
      else; entries are never overwritten or removed. */
  lemma MissStoresResult(m: Memo, stringify: Stringify, args: seq<Value>)
    requires stringify(args) !in m.memoizedResults
    ensures var (m', r) := Invoke(m, stringify, args);
            && r == Recompute(m.funcs, args)
            && m'.funcs == Pop(m.funcs).0
            && m'.memoizedResults == (if r.Ok? then m.memoizedResults[stringify(args) := r.value] else m.memoizedResults)
  {
  }

  /** Every call keeps every entry already stored, and adds at most one. */
  lemma InvokeOnlyGrows(m: Memo, stringify: Stringify, args: seq<Value>)
    ensures var m' := Invoke(m, stringify, args).0;
            && m.memoizedResults.Keys <= m'.memoizedResults.Keys
            && (forall k :: k in m.memoizedResults ==> m'.memoizedResults[k] == m.memoizedResults[k])
            && m'.memoizedResults.Keys - m.memoizedResults.Keys <= {stringify(args)}
  {
  }

  /** Keying by serialization: once a call has returned, any later argument
      list that serializes alike hits and gets the same result, even when it
      holds other objects. */
  lemma SameKeySharesEntry(m: Memo, stringify: Stringify, first: seq<Value>, second: seq<Value>)
    requires Invoke(m, stringify, first).1.Ok?
    requires stringify(first) == stringify(second)
    ensures var (m', r) := Invoke(m, stringify, first);
            Invoke(m', stringify, second) == (m', r)
  {
  }
}
