/** What the three selectors share: `funcs.pop()` inside the returned closure,
    and the recomputation `resultFunc(...funcs.map(func => func.apply(null, args)))`. */
module SelectorCore {
  import opened JsValues

  /** `funcs.pop()`: removes and returns the last element; on an empty list it
      returns `undefined` and leaves the list empty. */
  function Pop<T>(funcs: seq<T>): (r: (seq<T>, Option<T>))
    ensures |funcs| > 0 ==> r.1 == Some(funcs[|funcs| - 1]) && r.0 + [funcs[|funcs| - 1]] == funcs
    ensures |funcs| == 0 ==> r.0 == [] && r.1 == None
  {
    if |funcs| == 0 then ([], None) else (funcs[..|funcs| - 1], Some(funcs[|funcs| - 1]))
  }

  /** `fs.map(f => f.apply(null, args))`: every function is applied to the whole
      argument list, left to right; the first one that throws ends the map. */
  function ApplyAll(fs: seq<Fn>, args: seq<Value>): (r: Result<seq<Value>>)
    ensures r.Ok? ==> |r.value| == |fs| && forall i :: 0 <= i < |fs| ==> fs[i](args) == Ok(r.value[i])
    ensures r.Throw? ==> exists k :: 0 <= k < |fs| && fs[k](args) == Throw(r.error)
                                     && forall i :: 0 <= i < k ==> fs[i](args).Ok?
    decreases |fs|
  {
    if |fs| == 0 then Ok([])
    else
      var init := ApplyAll(fs[..|fs| - 1], args);
      if init.Throw? then Throw(init.error)
      else
        match fs[|fs| - 1](args)
        case Throw(e) => Throw(e)
        case Ok(v) => Ok(init.value + [v])
  }

  /** The recomputation a miss performs: the last element of `funcs` is popped
      as the combiner, the remaining elements are applied to `args` as
      extractors, and the combiner is called with their results. The host
      evaluates the arguments before it checks that the callee is a function,
      so an extractor that throws wins over calling `undefined`. */
  function Recompute(funcs: seq<Fn>, args: seq<Value>): (r: Result<Value>)
    ensures |funcs| == 0 ==> r == Throw(NotAFunction)
    ensures |funcs| > 0 ==>
              forall k :: 0 <= k < |funcs| - 1 && funcs[k](args).Throw? && (forall i :: 0 <= i < k ==> funcs[i](args).Ok?)
                ==> r == funcs[k](args)
  {
    var (rest, top) := Pop(funcs);
    var extracted := ApplyAll(rest, args);
    if extracted.Throw? then Throw(extracted.error)
    else if top.None? then Throw(NotAFunction)
    else top.value(extracted.value)
  }

  /** The extractors' results determine the map: when every function returns
      normally, the map is exactly the list of their results. */
  lemma {:induction false} ApplyAllOfResults(fs: seq<Fn>, args: seq<Value>, vs: seq<Value>)
    requires |vs| == |fs|
    requires forall i :: 0 <= i < |fs| ==> fs[i](args) == Ok(vs[i])
    ensures ApplyAll(fs, args) == Ok(vs)
    decreases |fs|
  {
    if |fs| > 0 {
      ApplyAllOfResults(fs[..|fs| - 1], args, vs[..|vs| - 1]);
      assert vs[..|vs| - 1] + [vs[|vs| - 1]] == vs;
    }
  }

  /** When every extractor returns normally, the combiner, the last element of
      `funcs`, receives exactly their results, in order. */
  lemma RecomputeCallsLastWithResults(funcs: seq<Fn>, args: seq<Value>, vs: seq<Value>)
    requires |funcs| > 0 && |vs| == |funcs| - 1
    requires forall i :: 0 <= i < |vs| ==> funcs[i](args) == Ok(vs[i])
    ensures Recompute(funcs, args) == funcs[|funcs| - 1](vs)
  {
    ApplyAllOfResults(funcs[..|funcs| - 1], args, vs);
  }
}
