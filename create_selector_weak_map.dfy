/** `createSelectorWeakMap`: a selector memoized in an identity-keyed map. The
    key of a call is its first argument, which must be an object for the
    result to be stored. An element of `funcs` is a single extractor or a group
    of extractors; a group yields a new array of its extractors' results. When
    the first element of the first result is itself an array, the results are
    flattened one level before they are passed to the combiner. */
module CreateSelectorWeakMap {
  import opened JsValues
  import opened SelectorCore

  /** An element of the selector chain. */
  datatype Element = Single(f: Fn) | Group(fs: seq<Fn>)

  /** The closure state of one selector: `memoizedResults` maps the identity
      of a key object to the result stored for it. */
  datatype Memo = Memo(funcs: seq<Element>, memoizedResults: map<nat, Value>)

  /** Setting a primitive as the key of an identity-keyed map. */
  const InvalidWeakMapKey := TypeError("Invalid value used as weak map key")

  /** The state `createSelectorWeakMap(...funcs)` sets up: an empty map. */
  function Initial(funcs: seq<Element>): Memo
  {
    Memo(funcs, map[])
  }

  /** `memoizedResults.has(key)`: false for every primitive key. */
  predicate Has(memoizedResults: map<nat, Value>, key: Value)
    ensures !IsObject(key) ==> !Has(memoizedResults, key)
    ensures IsObject(key) ==> (Has(memoizedResults, key) <==> key.id in memoizedResults)
  {
    IsObject(key) && key.id in memoizedResults
  }

  /** The result of one element of the chain. A group allocates a new array,
      whose identity the host gives as `id`. */
  function Derive(e: Element, args: seq<Value>, id: nat): (r: Result<Value>)
    ensures e.Single? ==> r == e.f(args)
    ensures e.Group? && r.Ok? ==>
              && r.value.Arr? && r.value.id == id && |r.value.items| == |e.fs|
              && forall i :: 0 <= i < |e.fs| ==> e.fs[i](args) == Ok(r.value.items[i])
    ensures e.Group? && r.Throw? ==>
              exists k :: 0 <= k < |e.fs| && e.fs[k](args) == Throw(r.error)
                          && forall i :: 0 <= i < k ==> e.fs[i](args).Ok?
  {
    match e
    case Single(f) => f(args)
    case Group(fs) =>
      match ApplyAll(fs, args)
      case Throw(err) => Throw(err)
      case Ok(vs) => Ok(Arr(id, vs))
  }

  /** `selectorsRes`: every element of the chain derived from `args`, left to
      right; the first that throws ends the map. The array made for the group
      at position `i` gets identity `firstId + i`. */
  function SelectorsRes(es: seq<Element>, args: seq<Value>, firstId: nat): (r: Result<seq<Value>>)
    ensures r.Ok? ==> |r.value| == |es| && forall i :: 0 <= i < |es| ==> Derive(es[i], args, firstId + i) == Ok(r.value[i])
    decreases |es|
  {
    if |es| == 0 then Ok([])
    else
      var init := SelectorsRes(es[..|es| - 1], args, firstId);
      if init.Throw? then Throw(init.error)
      else
        match Derive(es[|es| - 1], args, firstId + |es| - 1)
        case Throw(e) => Throw(e)
        case Ok(v) => Ok(init.value + [v])
  }

  /** When deriving throws, it throws what the first failing element throws,
      and every element before it was derived normally. */
  lemma {:induction false} SelectorsResThrowsFirstFailure(es: seq<Element>, args: seq<Value>, firstId: nat)
    requires SelectorsRes(es, args, firstId).Throw?
    ensures exists k :: 0 <= k < |es| && Derive(es[k], args, firstId + k) == Throw(SelectorsRes(es, args, firstId).error)
                        && forall i :: 0 <= i < k ==> Derive(es[i], args, firstId + i).Ok?
    decreases |es|
  {
    var n := |es|;
    var prefix := es[..n - 1];
    var init := SelectorsRes(prefix, args, firstId);
    if init.Throw? {
      SelectorsResThrowsFirstFailure(prefix, args, firstId);
      var k :| 0 <= k < |prefix| && Derive(prefix[k], args, firstId + k) == Throw(init.error)
               && forall i :: 0 <= i < k ==> Derive(prefix[i], args, firstId + i).Ok?;
      assert prefix[k] == es[k];
      assert forall i :: 0 <= i < k ==> prefix[i] == es[i];
    } else {
      assert forall i :: 0 <= i < n - 1 ==> prefix[i] == es[i];
      assert Derive(es[n - 1], args, firstId + (n - 1)).Throw?;
    }
  }

  /** `Array.isArray(selectorsRes[0][0])`; reading `[0]` of `undefined` (no
      results at all) or of `null` throws. */
  function IsMatrix(res: seq<Value>): (r: Result<bool>)
    ensures |res| == 0 ==> r == Throw(NullishAccess)
    ensures |res| > 0 && res[0].Arr? && |res[0].items| > 0 ==> r == Ok(res[0].items[0].Arr?)
    ensures |res| > 0 && !res[0].Arr? && !res[0].Str? && !res[0].Obj? && r.Ok? ==> r == Ok(false)
  {
    var first := if |res| > 0 then res[0] else Undefined;
    match Index0(first)
    case Throw(e) => Throw(e)
    case Ok(x) => Ok(x.Arr?)
  }

  /** What one element contributes to `flat()`: an array its items, anything
      else itself. */
  function Spread(x: Value): seq<Value>
  {
    if x.Arr? then x.items else [x]
  }

  /** `vs.flat()`: every array in `vs` is replaced by its elements, one level deep. */
  function Flat(vs: seq<Value>): (r: seq<Value>)
    ensures (forall i :: 0 <= i < |vs| ==> !vs[i].Arr?) ==> r == vs
    decreases |vs|
  {
    if |vs| == 0 then []
    else
      Flat(vs[..|vs| - 1]) + Spread(vs[|vs| - 1])
  }

  /** One step of `Flat`: the last element's contribution follows the
      flattening of the elements before it. */
  lemma FlatStep(vs: seq<Value>)
    requires |vs| > 0
    ensures Flat(vs) == Flat(vs[..|vs| - 1]) + Spread(vs[|vs| - 1])
  {
  }

  /** Nothing is invented: every element of `Flat(vs)` is an element of `vs`
      or an item of one of its arrays. */
  lemma {:induction false} FlatDrawsFromList(vs: seq<Value>)
    ensures forall x :: x in Flat(vs) ==> x in vs || exists j :: 0 <= j < |vs| && vs[j].Arr? && x in vs[j].items
    decreases |vs|
  {
    if |vs| > 0 {
      var init := vs[..|vs| - 1];
      FlatDrawsFromList(init);
      FlatStep(vs);
      forall x | x in Flat(vs)
        ensures x in vs || exists j :: 0 <= j < |vs| && vs[j].Arr? && x in vs[j].items
      {
        if x in Flat(init) {
          if x !in init {
            var j :| 0 <= j < |init| && init[j].Arr? && x in init[j].items;
            assert vs[j] == init[j];
          }
        } else if vs[|vs| - 1].Arr? {
          assert x in vs[|vs| - 1].items;
        }
      }
    }
  }

  /** Flattening works element by element: the flattening of a concatenation
      is the concatenation of the flattenings. */
  lemma {:induction false} FlatDistributes(a: seq<Value>, b: seq<Value>)
    ensures Flat(a + b) == Flat(a) + Flat(b)
    decreases |b|
  {
    if |b| == 0 {
      assert a + b == a;
    } else {
      var init, last := b[..|b| - 1], b[|b| - 1];
      var ab := a + b;
      assert ab[..|ab| - 1] == a + init;
      assert ab[|ab| - 1] == last;
      calc {
        Flat(ab);
        { FlatStep(ab); }
        Flat(a + init) + Spread(last);
        { FlatDistributes(a, init); }
        Flat(a) + Flat(init) + Spread(last);
        Flat(a) + (Flat(init) + Spread(last));
        { FlatStep(b); }
        Flat(a) + Flat(b);
      }
    }
  }

  /** One element flattens to its items when it is an array, and to itself
      otherwise; with `FlatDistributes` this fixes `Flat` on every list. */
  lemma FlatOfOne(x: Value)
    ensures x.Arr? ==> Flat([x]) == x.items
    ensures !x.Arr? ==> Flat([x]) == [x]
  {
    assert [x][..0] == [];
  }

  /** The full recomputation of a miss: pop the combiner, derive the results,
      flatten them one level when `selectorsRes[0][0]` is an array, freeze each
      (the identity on values), then call the combiner. Each step's throw
      ends the call; a popped group or `undefined` is not callable. */
  function Compute(funcs: seq<Element>, args: seq<Value>, firstId: nat): (r: Result<Value>)
    ensures |funcs| > 0 && funcs[|funcs| - 1].Group? ==> r.Throw?
    ensures |funcs| <= 1 ==> r == Throw(NullishAccess)
  {
    var (rest, top) := Pop(funcs);
    match SelectorsRes(rest, args, firstId)
    case Throw(e) => Throw(e)
    case Ok(selectorsRes) =>
      match IsMatrix(selectorsRes)
      case Throw(e) => Throw(e)
      case Ok(isMatrix) =>
        var list := if isMatrix then Flat(selectorsRes) else selectorsRes;
        if top.None? || top.value.Group? then Throw(NotAFunction)
        else top.value.f(list)
  }

  /** One call of the returned closure. A miss pops `funcs` even when it ends
      by throwing; a result is stored only under an object key, and setting a
      primitive key throws after the recomputation. */
  function Invoke(m: Memo, args: seq<Value>, firstId: nat): (out: (Memo, Result<Value>))
    ensures out.1.Ok? ==> Has(out.0.memoizedResults, FirstArg(args)) && out.0.memoizedResults[FirstArg(args).id] == out.1.value
    ensures out.1.Throw? ==> out.0 == m.(funcs := Pop(m.funcs).0)
    ensures !IsObject(FirstArg(args)) ==> out.1.Throw?
  {
    var argsKey := FirstArg(args);
    if Has(m.memoizedResults, argsKey) then (m, Ok(m.memoizedResults[argsKey.id]))
    else
      var m' := m.(funcs := Pop(m.funcs).0);
      match Compute(m.funcs, args, firstId)
      case Throw(e) => (m', Throw(e))
      case Ok(v) =>
        if IsObject(argsKey) then (m'.(memoizedResults := m.memoizedResults[argsKey.id := v]), Ok(v))
        else (m', Throw(InvalidWeakMapKey))
  }

  /** The selector `createSelectorWeakMap` returns, with its closure state as fields. */
  class WeakMapSelector {
    var funcs: seq<Element>
    var memoizedResults: map<nat, Value>

    function State(): Memo
      reads this
    {
      Memo(funcs, memoizedResults)
    }

    constructor (funcs: seq<Element>)
      ensures State() == Initial(funcs)
    {
      this.funcs := funcs;
      memoizedResults := map[];
    }

    /** Calls the selector with `args`; the arrays the call allocates for
        groups get identities from `firstId` on. */
    method Call(args: seq<Value>, firstId: nat) returns (r: Result<Value>)
      modifies this
      ensures (State(), r) == Invoke(old(State()), args, firstId)
    {
      var argsKey := FirstArg(args);
      if Has(memoizedResults, argsKey) {
        return Ok(memoizedResults[argsKey.id]);
      }
      var resultFunc;
      funcs, resultFunc := Pop(funcs).0, Pop(funcs).1;
      var selectorsRes := SelectorsRes(funcs, args, firstId);
      if selectorsRes.Throw? {
        return Throw(selectorsRes.error);
      }
      var isMatrix := IsMatrix(selectorsRes.value);
      if isMatrix.Throw? {
        return Throw(isMatrix.error);
      }
      var list := if isMatrix.value then Flat(selectorsRes.value) else selectorsRes.value;
      if resultFunc.None? || resultFunc.value.Group? {
        return Throw(NotAFunction);
      }
      r := resultFunc.value.f(list);
      if r.Ok? {
        if !IsObject(argsKey) {
          return Throw(InvalidWeakMapKey);
        }
        memoizedResults := memoizedResults[argsKey.id := r.value];
      }
    }
  }

  /** The derived values determine the map: when every element is derived
      normally, `selectorsRes` is exactly the list of their values. */
  lemma {:induction false} SelectorsResOfResults(es: seq<Element>, args: seq<Value>, firstId: nat, vs: seq<Value>)
    requires |vs| == |es|
    requires forall i :: 0 <= i < |es| ==> Derive(es[i], args, firstId + i) == Ok(vs[i])
    ensures SelectorsRes(es, args, firstId) == Ok(vs)
    decreases |es|
  {
    if |es| > 0 {
      SelectorsResOfResults(es[..|es| - 1], args, firstId, vs[..|vs| - 1]);
      assert vs[..|vs| - 1] + [vs[|vs| - 1]] == vs;
    }
  }

  /** What the combiner receives: when every element before it is derived
      normally, the combiner is called with the derived values flattened one
      level if `selectorsRes[0][0]` is an array, and with them unchanged
      otherwise; reading `selectorsRes[0][0]` can itself throw. */
  lemma CombinerArguments(es: seq<Element>, combiner: Fn, args: seq<Value>, firstId: nat, vs: seq<Value>)
    requires |vs| == |es|
    requires forall i :: 0 <= i < |es| ==> Derive(es[i], args, firstId + i) == Ok(vs[i])
    ensures IsMatrix(vs) == Ok(true) ==> Compute(es + [Single(combiner)], args, firstId) == combiner(Flat(vs))
    ensures IsMatrix(vs) == Ok(false) ==> Compute(es + [Single(combiner)], args, firstId) == combiner(vs)
    ensures IsMatrix(vs).Throw? ==> Compute(es + [Single(combiner)], args, firstId) == Throw(IsMatrix(vs).error)
  {
    assert (es + [Single(combiner)])[..|es|] == es;
    SelectorsResOfResults(es, args, firstId, vs);
  }

  /** The grouped case: a chain of one group followed by the combiner. When
      every extractor of the group returns and the first result is an array,
      the combiner receives exactly the extractors' results, not the group's
      array. */
  lemma GroupedExtractorsFlattened(group: seq<Fn>, combiner: Fn, args: seq<Value>, firstId: nat, vs: seq<Value>)
    requires |vs| == |group| && |vs| > 0 && vs[0].Arr?
    requires forall i :: 0 <= i < |group| ==> group[i](args) == Ok(vs[i])
    ensures Compute([Group(group), Single(combiner)], args, firstId) == combiner(vs)
  {
    ApplyAllOfResults(group, args, vs);
    var grouped := Arr(firstId, vs);
    assert Derive(Group(group), args, firstId + 0) == Ok(grouped);
    CombinerArguments([Group(group)], combiner, args, firstId, [grouped]);
    assert IsMatrix([grouped]) == Ok(true);
    assert [grouped][..0] == [];
    assert Flat([grouped]) == vs;
  }

  /** The unflattened case: a chain of one group followed by the combiner.
      When the group's first member returns something other than an array,
      nothing is flattened and the combiner receives the group's new array as
      its only argument. */
  lemma GroupedExtractorsNotFlattened(group: seq<Fn>, combiner: Fn, args: seq<Value>, firstId: nat, vs: seq<Value>)
    requires |vs| == |group| && |vs| > 0 && !vs[0].Arr?
    requires forall i :: 0 <= i < |group| ==> group[i](args) == Ok(vs[i])
    ensures Compute([Group(group), Single(combiner)], args, firstId) == combiner([Arr(firstId, vs)])
  {
    ApplyAllOfResults(group, args, vs);
    var grouped := Arr(firstId, vs);
    assert Derive(Group(group), args, firstId + 0) == Ok(grouped);
    CombinerArguments([Group(group)], combiner, args, firstId, [grouped]);
  }

  /** A hit on the key object returns the stored result without calling any
      function and changes nothing. */
  lemma HitReturnsStored(m: Memo, args: seq<Value>, firstId: nat)
    requires Has(m.memoizedResults, FirstArg(args))
    ensures Invoke(m, args, firstId) == (m, Ok(m.memoizedResults[FirstArg(args).id]))
  {
  }

  /** A miss on an object key pops the last element of `funcs`, returns what
      the recomputation gives and, when it returns, stores the result under
      the key object's identity and nothing else. */
  lemma MissStoresUnderObjectKey(m: Memo, args: seq<Value>, firstId: nat)
    requires IsObject(FirstArg(args)) && !Has(m.memoizedResults, FirstArg(args))
    ensures var (m', r) := Invoke(m, args, firstId);
            && r == Compute(m.funcs, args, firstId)
            && m'.funcs == Pop(m.funcs).0
            && m'.memoizedResults == (if r.Ok? then m.memoizedResults[FirstArg(args).id := r.value] else m.memoizedResults)
  {
  }

  /** A primitive key (or no argument at all) is never stored: the call still
      pops `funcs` and recomputes, and then always throws. */
  lemma PrimitiveKeyNeverStored(m: Memo, args: seq<Value>, firstId: nat)
    requires !IsObject(FirstArg(args))
    ensures var (m', r) := Invoke(m, args, firstId);
            && r.Throw?
            && m'.memoizedResults == m.memoizedResults
            && m'.funcs == Pop(m.funcs).0
  {
  }

  /** Identity keying: storing a result for one object does not make a
      different object hit, even one with the same contents. */
  lemma DistinctObjectsAreSeparateKeys(m: Memo, args: seq<Value>, firstId: nat, other: Value)
    requires |args| > 0 && IsObject(args[0]) && IsObject(other) && other.id != args[0].id
    requires !Has(m.memoizedResults, other)
    ensures !Has(Invoke(m, args, firstId).0.memoizedResults, other)
  {
  }

  /** Calling again with the same key object after a call that returned is a
      hit: it returns the same result and changes nothing, `funcs` included. */
  lemma RepeatedKeyHits(m: Memo, args: seq<Value>, again: seq<Value>, firstId: nat, laterId: nat)
    requires Invoke(m, args, firstId).1.Ok?
    requires |again| > 0 && |args| > 0 && again[0] == args[0]
    ensures var (m', r) := Invoke(m, args, firstId);
            Invoke(m', again, laterId) == (m', r)
  {
  }
}
