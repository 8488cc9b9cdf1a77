/** The equality strategy: strict equality on values, and the shallow,
    position-by-position comparison of two argument lists built on it. */
module Equality {
  import opened JsValues

  /** A pluggable equality check on two values. */
  type EqualityCheck = (Value, Value) -> bool

  /** `a === b`: objects and arrays are equal when they are the same object,
      everything else when it is the same value. Nothing is compared deeply. */
  function DefaultEqualityCheck(a: Value, b: Value): (r: bool)
    ensures IsObject(a) && IsObject(b) ==> (r <==> a.id == b.id)
    ensures !IsObject(a) && !IsObject(b) ==> (r <==> a == b)
    ensures IsObject(a) != IsObject(b) ==> !r
  {
    if IsObject(a) || IsObject(b) then IsObject(a) && IsObject(b) && a.id == b.id
    else a == b
  }

  /** Strict equality is an equivalence on the values of this model. */
  lemma DefaultEqualityIsEquivalence(a: Value, b: Value, c: Value)
    ensures DefaultEqualityCheck(a, a)
    ensures DefaultEqualityCheck(a, b) ==> DefaultEqualityCheck(b, a)
    ensures DefaultEqualityCheck(a, b) && DefaultEqualityCheck(b, c) ==> DefaultEqualityCheck(a, c)
  {
  }

  /** Two objects with the same contents but different identities are not
      strictly equal, and one object is equal to itself whatever it holds. */
  lemma DefaultEqualityIsIdentity(i: nat, j: nat, fields: map<string, Value>, other: map<string, Value>)
    ensures i != j ==> !DefaultEqualityCheck(Obj(i, fields), Obj(j, fields))
    ensures DefaultEqualityCheck(Obj(i, fields), Obj(i, other))
  {
  }

  /** Both lists are present, of one length, and `eq` holds at every position. */
  predicate ShallowlyEqual(eq: EqualityCheck, prev: Option<seq<Value>>, next: Option<seq<Value>>)
  {
    && prev.Some? && next.Some?
    && |prev.value| == |next.value|
    && forall i :: 0 <= i < |prev.value| ==> eq(prev.value[i], next.value[i])
  }

  /** The first position at which `eq` fails, or the common length when it
      fails nowhere. */
  function FirstMismatch(eq: EqualityCheck, prev: seq<Value>, next: seq<Value>): (k: nat)
    requires |prev| == |next|
    ensures k <= |prev|
    ensures forall i :: 0 <= i < k ==> eq(prev[i], next[i])
    ensures k < |prev| ==> !eq(prev[k], next[k])
    decreases |prev|
  {
    if |prev| == 0 then 0
    else if !eq(prev[0], next[0]) then 0
    else 1 + FirstMismatch(eq, prev[1..], next[1..])
  }

  /** Shallow equality of two lists of one length holds exactly when no
      position fails. */
  lemma ShallowlyEqualIffNoMismatch(eq: EqualityCheck, prev: seq<Value>, next: seq<Value>)
    requires |prev| == |next|
    ensures ShallowlyEqual(eq, Some(prev), Some(next)) <==> FirstMismatch(eq, prev, next) == |prev|
  {
  }

  /** `areArgumentsShallowlyEqual`: false when either list is absent or the
      lengths differ; otherwise the check is applied position by position and
      the loop returns false at the first failing position. `calls` counts the
      applications of `equalityCheck`: one more than the failing position, or
      the length when every position passes. */
  method AreArgumentsShallowlyEqual(equalityCheck: EqualityCheck, prev: Option<seq<Value>>, next: Option<seq<Value>>)
    returns (r: bool, ghost calls: nat)
    ensures prev.None? || next.None? ==> !r && calls == 0
    ensures prev.Some? && next.Some? && |prev.value| != |next.value| ==> !r && calls == 0
    ensures r <==> ShallowlyEqual(equalityCheck, prev, next)
    ensures prev.Some? && next.Some? && |prev.value| == |next.value| ==>
              var k := FirstMismatch(equalityCheck, prev.value, next.value);
              calls == (if k < |prev.value| then k + 1 else k)
  {
    if prev.None? || next.None? || |prev.value| != |next.value| {
      return false, 0;
    }
    var length := |prev.value|;
    calls := 0;
    for i := 0 to length
      invariant calls == i
      invariant forall j :: 0 <= j < i ==> equalityCheck(prev.value[j], next.value[j])
    {
      calls := calls + 1;
      if !equalityCheck(prev.value[i], next.value[i]) {
        return false, calls;
      }
    }
    return true, calls;
  }

  /** With strict equality, every present argument list is shallowly equal to itself. */
  lemma DefaultShallowlyReflexive(args: seq<Value>)
    ensures ShallowlyEqual(DefaultEqualityCheck, Some(args), Some(args))
  {
  }

  /** Shallow equality under strict equality is symmetric. */
  lemma DefaultShallowlySymmetric(prev: Option<seq<Value>>, next: Option<seq<Value>>)
    requires ShallowlyEqual(DefaultEqualityCheck, prev, next)
    ensures ShallowlyEqual(DefaultEqualityCheck, next, prev)
  {
  }

  /** Shallow equality is order-sensitive: swapping two arguments that are not
      strictly equal gives an unequal list. */
  lemma DefaultShallowlyOrderSensitive(a: Value, b: Value)
    requires !DefaultEqualityCheck(a, b)
    ensures !ShallowlyEqual(DefaultEqualityCheck, Some([a, b]), Some([b, a]))
  {
    assert [a, b][0] == a && [b, a][0] == b;
  }

  /** A list is never shallowly equal to one with an extra trailing argument. */
  lemma ShallowlyUnequalOnExtraArgument(eq: EqualityCheck, args: seq<Value>, extra: Value)
    ensures !ShallowlyEqual(eq, Some(args), Some(args + [extra]))
  {
  }

  /** The argument lists of the last-call examples: `(1, 2)` matches `(1, 2)`,
      and neither `(1, 3)` nor `(2, 1)` matches it. */
  lemma LastCallArgumentExamples()
    ensures ShallowlyEqual(DefaultEqualityCheck, Some([Num(1), Num(2)]), Some([Num(1), Num(2)]))
    ensures !ShallowlyEqual(DefaultEqualityCheck, Some([Num(1), Num(2)]), Some([Num(1), Num(3)]))
    ensures !ShallowlyEqual(DefaultEqualityCheck, Some([Num(1), Num(2)]), Some([Num(2), Num(1)]))
  {
    DefaultShallowlyReflexive([Num(1), Num(2)]);
    assert [Num(1), Num(3)][1] == Num(3);
    DefaultShallowlyOrderSensitive(Num(1), Num(2));
  }
}
