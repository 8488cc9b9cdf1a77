/** The usages that accompany the selectors, replayed on the model: a sum over
    `state.numbers` through `createSelector`, and the grouped extractors of
    `createSelectorWeakMap`. */
module Scenarios {
  import opened JsValues
  import opened SelectorCore
  import Equality
  import CreateSelector
  import CreateSelectorWeakMap

  /** `v.name`: an own field of an object, `undefined` for anything else that
      has no such property here, and a TypeError on `undefined` and `null`. */
  function GetProperty(v: Value, name: string): (r: Result<Value>)
    ensures r.Throw? <==> v.Undefined? || v.Null?
    ensures v.Obj? && name in v.fields ==> r == Ok(v.fields[name])
  {
    match v
    case Undefined => Throw(NullishAccess)
    case Null => Throw(NullishAccess)
    case Obj(_, fields) => Ok(if name in fields then fields[name] else Undefined)
    case _ => Ok(Undefined)
  }

  /** The sum of the numbers in a list; the scenarios apply it only to lists
      of numbers. */
  function SumOfNumbers(items: seq<Value>): int
  {
    if |items| == 0 then 0
    else SumOfNumbers(items[..|items| - 1]) + (if items[|items| - 1].Num? then items[|items| - 1].n else 0)
  }

  /** `state => state.numbers` */
  const GetNumbers: Fn := (args: seq<Value>) => GetProperty(FirstArg(args), "numbers")

  /** `state => state.strings` */
  const GetStrings: Fn := (args: seq<Value>) => GetProperty(FirstArg(args), "strings")

  /** `numbers => numbers.reduce((a, b) => a + b, 0)` */
  const Sum: Fn := (args: seq<Value>) =>
    if FirstArg(args).Arr? then Ok(Num(SumOfNumbers(FirstArg(args).items)))
    else Throw(TypeError("numbers.reduce is not a function"))

  const Numbers := Arr(2, [Num(1), Num(2), Num(3), Num(4), Num(5)])
  const Strings := Arr(3, [Str("first"), Str("second"), Str("third"), Str("fourth"), Str("fifth")])

  /** The state object, with identity 1. */
  const StateStore := Obj(1, map["numbers" := Numbers, "strings" := Strings])

  /** The numbers of the state add up to 15. */
  lemma SumOfNumbersIs15()
    ensures SumOfNumbers(Numbers.items) == 15
  {
    var s := Numbers.items;
    assert s[..1][..0] == [];
    assert SumOfNumbers(s[..1]) == 1;
    assert s[..2][..1] == s[..1];
    assert SumOfNumbers(s[..2]) == 3;
    assert s[..3][..2] == s[..2];
    assert SumOfNumbers(s[..3]) == 6;
    assert s[..4][..3] == s[..3];
    assert SumOfNumbers(s[..4]) == 10;
  }

  /** `createSelector(getNumbers, sum)` on the state: the first call pops the
      sum as the combiner and returns 15; the second returns the cached 15
      and changes nothing. */
  lemma GetSumReturnsCached15()
    ensures var m0 := CreateSelector.Initial([GetNumbers, Sum]);
            var (m1, r1) := CreateSelector.Invoke(m0, [StateStore]);
            var (m2, r2) := CreateSelector.Invoke(m1, [StateStore]);
            && r1 == Ok(Num(15)) && m1.funcs == [GetNumbers]
            && r2 == Ok(Num(15)) && m2 == m1
  {
    SumOfNumbersIs15();
    var m0 := CreateSelector.Initial([GetNumbers, Sum]);
    assert GetNumbers([StateStore]) == Ok(Numbers);
    RecomputeCallsLastWithResults([GetNumbers, Sum], [StateStore], [Numbers]);
    CreateSelector.RepeatedCallHits(m0, [StateStore]);
  }

  /** The comparison is on the raw arguments: a copy of the state, with the
      same contents but another identity, misses. That miss pops `getNumbers`
      and calls it as the combiner with no arguments, which throws; the
      remembered call is kept and `funcs` is left empty. */
  lemma CopyOfStateMissesWithWrongCombiner()
    ensures var copy := Obj(4, StateStore.fields);
            var m0 := CreateSelector.Initial([GetNumbers, Sum]);
            var m2 := CreateSelector.Invoke(m0, [StateStore]).0;
            var (m3, r3) := CreateSelector.Invoke(m2, [copy]);
            && r3 == Throw(NullishAccess)
            && m3.funcs == []
            && m3.lastArgs == Some([StateStore])
  {
    GetSumReturnsCached15();
    var copy := Obj(4, StateStore.fields);
    assert !Equality.DefaultEqualityCheck(StateStore, copy);
    RecomputeCallsLastWithResults([GetNumbers], [copy], []);
  }

  /** The text `a.str + strings[i]` appends at step `i`: the string itself,
      and "undefined" past the end of `strings`. The scenarios apply it only
      to lists of strings. */
  function StrAt(strings: seq<Value>, i: nat): string
  {
    if i < |strings| && strings[i].Str? then strings[i].s
    else if i >= |strings| then "undefined"
    else ""
  }

  /** The `str` of the accumulator after `n` steps of the reduce. */
  function JoinStrings(strings: seq<Value>, n: nat): string
  {
    if n == 0 then "" else JoinStrings(strings, n - 1) + StrAt(strings, n - 1)
  }

  /** `(numbers, strings) => numbers.reduce((a, b, i) => ({sum: a.sum + b,
      str: a.str + strings[i]}), {sum: 0, str: ''})`: the accumulator after
      the last step, a new object whose identity the host gives as `id`.
      Arguments other than two arrays throw; the scenarios do not pass them. */
  function SumAndStrings(id: nat): Fn
  {
    (args: seq<Value>) =>
      if |args| >= 2 && args[0].Arr? && args[1].Arr? then
        Ok(Obj(id, map["sum" := Num(SumOfNumbers(args[0].items)),
                       "str" := Str(JoinStrings(args[1].items, |args[0].items|))]))
      else if |args| == 0 || !args[0].Arr? then Throw(TypeError("numbers.reduce is not a function"))
      else Throw(NullishAccess)
  }

  /** The strings of the state, joined in order. */
  lemma JoinedStrings()
    ensures JoinStrings(Strings.items, 5) == "firstsecondthirdfourthfifth"
  {
    var s := Strings.items;
    assert JoinStrings(s, 1) == "first";
    assert JoinStrings(s, 2) == "firstsecond";
    assert JoinStrings(s, 3) == "firstsecondthird";
    assert JoinStrings(s, 4) == "firstsecondthirdfourth";
  }

  /** `createSelectorWeakMap([getNumbers, getStrings], combiner)` on the state:
      the group's results are flattened, so the combiner receives the numbers
      first and the strings second; it returns `{sum: 15, str:
      'firstsecondthirdfourthfifth'}`, stored under the state object. The
      second call returns the stored object and changes nothing. */
  lemma WeakSelectorReturnsStoredSumAndStrings(firstId: nat, laterId: nat, id: nat)
    ensures var funcs := [CreateSelectorWeakMap.Group([GetNumbers, GetStrings]), CreateSelectorWeakMap.Single(SumAndStrings(id))];
            var expected := Obj(id, map["sum" := Num(15), "str" := Str("firstsecondthirdfourthfifth")]);
            var m0 := CreateSelectorWeakMap.Initial(funcs);
            var (m1, r1) := CreateSelectorWeakMap.Invoke(m0, [StateStore], firstId);
            var (m2, r2) := CreateSelectorWeakMap.Invoke(m1, [StateStore], laterId);
            && r1 == Ok(expected) && m1.memoizedResults == map[StateStore.id := expected]
            && r2 == Ok(expected) && m2 == m1
  {
    SumOfNumbersIs15();
    JoinedStrings();
    var group := [GetNumbers, GetStrings];
    assert GetNumbers([StateStore]) == Ok(Numbers);
    assert GetStrings([StateStore]) == Ok(Strings);
    CreateSelectorWeakMap.GroupedExtractorsFlattened(group, SumAndStrings(id), [StateStore], firstId, [Numbers, Strings]);
  }
}
