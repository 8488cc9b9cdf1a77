# Memoization and selectors, modelled in Dafny

This project models the memoization library in `src/utils.ts`. The library has
two single-argument memos and three selectors.

- `memoizationExample` caches `{data: param + 5}` in a dictionary attached to the function.
- `memoizationMap` caches by value in a `Map` and by object identity in a `WeakMap`.
- `createSelector` is a last-call memo. It compares the raw call arguments with
  the remembered ones under `areArgumentsShallowlyEqual`, which uses
  `defaultEqualityCheck` (`===`).
- `createSelectorMap` memoizes in a `Map` keyed by the serialized argument list.
- `createSelectorWeakMap` memoizes in a `WeakMap` keyed by the first argument. Its
  chain may hold groups of extractors. It flattens the results one level when
  the first element of the first result is an array.

Each file is one module:

- `js_values.dfy` (`JsValues`): the host values, errors and functions. Objects and
  arrays carry an allocation identity `id`. Two of them are `===` exactly when
  their identities agree.
- `equality.dfy` (`Equality`): `defaultEqualityCheck`, shallow equality as a
  predicate, and `areArgumentsShallowlyEqual` as a method with a loop.
- `selector_core.dfy` (`SelectorCore`): `funcs.pop()` and the recomputation
  `resultFunc(...funcs.map(...))` that the selectors share.
- `create_selector.dfy`, `create_selector_map.dfy`, `create_selector_weak_map.dfy`: one module per selector. Each has:
  - a datatype `Memo` for the closure state;
  - a function `Invoke` for one call of the returned closure;
  - a class whose fields are that closure state, and whose `Call` method is proved to follow `Invoke`;
  - lemmas about `Invoke`.
- `memoization_example.dfy`, `memoization_map.dfy`: the two memos, as classes over `map` fields.
- `scenarios.dfy`: the usage code in the source file, replayed on the model.

The selectors keep one quirk of the code. `funcs.pop()` runs inside the
returned closure, on every miss. So every miss removes the last element of
`funcs`, and the next miss calls the previous last extractor as its combiner.
A hit never changes `funcs`. `SuccessiveMissesUseSuccessiveCombiners` and
`CopyOfStateMissesWithWrongCombiner` show this.

Three more behaviours of the code are modelled as written:

- The combiner is popped on every miss, not split off once at construction (`src/utils.ts:104`, `:139`, `:163`).
- `createSelector` compares the raw call arguments, not the extractors' outputs (`src/utils.ts:102`).
- `createSelectorWeakMap` does not reject a primitive key up front (`src/utils.ts:158-176`):
  - `has` answers false for a primitive key.
  - The call then pops `funcs` and recomputes.
  - Only `set` throws, after the result has been computed.

## Model

| member | source | states |
|---|---|---|
| `Equality.DefaultEqualityCheck` | src/utils.ts:74-76 | `===` compares two objects or arrays by identity alone and two primitives by value; an object never equals a primitive |
| `Equality.DefaultEqualityIsEquivalence` | src/utils.ts:74-76 | `===` is reflexive, symmetric and transitive on the modelled values |
| `Equality.DefaultEqualityIsIdentity` | src/utils.ts:74-76 | objects compare by identity: same contents and different identities are unequal; one identity is equal to itself whatever it holds |
| `Equality.FirstMismatch` | src/utils.ts:87-91 | the result is the first position where the check fails: every earlier position passes and the check fails at it, or it is the length when no position fails |
| `Equality.ShallowlyEqualIffNoMismatch` | src/utils.ts:85-93 | for lists of one length, shallow equality holds exactly when no position fails |
| `Equality.AreArgumentsShallowlyEqual` | src/utils.ts:79-94 | false when either list is null or the lengths differ, with no check applied; otherwise true exactly when the check holds at every position; the check is applied up to and including the first failing position and no further |
| `Equality.DefaultShallowlyReflexive` | src/utils.ts:74-93 | with `===`, every present argument list is shallowly equal to itself |
| `Equality.DefaultShallowlySymmetric` | src/utils.ts:74-93 | with `===`, shallow equality is symmetric |
| `Equality.DefaultShallowlyOrderSensitive` | src/utils.ts:85-93 | swapping two arguments that are not `===` makes the lists unequal |
| `Equality.ShallowlyUnequalOnExtraArgument` | src/utils.ts:81-83 | a list is never equal to itself with an extra trailing argument |
| `Equality.LastCallArgumentExamples` | src/utils.ts:79-94 | `(1,2)` matches `(1,2)`; `(1,3)` and `(2,1)` do not |
| `SelectorCore.Pop` | src/utils.ts:104 | on a non-empty list, returns the last element, and the rest followed by it is the old list; on an empty list, returns `undefined` and the list stays empty |
| `SelectorCore.ApplyAll` | src/utils.ts:107 | on success, one result per function, each being that function applied to the call arguments; on a throw, it is the throw of the first function that throws, and every earlier function returned |
| `SelectorCore.ApplyAllOfResults` | src/utils.ts:107 | when every function returns, the map is exactly the list of their results |
| `SelectorCore.Recompute` | src/utils.ts:104-107 | with `funcs` empty, the call throws "not a function"; otherwise the first extractor that throws decides the outcome |
| `SelectorCore.RecomputeCallsLastWithResults` | src/utils.ts:104-107 | when every extractor returns, the combiner (the last element of `funcs`) receives exactly their results, in order |
| `CreateSelector.Invoke` | src/utils.ts:100-114 | after a call that returns, the remembered arguments match this call's and the remembered result is the one returned; a call that throws only pops `funcs` |
| `CreateSelector.LastCallSelector.constructor` | src/utils.ts:96-98 | the selector starts with the given `funcs`, `lastArgs` null and `lastResult` null |
| `CreateSelector.LastCallSelector.Call` | src/utils.ts:100-114 | the new `funcs`, `lastArgs`, `lastResult` and the outcome are those of `Invoke` on the old state |
| `CreateSelector.FirstCallMisses` | src/utils.ts:97-107 | the first call always misses, pops the last element of `funcs` and returns the recomputation |
| `CreateSelector.HitChangesNothing` | src/utils.ts:102-113 | a call shallowly equal to `lastArgs` returns `lastResult` and changes neither `lastArgs`, `lastResult` nor `funcs` |
| `CreateSelector.MissPopsLast` | src/utils.ts:102-104 | a miss removes exactly the last element of `funcs`, whether it returns or throws |
| `CreateSelector.MissRecordsCall` | src/utils.ts:102-109 | a miss returns the recomputation; if that returns, `lastArgs` becomes these arguments and `lastResult` the result; if it throws, both are kept |
| `CreateSelector.RepeatedCallHits` | src/utils.ts:100-113 | after a call that returned, the same arguments hit and change nothing |
| `CreateSelector.SuccessiveMissesUseSuccessiveCombiners` | src/utils.ts:102-108 | after a miss that returned, a call with other arguments misses, recomputes with the popped list (its last extractor becomes the combiner) and pops again |
| `CreateSelectorMap.Invoke` | src/utils.ts:133-146 | after a call that returns, the map holds the returned result under this call's key; a call that throws only pops `funcs` |
| `CreateSelectorMap.MapSelector.constructor` | src/utils.ts:130-131 | the selector starts with the given `funcs` and an empty map |
| `CreateSelectorMap.MapSelector.Call` | src/utils.ts:133-146 | the new `funcs`, map and outcome are those of `Invoke` on the old state |
| `CreateSelectorMap.HitReturnsStored` | src/utils.ts:134-137 | a key already in the map returns the stored result and changes nothing; no function is called |
| `CreateSelectorMap.MissStoresResult` | src/utils.ts:138-145 | a miss pops the last element of `funcs` and returns the recomputation; a returned result is stored under the key, and nothing is stored on a throw |
| `CreateSelectorMap.InvokeOnlyGrows` | src/utils.ts:134-145 | no stored entry is ever changed or removed, and a call adds at most the entry for its own key |
| `CreateSelectorMap.SameKeySharesEntry` | src/utils.ts:134-137 | argument lists with the same serialization share one entry: after the first returns, the second hits with the same result |
| `CreateSelectorWeakMap.Has` | src/utils.ts:158 | `has` is false for every primitive key; for an object, it is whether its identity is stored |
| `CreateSelectorWeakMap.Derive` | src/utils.ts:165-170 | a single extractor is applied to the call arguments; a group returns a new array with the group's identity, of the group's length, whose item `i` is member `i`'s result; a group that throws throws what its first throwing member throws, and every earlier member returned |
| `CreateSelectorWeakMap.SelectorsRes` | src/utils.ts:165-170 | on success, one derived value per chain element, in order |
| `CreateSelectorWeakMap.SelectorsResThrowsFirstFailure` | src/utils.ts:165-170 | a throw comes from the first element that throws, and every earlier element was derived normally |
| `CreateSelectorWeakMap.SelectorsResOfResults` | src/utils.ts:165-170 | when every element is derived normally, `selectorsRes` is exactly their values |
| `CreateSelectorWeakMap.IsMatrix` | src/utils.ts:172 | with no results it throws (reading `[0]` of `undefined`); when the first result is a non-empty array, the answer is whether its first element is an array |
| `JsValues.Index0` | src/utils.ts:172 | `v[0]` throws exactly on `undefined` and `null`, and gives the first item of a non-empty array |
| `CreateSelectorWeakMap.Flat` | src/utils.ts:172 | a list without arrays is unchanged |
| `CreateSelectorWeakMap.FlatDrawsFromList` | src/utils.ts:172 | every element of the result is either an element of the list or an item of one of its arrays |
| `CreateSelectorWeakMap.FlatDistributes` | src/utils.ts:172 | flattening a concatenation gives the concatenation of the flattenings, so nothing is dropped or reordered |
| `CreateSelectorWeakMap.FlatOfOne` | src/utils.ts:172 | one array flattens to its items, one non-array to itself |
| `CreateSelectorWeakMap.Compute` | src/utils.ts:163-174 | a popped group is not callable, so the call throws; with no extractors left, the call throws when it reads `selectorsRes[0][0]` |
| `CreateSelectorWeakMap.CombinerArguments` | src/utils.ts:172-174 | the combiner receives the derived values flattened one level when `selectorsRes[0][0]` is an array, and unchanged when it is not; if that read throws, the call throws it |
| `CreateSelectorWeakMap.GroupedExtractorsFlattened` | src/utils.ts:165-174 | for one group followed by the combiner, when the group's first member returns an array, the combiner receives the members' results themselves, not the group's array |
| `CreateSelectorWeakMap.GroupedExtractorsNotFlattened` | src/utils.ts:165-174 | for one group followed by the combiner, when the group's first member returns something other than an array, nothing is flattened and the combiner receives the group's array as its only argument |
| `CreateSelectorWeakMap.HitReturnsStored` | src/utils.ts:156-161 | a key object already in the map returns the stored result and changes nothing |
| `CreateSelectorWeakMap.MissStoresUnderObjectKey` | src/utils.ts:162-178 | a miss on an object key pops `funcs` and returns the recomputation; a returned result is stored under the key's identity, and nothing is stored on a throw |
| `CreateSelectorWeakMap.PrimitiveKeyNeverStored` | src/utils.ts:156-176 | a primitive or missing first argument is never stored: the call pops `funcs` and always throws |
| `CreateSelectorWeakMap.DistinctObjectsAreSeparateKeys` | src/utils.ts:156-176 | storing a result for one object does not make another object hit, even with the same contents |
| `CreateSelectorWeakMap.RepeatedKeyHits` | src/utils.ts:156-178 | after a call that returned, a call with the same first argument hits and changes nothing |
| `CreateSelectorWeakMap.Invoke` | src/utils.ts:154-180 | after a call that returns, the key is an object and the map holds the returned result under its identity; a call that throws only pops `funcs`; a primitive key always throws |
| `CreateSelectorWeakMap.WeakMapSelector.constructor` | src/utils.ts:151-152 | the selector starts with the given `funcs` and an empty map |
| `CreateSelectorWeakMap.WeakMapSelector.Call` | src/utils.ts:154-180 | the new `funcs`, map and outcome are those of `Invoke` on the old state |
| `MemoizationExample.ExampleMemo.constructor` | src/utils.ts:23 | the cache starts empty |
| `MemoizationExample.ExampleMemo.SlotTruthy` | src/utils.ts:10 | the slot `cache[param]` is truthy exactly when a record is stored under `param` |
| `MemoizationExample.ExampleMemo.Call` | src/utils.ts:8-21 | the result is the record stored under `param`. On a truthy slot, it is the record already stored, whatever its `data` now holds, and the cache is unchanged. On an empty slot, a new record holding `param + 5` is stored under `param` alone and the cache grows by one. No record's `data` is changed |
| `MemoizationExample.RepeatedCall` | src/utils.ts:25-29 | two calls with 11 return the same record `{data: 16}` |
| `MemoizationExample.SharedRecord` | src/utils.ts:10-20 | the cache and the caller share the record: after the caller sets its `data` to 0, the next call with 11 returns that record holding 0 |
| `MemoizationMap.MapMemo.constructor` | src/utils.ts:31-32 | both caches start empty |
| `MemoizationMap.MapMemo.Call` | src/utils.ts:34-61 | a primitive touches only `cacheMap`: it adds `n + 5` under `n` if absent (size +1), else returns the stored value (size unchanged). An object touches only `cacheWeakMap`, keyed by reference, storing `value + 5` if absent. `null` throws and changes nothing |
| `MemoizationMap.RepeatedPrimitive` | src/utils.ts:63-68 | two calls with 4 return 9 both times, and `cacheMap` holds one entry |
| `MemoizationMap.SeparateObjects` | src/utils.ts:36-47 | two objects with the same contents get separate entries; a hit returns the stored value even after the object's field changed |
| `Scenarios.GetProperty` | src/utils.ts:123 | `state.numbers` throws exactly on `undefined` and `null`, and reads an object's own field |
| `Scenarios.SumOfNumbersIs15` | src/utils.ts:119-125 | the state's numbers add up to 15 |
| `Scenarios.GetSumReturnsCached15` | src/utils.ts:117-128 | `createSelector(getNumbers, sum)` returns 15 and pops the sum; the second call returns the cached 15 and changes nothing |
| `Scenarios.CopyOfStateMissesWithWrongCombiner` | src/utils.ts:100-108 | a copy of the state with another identity misses; `getNumbers` is popped and called as the combiner with no argument, so the call throws and leaves `funcs` empty |
| `Scenarios.JoinedStrings` | src/utils.ts:195-202 | the reduce's `str` over the state's strings is `'firstsecondthirdfourthfifth'` |
| `Scenarios.WeakSelectorReturnsStoredSumAndStrings` | src/utils.ts:183-206 | the grouped weak selector passes the numbers first and the strings second to its combiner, returns `{sum: 15, str: 'firstsecondthirdfourthfifth'}` and stores it under the state's identity; the second call returns the stored object and changes nothing |

## Left out

- `console.log` tracing is not modelled. It has no functional effect.
- The usage code of `src/utils.ts` runs only as the scenarios above. It is not library logic.
- `WeakMap` reclamation by the garbage collector is not modelled. The identity-keyed caches are ordinary maps keyed by object identity, and their entries are never removed.
- `JSON.stringify` (`src/utils.ts:134`) is a parameter of the map selector, `stringify`. Its output format is not modelled, and neither are its failures (cycles).
- `Object.freeze` (`src/utils.ts:174`) is the identity on values. Runtime immutability has no counterpart here.
- Numbers are unbounded integers. Floating point, NaN, negative zero, and string or boolean coercion by `+` are not modelled.
  - `memoizationExample` and `memoizationMap` take integer primitives.
  - The host turns a dictionary key into a string. Distinct integers give distinct keys, so keys stay integers.
- `MemoizationExample.ExampleMemo.SlotTruthy`: the truthiness test `!cache[param]` becomes key presence. Every value the cache holds is a record, which is truthy.
- `typeof`, `Array.isArray` and the `arguments` object are not modelled as runtime inspection.
  - An argument of `memoizationMap` is a tagged `Input`.
  - A chain element of `createSelectorWeakMap` is a tagged `Element`: one extractor or a group.
  - Argument lists are sequences.
  - The chains of `createSelector` and `createSelectorMap` hold functions only. An array placed in them is not modelled.
- Extractors and combiners are pure functions that return a value or throw. Side effects, and `this` (always `null` through `apply`), are not modelled.
- An array that a group allocates gets the identity `firstId + i`, where `firstId` is supplied by the caller and `i` is the group's position. The host allocator's guarantee that this identity is new is not modelled. The lemmas hold for every `firstId`. The same goes for the identity of the object the scenario's combiner returns.
- `flat()` does not handle holes in arrays in this model. Property reads other than an object's own fields and index 0 (for example `length`) are not modelled.
- Concurrency does not arise. The code is single-threaded and synchronous.
