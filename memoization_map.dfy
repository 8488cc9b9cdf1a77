/** `memoizationMap`: a single-argument memo with two caches. An object
    argument is looked up and stored by identity in `cacheWeakMap`; any other
    argument by value in `cacheMap`. A miss stores the argument's `value`
    field plus 5 for an object, the argument plus 5 otherwise. */
module MemoizationMap {
  import opened JsValues

  /** An object argument: `value` is the field the computation reads, and the
      caller can change it. */
  class Box {
    var value: int

    constructor (value: int)
      ensures this.value == value
    {
      this.value := value;
    }
  }

  /** The argument, split the way `typeof data === 'object'` splits it:
      `null` counts as an object. */
  datatype Input = Number(n: int) | Reference(obj: Box) | NullRef

  /** The two module-level caches. */
  class MapMemo {
    var cacheMap: map<int, int>
    var cacheWeakMap: map<Box, int>

    constructor ()
      ensures cacheMap == map[] && cacheWeakMap == map[]
    {
      cacheMap := map[];
      cacheWeakMap := map[];
    }

    /** Calls the memoized function with `data`. A primitive touches only
        `cacheMap`, an object only `cacheWeakMap`. `null` is not in the
        identity-keyed cache, and reading its `value` throws. */
    method Call(data: Input) returns (r: Result<int>)
      modifies this
      ensures data.Number? ==>
                && cacheWeakMap == old(cacheWeakMap)
                && (data.n in old(cacheMap) ==> r == Ok(old(cacheMap)[data.n]) && cacheMap == old(cacheMap))
                && (data.n !in old(cacheMap) ==> r == Ok(data.n + 5) && cacheMap == old(cacheMap)[data.n := data.n + 5])
                && |cacheMap| == if data.n in old(cacheMap) then |old(cacheMap)| else |old(cacheMap)| + 1
      ensures data.Reference? ==>
                && cacheMap == old(cacheMap)
                && (data.obj in old(cacheWeakMap) ==> r == Ok(old(cacheWeakMap)[data.obj]) && cacheWeakMap == old(cacheWeakMap))
                && (data.obj !in old(cacheWeakMap) ==>
                      r == Ok(data.obj.value + 5) && cacheWeakMap == old(cacheWeakMap)[data.obj := data.obj.value + 5])
      ensures data.NullRef? ==> r == Throw(NullishAccess) && cacheMap == old(cacheMap) && cacheWeakMap == old(cacheWeakMap)
    {
      match data
      case NullRef =>
        r := Throw(NullishAccess);
      case Reference(obj) =>
        if obj !in cacheWeakMap {
          var res := obj.value + 5;
          cacheWeakMap := cacheWeakMap[obj := res];
        }
        r := Ok(cacheWeakMap[obj]);
      case Number(n) =>
        if n !in cacheMap {
          var res := n + 5;
          cacheMap := cacheMap[n := res];
        }
        r := Ok(cacheMap[n]);
    }
  }

  /** The usage: calling twice with 4 returns 9 both times and leaves one
      entry in `cacheMap`. */
  method RepeatedPrimitive() returns (first: Result<int>, second: Result<int>, size: nat)
    ensures first == second == Ok(9) && size == 1
  {
    var memo := new MapMemo();
    first := memo.Call(Number(4));
    second := memo.Call(Number(4));
    size := |memo.cacheMap|;
  }

  /** Two objects with the same contents are separate keys, and a hit returns
      the value stored at the miss even after the object has changed. */
  method SeparateObjects() returns (a: Result<int>, b: Result<int>, again: Result<int>)
    ensures a == b == Ok(6) && again == Ok(6)
  {
    var memo := new MapMemo();
    var x := new Box(1);
    var y := new Box(1);
    a := memo.Call(Reference(x));
    b := memo.Call(Reference(y));
    assert memo.cacheWeakMap == map[x := 6, y := 6];
    x.value := 100;
    again := memo.Call(Reference(x));
  }
}
