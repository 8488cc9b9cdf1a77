/** `memoizationExample`: a single-argument memo whose cache is a dictionary
    attached to the function. A miss stores a new record `{data: param + 5}`
    under the argument; every call returns the record stored for it. */
module MemoizationExample {

  /** The record `{data: …}` a miss allocates. The cache and every caller
      share it, and any of them can change its `data`. */
  class Record {
    var data: int

    constructor (data: int)
      ensures this.data == data
    {
      this.data := data;
    }
  }

  /** The function together with its `cache` property. Keys are the numeric
      arguments. */
  class ExampleMemo {
    var cache: map<int, Record>

    constructor ()
      ensures cache == map[]
    {
      cache := map[];
    }

    /** `cache[param]` is truthy. Every stored value is a record, and records
        are truthy; a missing slot reads as `undefined`, which is falsy. So the
        slot is truthy exactly when the key is present. */
    predicate SlotTruthy(param: int)
      reads this
    {
      param in cache
    }

    /** Calls the memoized function with `param`. A hit returns the stored
        record itself, whatever its `data` now holds; only a miss computes
        `param + 5`, in a new record. No record's `data` is changed. */
    method Call(param: int) returns (r: Record)
      modifies this
      ensures param in cache && r == cache[param]
      ensures old(SlotTruthy(param)) ==> r == old(cache)[param] && cache == old(cache)
      ensures !old(SlotTruthy(param)) ==> fresh(r) && r.data == param + 5 && cache == old(cache)[param := r]
      ensures |cache| == if old(SlotTruthy(param)) then |old(cache)| else |old(cache)| + 1
    {
      if !SlotTruthy(param) {
        var res := new Record(param + 5);
        cache := cache[param := res];
      }
      r := cache[param];
    }
  }

  /** The usage: the first call with 11 computes `{data: 16}`, the second
      returns the very same record and leaves the cache as it was. */
  method RepeatedCall() returns (first: Record, second: Record)
    ensures first == second && first.data == 16
  {
    var memo := new ExampleMemo();
    first := memo.Call(11);
    var cacheAfterFirst := memo.cache;
    second := memo.Call(11);
    assert memo.cache == cacheAfterFirst == map[11 := first];
  }

  /** The record is shared: a caller that changes the `data` of the record
      it got changes what the next call with the same argument returns. */
  method SharedRecord() returns (first: Record, second: Record)
    ensures first == second && second.data == 0
  {
    var memo := new ExampleMemo();
    first := memo.Call(11);
    first.data := 0;
    second := memo.Call(11);
  }
}
