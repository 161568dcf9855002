/**
 * The domain-frequency heaps themselves: `maxHeap` of metrics/heap.go and
 * `MaxHeap` of svc/heap.go. Both are a Go slice of pairs that the methods
 * append to, truncate and permute in place; here that slice is the field
 * `pairs`, and `order` says which of the two `Less` functions is in use.
 * Every method that moves entries is proved to end in the state that the
 * matching function of HeapSpec computes from the old state.
 */
module Heap {
  import opened HeapSpec

  class MaxHeap {
    /** `Strict` for metrics/heap.go (`>`), `NonStrict` for svc/heap.go (`>=`). */
    const order: Ordering
    /** The underlying slice. */
    var pairs: seq<KeyValuePair>

    /** Heap order and pairwise distinct keys: what IncOrPush keeps. */
    ghost predicate Valid()
      reads this
    {
      IsHeap(pairs) && DistinctKeys(pairs)
    }

    /**
     * `NewHeap` of metrics/heap.go (with `Strict`), or the zero `MaxHeap{}` of
     * svc/heap.go (with `NonStrict`); `heap.Init` moves nothing in an empty slice.
     */
    constructor NewHeap(order: Ordering)
      ensures this.order == order && pairs == []
      ensures Valid()
    {
      this.order := order;
      pairs := [];
    }

    predicate Less(i: int, j: int)
      reads this
      requires 0 <= i < |pairs| && 0 <= j < |pairs|
    {
      HeapSpec.Less(order, pairs, i, j)
    }

    method Swap(i: int, j: int)
      requires 0 <= i < |pairs| && 0 <= j < |pairs|
      modifies this
      ensures pairs == HeapSpec.Swap(old(pairs), i, j)
    {
      pairs := pairs[i := pairs[j]][j := pairs[i]];
    }

    /** The interface's `Push`: append, with no reordering. */
    method Push(kv: KeyValuePair)
      modifies this
      ensures pairs == old(pairs) + [kv]
    {
      pairs := pairs + [kv];
    }

    /** The interface's `Pop`: remove and return the last slot (Go panics on an empty slice). */
    method Pop() returns (kv: KeyValuePair)
      requires |pairs| > 0
      modifies this
      ensures kv == old(pairs)[|old(pairs)| - 1]
      ensures pairs == old(pairs)[..|old(pairs)| - 1]
      ensures old(Valid()) ==> Valid()
    {
      var n := |pairs|;
      kv := pairs[n - 1];
      pairs := pairs[..n - 1];
    }

    /** container/heap's `up(h, j)`. */
    method Up(j0: int)
      requires 0 <= j0 < |pairs|
      modifies this
      ensures pairs == HeapSpec.Up(order, old(pairs), j0)
    {
      var j := j0;
      // Go computes the parent as (j - 1) / 2 and stops when it equals j,
      // which with truncating division happens exactly at j == 0.
      while j > 0
        invariant 0 <= j < |pairs|
        invariant HeapSpec.Up(order, pairs, j) == HeapSpec.Up(order, old(pairs), j0)
        decreases j
      {
        var i := (j - 1) / 2;
        if !Less(j, i) {
          break;
        }
        Swap(i, j);
        j := i;
      }
    }

    /** container/heap's `down(h, i0, h.Len())`; `moved` is its result `i > i0`. */
    method Down(i0: int) returns (moved: bool)
      requires 0 <= i0 < |pairs|
      modifies this
      ensures pairs == HeapSpec.Down(order, old(pairs), i0).0
      ensures moved <==> HeapSpec.Down(order, old(pairs), i0).1 > i0
    {
      var i := i0;
      while true
        invariant i0 <= i < |pairs| == |old(pairs)|
        invariant HeapSpec.Down(order, pairs, i) == HeapSpec.Down(order, old(pairs), i0)
        decreases |pairs| - i
      {
        var j1 := 2 * i + 1;
        if j1 >= |pairs| {
          assert HeapSpec.Down(order, pairs, i) == (pairs, i);
          break;
        }
        var j := j1;
        if j1 + 1 < |pairs| && Less(j1 + 1, j1) {
          j := j1 + 1;
        }
        assert j == Larger(order, pairs, i);
        if !Less(j, i) {
          assert HeapSpec.Down(order, pairs, i) == (pairs, i);
          break;
        }
        assert HeapSpec.Down(order, pairs, i) == HeapSpec.Down(order, HeapSpec.Swap(pairs, i, j), j);
        Swap(i, j);
        i := j;
      }
      moved := i > i0;
    }

    /** container/heap's `Fix(h, i)`. */
    method Fix(i: int)
      requires 0 <= i < |pairs|
      modifies this
      ensures pairs == HeapSpec.Fix(order, old(pairs), i)
    {
      var moved := Down(i);
      if !moved {
        Up(i);
      }
    }

    /** container/heap's `Push(h, x)`: the interface's `Push`, then `up` from the new last slot. */
    method HeapPush(kv: KeyValuePair)
      modifies this
      ensures pairs == HeapSpec.Push(order, old(pairs), kv)
    {
      Push(kv);
      Up(|pairs| - 1);
    }

    /** `findIndexByKey` / `FindIndexByKey`: the first slot whose Key is key, or -1. */
    method FindIndexByKey(key: string) returns (index: int)
      ensures -1 <= index < |pairs|
      ensures index == -1 <==> key !in Keys(pairs)
      ensures index >= 0 ==> pairs[index].key == key
      ensures forall i :: 0 <= i < |pairs| && (index == -1 || i < index) ==> pairs[i].key != key
      ensures index == FirstIndex(pairs, key)
    {
      var i := 0;
      while i < |pairs|
        invariant 0 <= i <= |pairs|
        invariant forall j :: 0 <= j < i ==> pairs[j].key != key
      {
        if pairs[i].key == key {
          return i;
        }
        i := i + 1;
      }
      return -1;
    }

    /**
     * `incValue` / `IncValue`: when key is present, add one to its Value and
     * `heap.Fix` its slot; report whether it was present.
     */
    method IncValue(key: string) returns (found: bool)
      modifies this
      ensures found <==> key in Keys(old(pairs))
      ensures (found, pairs) == HeapSpec.IncValue(order, old(pairs), key)
      ensures forall k :: CountOf(pairs, k) == CountOf(old(pairs), k) + (if found && k == key then 1 else 0)
      ensures old(Valid()) ==> Valid()
    {
      forall k {
        IncOrPushCounts(order, pairs, key, k);
      }
      var index := FindIndexByKey(key);
      if index != -1 {
        pairs := pairs[index := KeyValuePair(pairs[index].key, pairs[index].value + 1)];
        Fix(index);
        if old(Valid()) {
          IncAtHeapExcept(old(pairs), index);
          FixRestores(order, IncAt(old(pairs), index), index);
          assert DistinctKeys(IncAt(old(pairs), index));
          FixPermutes(order, IncAt(old(pairs), index), index);
        }
        return true;
      }
      return false;
    }

    /**
     * `IncOrPush`: count one more occurrence of key. The pair of a present key
     * gains one, an absent key arrives as (key, 1), every other count stays,
     * and heap order and distinct keys are kept.
     */
    method IncOrPush(key: string)
      modifies this
      ensures pairs == HeapSpec.IncOrPush(order, old(pairs), key)
      ensures |pairs| == |old(pairs)| + (if key in Keys(old(pairs)) then 0 else 1)
      ensures Keys(pairs) == Keys(old(pairs)) + {key}
      ensures forall k :: CountOf(pairs, k) == CountOf(old(pairs), k) + (if k == key then 1 else 0)
      ensures Total(pairs) == Total(old(pairs)) + 1
      ensures old(Valid()) ==> Valid()
    {
      var found := IncValue(key);
      if !found {
        HeapPush(KeyValuePair(key, 1));
      }
      IncOrPushPermutes(order, old(pairs), key);
      IncOrPushKeys(order, old(pairs), key);
      IncOrPushTotal(order, old(pairs), key);
      forall k ensures CountOf(pairs, k) == CountOf(old(pairs), k) + (if k == key then 1 else 0) {
        IncOrPushCounts(order, old(pairs), key, k);
      }
      if old(Valid()) {
        IncOrPushKeepsHeap(order, old(pairs), key);
        IncOrPushKeepsKeysDistinct(order, old(pairs), key);
      }
    }

    /**
     * `GetMaxValuePairs(n)`: the first min(max(n, 0), Len) slots in array
     * order. The heap is left as it was; in a valid heap the first slot
     * holds a largest Value, while the other slots are in no particular order.
     */
    method GetMaxValuePairs(n: int) returns (top: seq<KeyValuePair>)
      ensures |top| == (if n <= 0 then 0 else if n < |pairs| then n else |pairs|)
      ensures top == pairs[..|top|]
      ensures Valid() && |top| > 0 ==> forall i :: 0 <= i < |pairs| ==> top[0].value >= pairs[i].value
    {
      top := [];
      var i := 0;
      while i < n && i < |pairs|
        invariant 0 <= i <= |pairs|
        invariant i == 0 || i <= n
        invariant top == pairs[..i]
      {
        top := top + [pairs[i]];
        i := i + 1;
      }
      if Valid() && |top| > 0 {
        forall i | 0 <= i < |pairs| ensures top[0].value >= pairs[i].value {
          RootIsMax(pairs, i);
        }
      }
    }

    /** `Top3MaxHeapKeysValues` of svc/heap.go: the first min(3, Len) slots. */
    method Top3MaxHeapKeysValues() returns (top: seq<KeyValuePair>)
      ensures |top| == (if |pairs| < 3 then |pairs| else 3)
      ensures top == pairs[..|top|]
      ensures Valid() && |top| > 0 ==> forall i :: 0 <= i < |pairs| ==> top[0].value >= pairs[i].value
    {
      top := GetMaxValuePairs(3);
    }
  }

  /** The scenario of metrics/heap_test.go, run against the strict heap. */
  method HeapTest() returns (top: seq<KeyValuePair>)
    ensures top == [KeyValuePair("github.com", 3), KeyValuePair("google.com", 2), KeyValuePair("facebook.com", 1)]
  {
    var h := new MaxHeap.NewHeap(Strict);
    HeapTestTrace();
    h.IncOrPush("google.com");
    h.IncOrPush("github.com");
    h.IncOrPush("google.com");
    h.IncOrPush("facebook.com");
    h.IncOrPush("github.com");
    assert h.pairs == [KeyValuePair("google.com", 2), KeyValuePair("github.com", 2), KeyValuePair("facebook.com", 1)];
    h.IncOrPush("github.com");
    top := h.GetMaxValuePairs(3);
  }
}
