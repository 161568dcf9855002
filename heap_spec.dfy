/**
 * The frequency max-heap of metrics/heap.go and svc/heap.go, as values.
 *
 * Both files keep a slice of (Key, Value) pairs and let Go's container/heap
 * sift entries up and down through their `Less` and `Swap`. The two copies
 * differ only in `Less`: metrics/heap.go compares with `>`, svc/heap.go with
 * `>=`. The functions here follow container/heap's `up`, `down`, `Fix` and
 * `Push` step by step on a sequence; the class in heap.dfy runs the same
 * steps in place and is proved equal to them.
 */
module HeapSpec {

  datatype KeyValuePair = KeyValuePair(key: string, value: int)

  /** Which comparison `Less` uses: `>` in metrics/heap.go, `>=` in svc/heap.go. */
  datatype Ordering = Strict | NonStrict

  /** `Less(i, j)` of the two heaps: slot i belongs above slot j. */
  function Less(order: Ordering, s: seq<KeyValuePair>, i: int, j: int): (b: bool)
    requires 0 <= i < |s| && 0 <= j < |s|
    ensures b ==> s[i].value >= s[j].value
    ensures !b ==> s[i].value <= s[j].value
    ensures order == NonStrict ==> (b <==> s[i].value >= s[j].value)
    ensures order == Strict ==> (b <==> s[i].value > s[j].value)
  {
    match order
    case Strict => s[i].value > s[j].value
    case NonStrict => s[i].value >= s[j].value
  }

  /** The parent slot `(j - 1) / 2` of container/heap (j > 0, so truncation and floor agree). */
  function Parent(c: int): (p: int)
    requires c > 0
    ensures 0 <= p < c
    ensures c == 2 * p + 1 || c == 2 * p + 2
  {
    (c - 1) / 2
  }

  /** Every parent's Value is at least each of its children's. */
  ghost predicate IsHeap(s: seq<KeyValuePair>)
  {
    forall c :: 0 < c < |s| ==> s[Parent(c)].value >= s[c].value
  }

  /**
   * Heap order may fail only on the edges that touch slot k, and k's parent
   * dominates k's children: the state right after the Value at k was changed.
   */
  ghost predicate HeapExcept(s: seq<KeyValuePair>, k: int)
    requires 0 <= k < |s|
  {
    && (forall c :: 0 < c < |s| && c != k && Parent(c) != k ==> s[Parent(c)].value >= s[c].value)
    && (k > 0 ==> forall c :: 0 < c < |s| && Parent(c) == k ==> s[Parent(k)].value >= s[c].value)
  }

  /** Slot k dominates its children. */
  ghost predicate AboveChildren(s: seq<KeyValuePair>, k: int)
    requires 0 <= k < |s|
  {
    forall c :: 0 < c < |s| && Parent(c) == k ==> s[k].value >= s[c].value
  }

  /** Slot k is dominated by its parent. */
  ghost predicate BelowParent(s: seq<KeyValuePair>, k: int)
    requires 0 <= k < |s|
  {
    k > 0 ==> s[Parent(k)].value >= s[k].value
  }

  ghost predicate DistinctKeys(s: seq<KeyValuePair>)
  {
    forall i, j :: 0 <= i < j < |s| ==> s[i].key != s[j].key
  }

  function Keys(s: seq<KeyValuePair>): set<string>
  {
    set i | 0 <= i < |s| :: s[i].key
  }

  /** `Swap(i, j)` of the heap interface. */
  function Swap(s: seq<KeyValuePair>, i: int, j: int): (r: seq<KeyValuePair>)
    requires 0 <= i < |s| && 0 <= j < |s|
    ensures |r| == |s|
  {
    s[i := s[j]][j := s[i]]
  }

  /** container/heap's `up`: move slot j towards the root while `Less(j, parent)`. */
  function Up(order: Ordering, s: seq<KeyValuePair>, j: int): (r: seq<KeyValuePair>)
    requires 0 <= j < |s|
    ensures |r| == |s|
    decreases j
  {
    if j == 0 || !Less(order, s, j, Parent(j)) then s
    else Up(order, Swap(s, Parent(j), j), Parent(j))
  }

  /** The child of i that `down` compares i with: the right one when `Less(right, left)`. */
  function Larger(order: Ordering, s: seq<KeyValuePair>, i: int): (j: int)
    requires 0 <= i && 2 * i + 1 < |s|
    ensures (j == 2 * i + 1 || j == 2 * i + 2) && j < |s|
    ensures forall c :: 0 < c < |s| && Parent(c) == i ==> s[j].value >= s[c].value
  {
    var left := 2 * i + 1;
    if left + 1 < |s| && Less(order, s, left + 1, left) then left + 1 else left
  }

  /**
   * container/heap's `down(h, i, len)`: move slot i towards the leaves while
   * its larger child is `Less` than it. Returns the new sequence and the slot
   * where the moved entry came to rest; `down` reports "moved" as `k > i`.
   */
  function Down(order: Ordering, s: seq<KeyValuePair>, i: int): (r: (seq<KeyValuePair>, int))
    requires 0 <= i < |s|
    ensures |r.0| == |s|
    ensures i <= r.1 < |s|
    ensures r.1 == i ==> r.0 == s && AboveChildren(s, i)
    decreases |s| - i
  {
    if 2 * i + 1 >= |s| then (s, i)
    else
      var j := Larger(order, s, i);
      if !Less(order, s, j, i) then (s, i)
      else Down(order, Swap(s, i, j), j)
  }

  /** container/heap's `Fix(h, i)`: `down`, and `up` when `down` moved nothing. */
  function Fix(order: Ordering, s: seq<KeyValuePair>, i: int): (r: seq<KeyValuePair>)
    requires 0 <= i < |s|
    ensures |r| == |s|
  {
    var (t, k) := Down(order, s, i);
    if k > i then t else Up(order, t, i)
  }

  /** container/heap's `Push`: the interface's `Push` appends, then `up` from the last slot. */
  function Push(order: Ordering, s: seq<KeyValuePair>, kv: KeyValuePair): (r: seq<KeyValuePair>)
    ensures |r| == |s| + 1
  {
    Up(order, s + [kv], |s|)
  }

  /** `findIndexByKey` / `FindIndexByKey`: the first slot holding key, or -1. */
  function FirstIndex(s: seq<KeyValuePair>, key: string): (r: int)
    ensures -1 <= r < |s|
    ensures r == -1 <==> key !in Keys(s)
    ensures r >= 0 ==> s[r].key == key && forall i :: 0 <= i < r ==> s[i].key != key
  {
    if |s| == 0 then -1
    else if s[0].key == key then 0
    else
      var r := FirstIndex(s[1..], key);
      assert forall i :: 0 < i < |s| ==> s[i] == s[1..][i - 1];
      assert Keys(s) == {s[0].key} + Keys(s[1..]) by {
        forall k | k in Keys(s) ensures k in {s[0].key} + Keys(s[1..]) {
          var i :| 0 <= i < |s| && s[i].key == k;
          if i > 0 { assert s[1..][i - 1].key == k; }
        }
      }
      if r == -1 then -1 else r + 1
  }

  /** `(*h)[index].Value++`. */
  function IncAt(s: seq<KeyValuePair>, i: int): (r: seq<KeyValuePair>)
    requires 0 <= i < |s|
  {
    s[i := KeyValuePair(s[i].key, s[i].value + 1)]
  }

  /**
   * `incValue` / `IncValue`: whether key was present, and the heap after
   * incrementing its entry and `heap.Fix` at its slot.
   */
  function IncValue(order: Ordering, s: seq<KeyValuePair>, key: string): (r: (bool, seq<KeyValuePair>))
  {
    var index := FirstIndex(s, key);
    if index != -1 then (true, Fix(order, IncAt(s, index), index)) else (false, s)
  }

  /** `IncOrPush`: increment key's entry, or `heap.Push` a fresh `(key, 1)`. */
  function IncOrPush(order: Ordering, s: seq<KeyValuePair>, key: string): (r: seq<KeyValuePair>)
  {
    var (found, t) := IncValue(order, s, key);
    if found then t else Push(order, s, KeyValuePair(key, 1))
  }

  /* ---------------------------------------------------------------------- */
  /* Sifting only permutes: the same pairs, so keys stay distinct.           */

  /** Swapping two slots keeps the multiset of pairs and distinct keys. */
  lemma SwapPermutes(s: seq<KeyValuePair>, i: int, j: int)
    requires 0 <= i < |s| && 0 <= j < |s|
    ensures multiset(Swap(s, i, j)) == multiset(s)
    ensures DistinctKeys(s) ==> DistinctKeys(Swap(s, i, j))
  {
    var r := Swap(s, i, j);
    if DistinctKeys(s) {
      forall a, b | 0 <= a < b < |r| ensures r[a].key != r[b].key {
        var a' := if a == i then j else if a == j then i else a;
        var b' := if b == i then j else if b == j then i else b;
        assert r[a] == s[a'] && r[b] == s[b'] && a' != b';
      }
    }
  }

  lemma {:induction false} UpPermutes(order: Ordering, s: seq<KeyValuePair>, j: int)
    requires 0 <= j < |s|
    ensures multiset(Up(order, s, j)) == multiset(s)
    ensures DistinctKeys(s) ==> DistinctKeys(Up(order, s, j))
    decreases j
  {
    if j > 0 && Less(order, s, j, Parent(j)) {
      SwapPermutes(s, Parent(j), j);
      UpPermutes(order, Swap(s, Parent(j), j), Parent(j));
    }
  }

  lemma {:induction false} DownPermutes(order: Ordering, s: seq<KeyValuePair>, i: int)
    requires 0 <= i < |s|
    ensures multiset(Down(order, s, i).0) == multiset(s)
    ensures DistinctKeys(s) ==> DistinctKeys(Down(order, s, i).0)
    decreases |s| - i
  {
    if 2 * i + 1 < |s| && Less(order, s, Larger(order, s, i), i) {
      var j := Larger(order, s, i);
      SwapPermutes(s, i, j);
      DownPermutes(order, Swap(s, i, j), j);
    }
  }

  /** `Fix` only permutes the pairs. */
  lemma FixPermutes(order: Ordering, s: seq<KeyValuePair>, i: int)
    requires 0 <= i < |s|
    ensures multiset(Fix(order, s, i)) == multiset(s)
    ensures DistinctKeys(s) ==> DistinctKeys(Fix(order, s, i))
  {
    DownPermutes(order, s, i);
    UpPermutes(order, s, i);
  }

  /** `heap.Push` holds the old pairs and the new one. */
  lemma PushPermutes(order: Ordering, s: seq<KeyValuePair>, kv: KeyValuePair)
    ensures multiset(Push(order, s, kv)) == multiset(s + [kv])
  {
    UpPermutes(order, s + [kv], |s|);
  }

  /* ---------------------------------------------------------------------- */
  /* Sums of per-entry weights, and their invariance under permutation.      */

  function SumBy(s: seq<KeyValuePair>, f: KeyValuePair -> int): int
  {
    if |s| == 0 then 0 else f(s[0]) + SumBy(s[1..], f)
  }

  function ValueWeight(): KeyValuePair -> int
  {
    (p: KeyValuePair) => p.value
  }

  function KeyWeight(k: string): KeyValuePair -> int
  {
    (p: KeyValuePair) => if p.key == k then p.value else 0
  }

  /** The sum of all Values. */
  function Total(s: seq<KeyValuePair>): int
  {
    SumBy(s, ValueWeight())
  }

  /** The Values recorded under key k, summed (the count of k when keys are distinct). */
  function CountOf(s: seq<KeyValuePair>, k: string): int
  {
    SumBy(s, KeyWeight(k))
  }

  lemma {:induction false} SumByConcat(u: seq<KeyValuePair>, v: seq<KeyValuePair>, f: KeyValuePair -> int)
    ensures SumBy(u + v, f) == SumBy(u, f) + SumBy(v, f)
    decreases |u|
  {
    if |u| == 0 {
      assert u + v == v;
    } else {
      assert (u + v)[1..] == u[1..] + v;
      SumByConcat(u[1..], v, f);
    }
  }

  lemma {:induction false} SumByRemove(s: seq<KeyValuePair>, i: int, f: KeyValuePair -> int)
    requires 0 <= i < |s|
    ensures SumBy(s, f) == f(s[i]) + SumBy(s[..i] + s[i + 1..], f)
    decreases i
  {
    if i == 0 {
      assert s[..0] + s[1..] == s[1..];
    } else {
      SumByRemove(s[1..], i - 1, f);
      assert s[1..][..i - 1] + s[1..][i..] == (s[..i] + s[i + 1..])[1..];
    }
  }

  lemma {:induction false} SumByPermutation(a: seq<KeyValuePair>, b: seq<KeyValuePair>, f: KeyValuePair -> int)
    requires multiset(a) == multiset(b)
    ensures SumBy(a, f) == SumBy(b, f)
    decreases |a|
  {
    if |a| == 0 {
      assert |b| == |multiset(b)| == 0;
    } else {
      var x := a[0];
      assert x in multiset(b);
      var i :| 0 <= i < |b| && b[i] == x;
      var rest := b[..i] + b[i + 1..];
      assert b == b[..i] + [x] + b[i + 1..];
      assert multiset(b) == multiset(rest) + multiset{x};
      assert a == [x] + a[1..];
      assert multiset(a) == multiset(a[1..]) + multiset{x};
      assert multiset(a[1..]) == multiset(a) - multiset{x};
      assert multiset(rest) == multiset(b) - multiset{x};
      SumByPermutation(a[1..], rest, f);
      SumByRemove(b, i, f);
    }
  }

  lemma {:induction false} SumByUpdate(s: seq<KeyValuePair>, i: int, y: KeyValuePair, f: KeyValuePair -> int)
    requires 0 <= i < |s|
    ensures SumBy(s[i := y], f) == SumBy(s, f) - f(s[i]) + f(y)
    decreases |s|
  {
    if i > 0 {
      assert s[i := y][1..] == s[1..][i - 1 := y];
      SumByUpdate(s[1..], i - 1, y, f);
    }
  }

  lemma {:induction false} SumByAppend(s: seq<KeyValuePair>, y: KeyValuePair, f: KeyValuePair -> int)
    ensures SumBy(s + [y], f) == SumBy(s, f) + f(y)
  {
    SumByConcat(s, [y], f);
  }

  /** With distinct keys, CountOf is the Value stored under k, or 0 when k is absent. */
  lemma {:induction false} CountOfDistinct(s: seq<KeyValuePair>, k: string)
    requires DistinctKeys(s)
    ensures CountOf(s, k) == (var i := FirstIndex(s, k); if i == -1 then 0 else s[i].value)
    decreases |s|
  {
    if |s| > 0 {
      assert DistinctKeys(s[1..]);
      CountOfDistinct(s[1..], k);
      if s[0].key == k {
        assert FirstIndex(s[1..], k) == -1 by {
          forall i | 0 <= i < |s[1..]| ensures s[1..][i].key != k {
            assert s[1..][i] == s[i + 1];
          }
        }
      }
    }
  }

  /* ---------------------------------------------------------------------- */
  /* Heap order.                                                             */

  /** Slot 0 of a heap holds a maximal Value. */
  lemma {:induction false} RootIsMax(s: seq<KeyValuePair>, i: int)
    requires IsHeap(s) && 0 <= i < |s|
    ensures s[0].value >= s[i].value
    decreases i
  {
    if i > 0 {
      RootIsMax(s, Parent(i));
    }
  }

  /** One step of `up`: the swapped-in entry may still be out of order with its new parent only. */
  lemma UpStep(order: Ordering, s: seq<KeyValuePair>, j: int)
    requires 0 < j < |s|
    requires HeapExcept(s, j) && AboveChildren(s, j)
    requires Less(order, s, j, Parent(j))
    ensures var p := Parent(j); var t := Swap(s, p, j); HeapExcept(t, p) && AboveChildren(t, p)
  {
    var p := Parent(j);
    var t := Swap(s, p, j);
    forall c | 0 < c < |t| && c != p && Parent(c) != p
      ensures t[Parent(c)].value >= t[c].value
    {
      if c == j {
      } else if Parent(c) == j {
        assert t[Parent(c)] == s[p];
      } else {
        assert t[c] == s[c];
        if Parent(c) != j { assert t[Parent(c)] == s[Parent(c)]; }
      }
    }
    assert AboveChildren(t, p);
    if p > 0 {
      var g := Parent(p);
      assert t[g] == s[g];
      assert s[g].value >= s[p].value;
      forall c | 0 < c < |t| && Parent(c) == p ensures t[g].value >= t[c].value {
        if c != j { assert t[c] == s[c]; }
      }
    }
  }

  /** `up` from a slot that dominates its children restores heap order. */
  lemma {:induction false} UpRestores(order: Ordering, s: seq<KeyValuePair>, j: int)
    requires 0 <= j < |s|
    requires HeapExcept(s, j) && AboveChildren(s, j)
    ensures IsHeap(Up(order, s, j))
    decreases j
  {
    if j == 0 || !Less(order, s, j, Parent(j)) {
      forall c | 0 < c < |s| ensures s[Parent(c)].value >= s[c].value {
        if c == j {
        } else if Parent(c) == j {
        }
      }
    } else {
      UpStep(order, s, j);
      UpRestores(order, Swap(s, Parent(j), j), Parent(j));
    }
  }

  /** One step of `down`: the entry swapped up dominates its new children and sits below its parent. */
  lemma DownStep(order: Ordering, s: seq<KeyValuePair>, i: int)
    requires 0 <= i && 2 * i + 1 < |s|
    requires HeapExcept(s, i)
    requires Less(order, s, Larger(order, s, i), i)
    ensures var j := Larger(order, s, i); var t := Swap(s, i, j);
      HeapExcept(t, j) && BelowParent(t, j)
  {
    var j := Larger(order, s, i);
    var t := Swap(s, i, j);
    assert Parent(j) == i;
    forall c | 0 < c < |t| && c != j && Parent(c) != j
      ensures t[Parent(c)].value >= t[c].value
    {
      if c == i {
        assert t[Parent(c)] == s[Parent(c)];
        assert t[c] == s[j];
      } else if Parent(c) == i {
        assert t[Parent(c)] == s[j] && t[c] == s[c];
      } else {
        assert t[c] == s[c];
      }
    }
    forall c | 0 < c < |t| && Parent(c) == j ensures t[i].value >= t[c].value {
      assert t[c] == s[c];
    }
  }

  /** `down` from a slot below its parent restores heap order. */
  lemma {:induction false} DownRestores(order: Ordering, s: seq<KeyValuePair>, i: int)
    requires 0 <= i < |s|
    requires HeapExcept(s, i) && BelowParent(s, i)
    ensures IsHeap(Down(order, s, i).0)
    decreases |s| - i
  {
    if 2 * i + 1 >= |s| || !Less(order, s, Larger(order, s, i), i) {
      forall c | 0 < c < |s| ensures s[Parent(c)].value >= s[c].value {
        if c == i {
        } else if Parent(c) == i {
        }
      }
    } else {
      var j := Larger(order, s, i);
      DownStep(order, s, i);
      DownRestores(order, Swap(s, i, j), j);
    }
  }

  /** `Fix` at a slot whose Value changed in a heap restores heap order. */
  lemma FixRestores(order: Ordering, s: seq<KeyValuePair>, i: int)
    requires 0 <= i < |s| && HeapExcept(s, i)
    ensures IsHeap(Fix(order, s, i))
  {
    if 2 * i + 1 >= |s| || !Less(order, s, Larger(order, s, i), i) {
      UpRestores(order, s, i);
    } else {
      var j := Larger(order, s, i);
      DownStep(order, s, i);
      DownRestores(order, Swap(s, i, j), j);
    }
  }

  /** `heap.Push` keeps heap order. */
  lemma PushKeepsHeap(order: Ordering, s: seq<KeyValuePair>, kv: KeyValuePair)
    requires IsHeap(s)
    ensures IsHeap(Push(order, s, kv))
  {
    var t := s + [kv];
    forall c | 0 < c < |t| && c != |s| && Parent(c) != |s|
      ensures t[Parent(c)].value >= t[c].value
    {
    }
    UpRestores(order, t, |s|);
  }

  /** Raising one Value of a heap leaves the state that `Fix` expects. */
  lemma IncAtHeapExcept(s: seq<KeyValuePair>, i: int)
    requires IsHeap(s) && 0 <= i < |s|
    ensures HeapExcept(IncAt(s, i), i)
  {
    var t := IncAt(s, i);
    if i > 0 {
      forall c | 0 < c < |t| && Parent(c) == i ensures t[Parent(i)].value >= t[c].value {
        assert s[Parent(i)].value >= s[i].value >= s[c].value;
      }
    }
  }

  /**
   * After `(*h)[index].Value++` in a heap, the entry is strictly larger than
   * its children, so `down` stops at once and `Fix` is a sift-up alone.
   */
  lemma FixAfterIncIsUp(order: Ordering, s: seq<KeyValuePair>, i: int)
    requires IsHeap(s) && 0 <= i < |s|
    ensures Down(order, IncAt(s, i), i) == (IncAt(s, i), i)
    ensures Fix(order, IncAt(s, i), i) == Up(order, IncAt(s, i), i)
  {
    var t := IncAt(s, i);
    if 2 * i + 1 < |t| {
      var j := Larger(order, t, i);
      assert Parent(j) == i;
      assert t[j].value == s[j].value <= s[i].value < t[i].value;
    }
  }

  /* ---------------------------------------------------------------------- */
  /* What IncOrPush does to the multiset of pairs.                           */

  /** After IncOrPush every parent's Value is at least its children's, for either ordering. */
  lemma IncOrPushKeepsHeap(order: Ordering, s: seq<KeyValuePair>, key: string)
    requires IsHeap(s)
    ensures IsHeap(IncOrPush(order, s, key))
  {
    var index := FirstIndex(s, key);
    if index != -1 {
      IncAtHeapExcept(s, index);
      FixRestores(order, IncAt(s, index), index);
    } else {
      PushKeepsHeap(order, s, KeyValuePair(key, 1));
    }
  }

  /** A key already present is never pushed again: keys stay pairwise distinct. */
  lemma IncOrPushKeepsKeysDistinct(order: Ordering, s: seq<KeyValuePair>, key: string)
    requires DistinctKeys(s)
    ensures DistinctKeys(IncOrPush(order, s, key))
  {
    var index := FirstIndex(s, key);
    if index != -1 {
      assert DistinctKeys(IncAt(s, index));
      FixPermutes(order, IncAt(s, index), index);
    } else {
      var t := s + [KeyValuePair(key, 1)];
      assert DistinctKeys(t) by {
        forall i, j | 0 <= i < j < |t| ensures t[i].key != t[j].key {
          if j == |s| { assert t[i].key in Keys(s); }
        }
      }
      UpPermutes(order, t, |s|);
    }
  }

  /** On an absent key IncOrPush adds exactly one pair (key, 1) and keeps every other pair. */
  lemma IncOrPushAbsent(order: Ordering, s: seq<KeyValuePair>, key: string)
    requires key !in Keys(s)
    ensures |IncOrPush(order, s, key)| == |s| + 1
    ensures multiset(IncOrPush(order, s, key)) == multiset(s) + multiset{KeyValuePair(key, 1)}
  {
    IncOrPushPermutes(order, s, key);
  }

  /** Equal multisets of pairs have the same keys. */
  lemma SameKeys(a: seq<KeyValuePair>, b: seq<KeyValuePair>)
    requires multiset(a) == multiset(b)
    ensures Keys(a) == Keys(b)
  {
    forall k | k in Keys(a) ensures k in Keys(b) {
      var i :| 0 <= i < |a| && a[i].key == k;
      assert a[i] in multiset(b);
      var j :| 0 <= j < |b| && b[j] == a[i];
    }
    forall k | k in Keys(b) ensures k in Keys(a) {
      var j :| 0 <= j < |b| && b[j].key == k;
      assert b[j] in multiset(a);
      var i :| 0 <= i < |a| && a[i] == b[j];
    }
  }

  /** The pairs IncOrPush leaves, before the sifting moves them around. */
  lemma IncOrPushPermutes(order: Ordering, s: seq<KeyValuePair>, key: string)
    ensures var index := FirstIndex(s, key);
      && |IncOrPush(order, s, key)| == |s| + (if index == -1 then 1 else 0)
      && multiset(IncOrPush(order, s, key))
        == multiset(if index != -1 then IncAt(s, index) else s + [KeyValuePair(key, 1)])
  {
    var index := FirstIndex(s, key);
    if index != -1 {
      assert IncOrPush(order, s, key) == Fix(order, IncAt(s, index), index);
      FixPermutes(order, IncAt(s, index), index);
    } else {
      assert IncOrPush(order, s, key) == Push(order, s, KeyValuePair(key, 1));
      PushPermutes(order, s, KeyValuePair(key, 1));
    }
  }

  lemma IncAtKeys(s: seq<KeyValuePair>, i: int)
    requires 0 <= i < |s|
    ensures Keys(IncAt(s, i)) == Keys(s)
  {
    var t := IncAt(s, i);
    assert forall j :: 0 <= j < |s| ==> t[j].key == s[j].key;
  }

  lemma AppendKeys(s: seq<KeyValuePair>, kv: KeyValuePair)
    ensures Keys(s + [kv]) == Keys(s) + {kv.key}
  {
    var t := s + [kv];
    assert forall j :: 0 <= j < |s| ==> t[j] == s[j];
    assert t[|s|] == kv;
  }

  /**
   * On a present key IncOrPush keeps the length, and its pairs are those of
   * the old heap with that key's pair replaced by one whose Value is one more.
   */
  lemma IncOrPushPresent(order: Ordering, s: seq<KeyValuePair>, key: string)
    requires key in Keys(s)
    ensures |IncOrPush(order, s, key)| == |s|
    ensures exists i :: 0 <= i < |s| && s[i].key == key &&
      multiset(IncOrPush(order, s, key)) == multiset(s[i := KeyValuePair(key, s[i].value + 1)])
  {
    var i := FirstIndex(s, key);
    assert s[i].key == key;
    assert IncAt(s, i) == s[i := KeyValuePair(key, s[i].value + 1)];
    IncOrPushPermutes(order, s, key);
  }

  /** IncOrPush adds key to the set of keys and removes none. */
  lemma IncOrPushKeys(order: Ordering, s: seq<KeyValuePair>, key: string)
    ensures Keys(IncOrPush(order, s, key)) == Keys(s) + {key}
  {
    var index := FirstIndex(s, key);
    IncOrPushPermutes(order, s, key);
    if index == -1 {
      SameKeys(IncOrPush(order, s, key), s + [KeyValuePair(key, 1)]);
      AppendKeys(s, KeyValuePair(key, 1));
    } else {
      SameKeys(IncOrPush(order, s, key), IncAt(s, index));
      IncAtKeys(s, index);
    }
  }

  /** IncOrPush raises the count of key by exactly one and leaves every other count alone. */
  lemma IncOrPushCounts(order: Ordering, s: seq<KeyValuePair>, key: string, k: string)
    ensures CountOf(IncOrPush(order, s, key), k) == CountOf(s, k) + (if k == key then 1 else 0)
  {
    var f := KeyWeight(k);
    var r := IncOrPush(order, s, key);
    var index := FirstIndex(s, key);
    IncOrPushPermutes(order, s, key);
    if index != -1 {
      var t := IncAt(s, index);
      SumByPermutation(r, t, f);
      SumByUpdate(s, index, KeyValuePair(key, s[index].value + 1), f);
    } else {
      var t := s + [KeyValuePair(key, 1)];
      SumByPermutation(r, t, f);
      SumByAppend(s, KeyValuePair(key, 1), f);
    }
  }

  /** The sum of all Values grows by exactly one per IncOrPush. */
  lemma IncOrPushTotal(order: Ordering, s: seq<KeyValuePair>, key: string)
    ensures Total(IncOrPush(order, s, key)) == Total(s) + 1
  {
    var f := ValueWeight();
    var r := IncOrPush(order, s, key);
    var index := FirstIndex(s, key);
    IncOrPushPermutes(order, s, key);
    if index != -1 {
      var t := IncAt(s, index);
      SumByPermutation(r, t, f);
      SumByUpdate(s, index, KeyValuePair(key, s[index].value + 1), f);
    } else {
      var t := s + [KeyValuePair(key, 1)];
      SumByPermutation(r, t, f);
      SumByAppend(s, KeyValuePair(key, 1), f);
    }
  }

  /** `IncValue` reports true exactly when key is present, and leaves the heap alone otherwise. */
  lemma IncValueFound(order: Ordering, s: seq<KeyValuePair>, key: string)
    ensures IncValue(order, s, key).0 <==> key in Keys(s)
    ensures !IncValue(order, s, key).0 ==> IncValue(order, s, key).1 == s
  {
  }

  /* ---------------------------------------------------------------------- */
  /* The scenario of metrics/heap_test.go.                                   */

  /**
   * Pushing google, github, google, facebook, github, github into the strict
   * heap and taking three pairs yields github 3, google 2, facebook 1.
   */
  lemma HeapTestTrace()
    ensures IncOrPush(Strict, [], "google.com") == [KeyValuePair("google.com", 1)]
    ensures IncOrPush(Strict, [KeyValuePair("google.com", 1)], "github.com")
         == [KeyValuePair("google.com", 1), KeyValuePair("github.com", 1)]
    ensures IncOrPush(Strict, [KeyValuePair("google.com", 1), KeyValuePair("github.com", 1)], "google.com")
         == [KeyValuePair("google.com", 2), KeyValuePair("github.com", 1)]
    ensures IncOrPush(Strict, [KeyValuePair("google.com", 2), KeyValuePair("github.com", 1)], "facebook.com")
         == [KeyValuePair("google.com", 2), KeyValuePair("github.com", 1), KeyValuePair("facebook.com", 1)]
    ensures IncOrPush(Strict, [KeyValuePair("google.com", 2), KeyValuePair("github.com", 1), KeyValuePair("facebook.com", 1)], "github.com")
         == [KeyValuePair("google.com", 2), KeyValuePair("github.com", 2), KeyValuePair("facebook.com", 1)]
    ensures IncOrPush(Strict, [KeyValuePair("google.com", 2), KeyValuePair("github.com", 2), KeyValuePair("facebook.com", 1)], "github.com")
         == [KeyValuePair("github.com", 3), KeyValuePair("google.com", 2), KeyValuePair("facebook.com", 1)]
  {
    var g, gh, f := "google.com", "github.com", "facebook.com";
    var h1 := IncOrPush(Strict, [], g);
    assert h1 == [KeyValuePair(g, 1)];
    var h2 := IncOrPush(Strict, h1, gh);
    assert FirstIndex(h1, gh) == -1;
    assert h2 == [KeyValuePair(g, 1), KeyValuePair(gh, 1)];
    var h3 := IncOrPush(Strict, h2, g);
    assert FirstIndex(h2, g) == 0;
    assert h3 == [KeyValuePair(g, 2), KeyValuePair(gh, 1)];
    var h4 := IncOrPush(Strict, h3, f);
    assert FirstIndex(h3, f) == -1;
    assert h4 == [KeyValuePair(g, 2), KeyValuePair(gh, 1), KeyValuePair(f, 1)];
    var h5 := IncOrPush(Strict, h4, gh);
    assert FirstIndex(h4, gh) == 1;
    assert h5 == [KeyValuePair(g, 2), KeyValuePair(gh, 2), KeyValuePair(f, 1)];
    var h6 := IncOrPush(Strict, h5, gh);
    assert FirstIndex(h5, gh) == 1;
    var bumped := [KeyValuePair(g, 2), KeyValuePair(gh, 3), KeyValuePair(f, 1)];
    assert IncAt(h5, 1) == bumped;
    assert Down(Strict, bumped, 1) == (bumped, 1);
    assert Swap(bumped, 0, 1) == [KeyValuePair(gh, 3), KeyValuePair(g, 2), KeyValuePair(f, 1)];
    assert Up(Strict, bumped, 1) == Up(Strict, Swap(bumped, 0, 1), 0);
    assert h6 == [KeyValuePair(gh, 3), KeyValuePair(g, 2), KeyValuePair(f, 1)];
  }
}
