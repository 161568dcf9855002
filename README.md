# url-shortner core, modelled in Dafny

This project models the core of the `url-shortner` Go service:

- the domain-frequency max-heap that counts how often each domain is shortened. It exists twice, as `maxHeap` in `metrics/heap.go` (strict `>`) and as `MaxHeap` in `svc/heap.go` (non-strict `>=`). Go's `container/heap` sifts its entries up and down;
- the short-path allocation logic `CreateShortURL` / `doShorten` of `svc/urlshort.go`;
- the random short-path generator `randomStrGen` and the `URLShortnerBuilder` that validates its configuration;
- the map-backed key-value stores `goMapStore` and the older `kvStore`;
- the error kinds of `svc/errors.go`.

Files:

- `heap_spec.dfy` (module `HeapSpec`): `container/heap`'s `up`, `down`, `Fix` and `Push` as functions on a sequence of pairs, and the lemmas about them. These cover heap order, permutation, distinct keys, per-key counts and the total count.
- `heap.dfy` (module `Heap`): the class `MaxHeap`, whose slice is the field `pairs`, updated in place. Each method's loop is proved to end in the state the `HeapSpec` function computes. `order` selects the `Less` of either Go file.
- `urlshort.dfy` (module `URLShort`): the decision tree as a function `Create` over forward (path → URL) and reverse (URL → path) maps, with lemmas for each branch and across calls. The class `Service` holds both maps and performs the same steps in place.
- `randomstrgen.dfy` (module `RandomGen`): the generator, with `*rand.Rand` modelled as an arbitrary stream of draws.
- `builder.dfy` (module `Builder`): the builder and `Build`'s guard chain.
- `store.dfy` (module `Store`): the two stores.
- `errors.dfy` (module `Errors`): the error kinds and `errors.Is`.
- `wrappers.dfy`: `Option`, which stands for Go's nil.

## Model

| member | source | states |
|---|---|---|
| HeapSpec.Less | metrics/heap.go:27 | with `Strict` (this file), `Less(i, j)` holds iff Value i > Value j; with `NonStrict` (svc/heap.go line 15) iff Value i ≥ Value j; either way true means ≥ and false means ≤ |
| HeapSpec.Swap | metrics/heap.go:28-30 | the heap interface's `Swap` on a sequence; keeps the length, and `SwapPermutes` shows it keeps the multiset and distinct keys |
| HeapSpec.Up | metrics/heap.go:67 | container/heap's `up` (run by `heap.Push`): keeps the length; `UpPermutes` and `UpRestores` show it only permutes and repairs a heap broken at one slot |
| HeapSpec.Down | metrics/heap.go:57 | container/heap's `down` (run by `heap.Fix`): keeps the length, the entry comes to rest at a slot in [i, len), and when it does not move the sequence is unchanged and slot i dominates its children; `DownPermutes` and `DownRestores` describe the rest |
| HeapSpec.Fix | metrics/heap.go:57 | `heap.Fix`: `down`, then `up` when `down` moved nothing; keeps the length; `FixPermutes`, `FixRestores` and `FixAfterIncIsUp` describe it |
| HeapSpec.Push | metrics/heap.go:67 | `heap.Push`: append, then `up` from the last slot; the length grows by one; `PushPermutes` and `PushKeepsHeap` describe it |
| HeapSpec.IncAt | metrics/heap.go:56 | `(*h)[index].Value++`; `IncAtHeapExcept` and `IncAtKeys` describe it |
| HeapSpec.IncValue | metrics/heap.go:54-61 | `incValue`: increment then `Fix` when the key is found; `IncValueFound` describes it |
| HeapSpec.IncOrPush | metrics/heap.go:63-69 | `IncOrPush` on a sequence; the `IncOrPush…` lemmas below state what it keeps and changes |
| HeapSpec.SwapPermutes | metrics/heap.go:28-30 | swapping two slots keeps the multiset of pairs and keeps keys distinct |
| HeapSpec.UpPermutes | metrics/heap.go:67 | sift-up only permutes: same multiset, distinct keys kept |
| HeapSpec.DownPermutes | metrics/heap.go:57 | sift-down only permutes: same multiset, distinct keys kept |
| HeapSpec.FixPermutes | metrics/heap.go:57 | `heap.Fix` only permutes: same multiset, distinct keys kept |
| HeapSpec.PushPermutes | metrics/heap.go:67 | `heap.Push` yields a permutation of the old pairs plus the new one |
| HeapSpec.FirstIndex | metrics/heap.go:45-52 | returns -1 iff the key is absent; otherwise the slot holds the key and no earlier slot does |
| HeapSpec.RootIsMax | metrics/heap.go:71-77 | in a heap, slot 0 holds a Value at least every other slot's |
| HeapSpec.UpRestores | metrics/heap.go:67 | sift-up from the only slot out of order yields a heap |
| HeapSpec.DownRestores | metrics/heap.go:57 | sift-down from a slot below its parent but maybe above its children yields a heap |
| HeapSpec.FixRestores | metrics/heap.go:57 | `heap.Fix` at the one changed slot yields a heap, for either `Less` |
| HeapSpec.PushKeepsHeap | metrics/heap.go:67 | `heap.Push` onto a heap yields a heap |
| HeapSpec.IncAtHeapExcept | metrics/heap.go:56 | after `Value++` in a heap, order can only fail between that slot and its parent |
| HeapSpec.FixAfterIncIsUp | metrics/heap.go:56-57 | after `Value++` in a heap, `down` moves nothing and `Fix` is a sift-up alone |
| HeapSpec.IncValueFound | svc/heap.go:42-49 | `IncValue` reports true iff the key is present; when absent the heap is unchanged |
| HeapSpec.IncOrPushKeepsHeap | metrics/heap.go:63-69 | `IncOrPush` on a heap yields a heap (parent ≥ child everywhere), with either `Less`, so also for svc/heap.go lines 51-57 |
| HeapSpec.IncOrPushKeepsKeysDistinct | metrics/heap.go:63-69 | a key already present is never pushed again: keys stay pairwise distinct |
| HeapSpec.IncOrPushAbsent | metrics/heap.go:65-68 | for an absent key the length grows by one and the multiset gains exactly `(key, 1)` |
| HeapSpec.IncOrPushPresent | metrics/heap.go:54-61 | for a present key the length is unchanged and the multiset is the old one with that pair's Value raised by 1 |
| HeapSpec.IncOrPushKeys | metrics/heap.go:63-69 | the key set afterwards is the old key set plus the key |
| HeapSpec.IncOrPushCounts | svc/heap.go:42-57 | the key's count rises by exactly 1, and every other key's count is unchanged |
| HeapSpec.IncOrPushTotal | svc/heap.go:42-57 | the sum of all Values rises by exactly 1 |
| HeapSpec.CountOfDistinct | metrics/heap.go:45-52 | with distinct keys, a key's count is the Value at its `findIndexByKey` slot, or 0 |
| HeapSpec.HeapTestTrace | metrics/heap_test.go:7-30 | states the strict heap after each of the test's six `IncOrPush` calls, from `[google 1]` to the last, `[github 3, google 2, facebook 1]` |
| Heap.MaxHeap.NewHeap | metrics/heap.go:18-22 | a new heap is empty and valid |
| Heap.MaxHeap.Swap | metrics/heap.go:28-30 | exchanges two slots in place |
| Heap.MaxHeap.Less | metrics/heap.go:27 | `Less(i, j)` on the current slice, the `HeapSpec.Less` of the heap's ordering |
| Heap.MaxHeap.Push | metrics/heap.go:32-35 | appends the pair without reordering |
| Heap.MaxHeap.Pop | metrics/heap.go:37-43 | returns the last slot and truncates by one; the prefix stays valid (svc/heap.go lines 25-31 alike) |
| Heap.MaxHeap.Up | metrics/heap.go:67 | the in-place sift-up loop ends in `HeapSpec.Up` of the old slice |
| Heap.MaxHeap.Down | metrics/heap.go:57 | the in-place sift-down loop ends in `HeapSpec.Down`; `moved` iff the entry moved |
| Heap.MaxHeap.Fix | metrics/heap.go:57 | ends in `HeapSpec.Fix` of the old slice |
| Heap.MaxHeap.HeapPush | metrics/heap.go:67 | ends in `HeapSpec.Push` of the old slice |
| Heap.MaxHeap.FindIndexByKey | metrics/heap.go:45-52 | first slot with the key, or -1 iff absent (svc/heap.go lines 33-40 alike) |
| Heap.MaxHeap.IncValue | metrics/heap.go:54-61 | true iff the key was present; the state is the increment-then-Fix of the old slice; a present key's count rises by exactly 1 and every other count stays; validity is kept (svc/heap.go lines 42-49 alike) |
| Heap.MaxHeap.IncOrPush | metrics/heap.go:63-69 | the length grows by one iff the key was absent; keys gain the key; its count rises by 1 and the others' stay; total +1; heap order and distinct keys kept (svc/heap.go lines 51-57 alike, with `>=`) |
| Heap.MaxHeap.GetMaxValuePairs | metrics/heap.go:71-77 | returns min(max(n, 0), len) pairs, equal to the first slots; in a valid heap the first is maximal; the heap is untouched |
| Heap.MaxHeap.Top3MaxHeapKeysValues | svc/heap.go:59-65 | returns min(3, len) pairs, equal to the first slots; the heap is untouched |
| Heap.HeapTest | metrics/heap_test.go:7-30 | six `IncOrPush` calls, then `GetMaxValuePairs(3)`, return `[(github,3),(google,2),(facebook,1)]` |
| Errors.NewErrValidation | svc/errors.go:8-14 | a validation error whose `Error()` is the message |
| Errors.NewErrServerError | svc/errors.go:22-32 | `Error()` is the message and `Unwrap()` is the cause |
| Errors.NewErrConflict | svc/errors.go:39-45 | a conflict error whose `Error()` is the message |
| Errors.NewErrNotFound | svc/errors.go:52-58 | a not-found error whose `Error()` is the message |
| Errors.GoError.Error | svc/errors.go:8-10 | `Error()` returns the stored message, for every kind (also lines 26-28, 39-41, 52-54); the `NewErr…` constructors state it per kind |
| Errors.GoError.Unwrap | svc/errors.go:22-24 | the cause of a server error, nil for every other kind; `NewErrServerError` and `IsIffInChain` describe it |
| Errors.Is | svc/errors_test.go:27 | `errors.Is`: `IsIffInChain` shows it holds exactly for the errors on the unwrap chain |
| Errors.IsIffInChain | svc/errors.go:22-24 | `errors.Is` holds exactly for the errors reached by repeated `Unwrap` |
| Errors.ServerErrorIsCause | svc/errors_test.go:18-30 | a server error `Is` its cause |
| Store.GoMapStore.NewGoMapStore | store/gomap.go:5-7 | starts empty |
| Store.GoMapStore.Put | store/gomap.go:11-15 | sets the key and leaves every other key; returns nil |
| Store.GoMapStore.Get | store/gomap.go:17-23 | the stored value with nil, or "" with `ErrKeyNotFound` iff the key is absent |
| Store.GoMapStore.Exists | store/gomap.go:25-31 | true iff the key is present; never an error |
| Store.GoMapStore.Delete | store/gomap.go:33-37 | removes the key (a missing key is a no-op); returns nil |
| Store.GoMapStoreTest | store/gomap_test.go:10-59 | put then get returns the value; a missing key returns "" and `ErrKeyNotFound`; after delete the key does not exist |
| Store.KVStore.NewKVStore | store/store.go:11-13 | starts empty |
| Store.KVStore.Put | store/store.go:18-22 | sets the key and leaves every other key; returns nil |
| Store.KVStore.Get | store/store.go:24-30 | the stored value, or "" for a missing key, always with a nil error |
| Store.KVStore.Exists | store/store.go:32-38 | true iff the key is present; never an error |
| Store.KVStoreTest | store/store.go:18-38 | put then get returns the value; a missing key returns "" with no error |
| RandomGen.Rand.Intn | svc/randomstrgen.go:31 | each draw lies in [0, n); Go panics for n ≤ 0 |
| RandomGen.Rand.New | svc/randomstrgen.go:24 | the seeded source: a stream of draws `next`, none taken yet |
| RandomGen.LengthFor | svc/randomstrgen.go:29-32 | the length `Generate` picks from its first draw; `LengthForBounds` states its range |
| RandomGen.Generated | svc/randomstrgen.go:33-36 | the string `Generate` builds from the draws; `GeneratedWellFormed` states its length and characters |
| RandomGen.LengthForBounds | svc/randomstrgen.go:29-32 | the length is exactly min when max ≤ min, and within [min, max] otherwise |
| RandomGen.GeneratedWellFormed | svc/randomstrgen.go:28-37 | every generated string has an allowed length and only charset bytes |
| RandomGen.RandomStrGen.NewRandomStrGen | svc/randomstrgen.go:19-26 | stores min, max and charset unchanged |
| RandomGen.RandomStrGen.Generate | svc/randomstrgen.go:28-37 | the buffer-filling loop returns `Generated` of the draws, with the length bounds and charset membership; it consumes one draw per byte plus one for the length when max > min |
| Builder.URLShortnerBuilder.NewURLShortnerBuilder | svc/urlshortnerbuilder.go:19-25 | minLength 4, maxLength 7, charset a-z0-9, no collaborators |
| Builder.URLShortnerBuilder.SetMinLength | svc/urlshortnerbuilder.go:27-30 | changes only minLength and returns the same builder |
| Builder.URLShortnerBuilder.SetMaxLength | svc/urlshortnerbuilder.go:32-35 | changes only maxLength and returns the same builder |
| Builder.URLShortnerBuilder.SetCharset | svc/urlshortnerbuilder.go:37-40 | changes only charset and returns the same builder |
| Builder.URLShortnerBuilder.SetTargetURLStore | svc/urlshortnerbuilder.go:42-45 | changes only targetURLStore and returns the same builder |
| Builder.URLShortnerBuilder.SetShortPathStore | svc/urlshortnerbuilder.go:47-50 | changes only shortPathStore and returns the same builder |
| Builder.URLShortnerBuilder.SetMetrics | svc/urlshortnerbuilder.go:52-55 | changes only metrics and returns the same builder |
| Builder.BuildError | svc/urlshortnerbuilder.go:58-78 | the message of the first failed check, in `Build`'s order; `BuildErrorOrder` states when each message occurs |
| Builder.BuildErrorOrder | svc/urlshortnerbuilder.go:57-78 | each message is reported exactly when its check fails and all earlier ones pass; none iff every collaborator is set, 1 ≤ min ≤ max ≤ 50 and the charset is valid |
| Builder.URLShortnerBuilder.Build | svc/urlshortnerbuilder.go:57-86 | the error is `errors.New` of the first failed check and comes with a nil shortner; on success 1 ≤ min ≤ max ≤ 50, and the generator and collaborators are the builder's |
| Builder.URLShortner.constructor | svc/urlshortnerbuilder.go:81-86 | holds the generator and the three collaborators given |
| Builder.BuilderTest | svc/urlshortnerbuilder_test.go:21-121 | the default builder succeeds; a missing store, lengths 0, min 51, charset "abc$" and min 10 > max 5 give their messages |
| URLShort.LookupIn | svc/urlshort.go:12 | a failing lookup reports its error and nothing found; otherwise found iff the key is present, with its value |
| URLShort.Save | svc/urlshort.go:41 | `saveShortPathToURLMapping`: records the pair in both maps, or fails and records nothing; `ShortenBranch` and `CreateKeepsConsistent` use it |
| URLShort.Shorten | svc/urlshort.go:37-46 | `doShorten`: save the supplied or generated path and return it; `ShortenBranch` states its outcomes |
| URLShort.Create | svc/urlshort.go:10-35 | `CreateShortURL` on the two maps; the branch lemmas below and `CreateIdempotent`, `CreateThenResolve` and `CreateKeepsConsistent` state what it does |
| URLShort.ForwardLookupFails | svc/urlshort.go:11-16 | a forward-lookup error for a supplied path yields "" and `ErrServerError`, and nothing is saved |
| URLShort.SuppliedPathKnown | svc/urlshort.go:17-25 | a supplied path mapped to the same target is returned unchanged; mapped elsewhere it yields "" and `ErrConflict`; nothing is saved |
| URLShort.EmptyPathSkipsForwardLookup | svc/urlshort.go:11 | with an empty path the outcome does not depend on the forward lookup |
| URLShort.ReverseLookup | svc/urlshort.go:27-33 | a reverse-lookup error yields `ErrServerError`; an already-shortened target returns its existing path even if a different path was supplied |
| URLShort.ShortenBranch | svc/urlshort.go:34 | otherwise the supplied or generated path is saved in both maps and returned; a failed save yields "" and `ErrServerError` with the maps unchanged |
| URLShort.FailureChangesNothing | svc/urlshort.go:10-46 | every error reply has path "" and is `ErrServerError` or `ErrConflict`, and the maps are unchanged |
| URLShort.CreateIdempotent | svc/urlshort.go:10-46 | repeating a successful request returns the same path and changes nothing |
| URLShort.CreateThenResolve | svc/urlshort.go:10-46 | from consistent maps, the returned path resolves to the target and the target maps back to it |
| URLShort.CreateKeepsConsistent | svc/urlshort.go:37-46 | the maps stay consistent when the saved path was not in use |
| URLShort.GeneratedCollisionBreaksConsistency | svc/urlshort.go:38-41 | a generated path already in use is overwritten and the maps disagree afterwards |
| URLShort.Service.LookupTargetURL | svc/urlshort.go:12 | the forward lookup on the current map |
| URLShort.Service.LookupShortPath | svc/urlshort.go:27 | the reverse lookup on the current map |
| URLShort.Service.SaveShortPathToURLMapping | svc/urlshort.go:41 | records the pair in both maps, or fails and records nothing |
| URLShort.Service.DoShorten | svc/urlshort.go:37-46 | ends in the reply and maps of `Shorten` |
| URLShort.Service.CreateShortURL | svc/urlshort.go:10-35 | ends in the reply and maps of `Create`, whose branches the lemmas above describe |

## Left out

- HTTP handlers, JSON decoding and status mapping (`rest/`), and the wiring in `main.go`: these are I/O and configuration.
- The Redis store (`store/redis.go`): a network client. Its `Exists` leaves out the namespace prefix that `Put`, `Get` and `Delete` add.
- The metrics workers (`metrics/metrics.go`, `svc/metrics.go`): a goroutine draining a buffered channel. Their sequential content is `IncOrPush` followed by the top-3 read, both modelled above.
- The generated mocks, and the placeholder `Shorten` in `svc/urlshortner.go`.
- svc/urlshortnerbuilder.go calls `isValidPathSegment` but does not define it; it is the parameter `validSegment`. svc/urlshortner_test.go exercises `CreateShortPath` and `GetTargetURL` of the `urlShortner` that `Build` returns. They are not modelled. The tests show they validate both inputs, strip a trailing slash, check `Exists` before saving a generated path, report the domain to metrics and return the typed errors of svc/errors.go. `CreateShortURL` in svc/urlshort.go does none of this.
- `lookupTargetURL`, `lookupShortPath`, `generateShortPath` and `saveShortPathToURLMapping` are called by svc/urlshort.go but not defined there. They are modelled over the forward and reverse maps; their failures are the `faults` parameter and the generated path is the `generated` parameter.
- URLShort.Service.SaveShortPathToURLMapping: assumes a failed save records nothing; svc/urlshort.go does not say what a failed save leaves behind.
- URLShort.Service.CreateShortURL: `doShorten` saves the path without checking whether it is already in use (svc/urlshort.go:38-41), and `generateShortPath` is called there but not defined in svc/urlshort.go. `GeneratedCollisionBreaksConsistency` shows what an in-use path does to the maps. No retry is modelled: `doShorten` (svc/urlshort.go:37-46) has none.
- The `context.Context` argument of `goMapStore`'s methods is ignored by the source and is dropped here.
- RandomGen.Rand.Intn: `math/rand` seeded from the clock is modelled as an arbitrary stream `next` reduced modulo n. This covers any stream of draws, but not Go's exact generator or its distribution.
- RandomGen.RandomStrGen.Generate: the charset is a string of characters, while Go indexes it by byte, so a charset with multi-byte characters behaves differently in Go.
- Go's fixed-width `int` overflow: `Value++` on a count at the maximum int, and `maxLength-minLength+1` at the extremes, are computed on unbounded integers.
- Errors.Is: Go compares error values with `==`, which for the pointer kinds is identity. The model compares by value, so two separately built errors with the same message count as equal here.
- The two heap copies are one class whose `order` picks the `Less` function. The svc copy's zero value `MaxHeap{}` is `NewHeap(NonStrict)`.
- Heap.MaxHeap.GetMaxValuePairs: promises only that the first slot is maximal, not that the result is in descending order. The Go code returns array order.
