# Tribonacci cache-and-compute engine, modelled in Dafny

This project models the engine of a small tribonacci web service (`tribo/tribo.go`). The
sequence is T(1) = 0, T(2) = 0, T(3) = 1 and T(i) = T(i-1) + T(i-2) + T(i-3).

A `Tribo` engine keeps a cache of the leading terms of the sequence and a size limit that is
fixed at construction. `Get(n)` works in four steps:

- It rejects n <= 0.
- It answers from the cache when n is within it.
- Otherwise it takes a private copy of the cache and extends it with a sliding window of the
  last three terms. A new term is kept in the copy only while the loop index is below the
  limit. The caller's context is checked after every step.
- It returns T(n) and merges the copy back into the cache. The merge appends only the part of
  the copy beyond the cache's current length.

Files:

- `tribo.dfy`: module `Tribo`. It holds the sequence `T`, the window function `LastThree`,
  the merge function `Merged` and its lemmas, the extension loop `Extend`, and the class
  `Tribo` with its cache.
- `tribo_test.dfy`: module `TriboTest`. It proves the expected values and cache lengths of
  `tribo/tribo_test.go` from the class's contracts alone.

The object invariant `Tribo.Valid()` has three parts:

- the cache holds at least the three seed terms;
- every entry i holds T(i+1);
- the length is at most max(3, cacheSizeLimit).

The constructor and `Get` keep it. `AppendToCache` keeps it only when it is given a correct
extension within the limit, which is what `Get` passes it; an arbitrary candidate can break it.
Together with the length that `Get` states, the invariant pins down the whole cache after every
call of `Get`.

Cancellation is modelled as an oracle, the datatype `Context`:

- `Background` never fires.
- `CancelAfter(k)` lets exactly k extension steps complete. The loop then sees it done when
  it waits on step k (counted from 0).

Two facts about the cache follow from the code:

- The cache is bounded by max(3, cacheSizeLimit). The comment at tribo/tribo.go:31-33 asks for
  a limit above 3, since otherwise the cache is never updated; the model accepts any limit, and
  with a limit of 3 or less the cache keeps exactly the 3 seed terms.
- Two merges of correct extensions commute, so the longer extension is never lost
  (`MergeOrderIrrelevant`). Either order gives a correct cache as long as the longest of the
  old cache and the two extensions.

## Model

| member | source | states |
|---|---|---|
| `Tribo.Tribo.constructor` | tribo/tribo.go:31-39 | a new engine's cache is exactly [0, 0, 1], the limit is stored unchanged and unvalidated, and the object invariant holds |
| `Tribo.LastThree` | tribo/tribo.go:85-93 | fails (the panic) exactly when the slice has fewer than 3 entries, otherwise gives its last three entries in order |
| `Tribo.LastThreeOfTPrefix` | tribo/tribo.go:55-56 | on a correct cache of length l >= 3 the starting window is (T(l-2), T(l-1), T(l)) |
| `Tribo.Tribo.CacheValue` | tribo/tribo.go:97-104 | hits exactly when n <= len(cache), returning entry n-1, which is T(n) on a correct cache |
| `Tribo.Tribo.CacheCopy` | tribo/tribo.go:106-112 | the snapshot equals the cache at the time of the call and leaves the cache untouched |
| `Tribo.Tribo.CacheLength` | tribo/tribo.go:122-126 | the cache length, in any state; on a valid engine it lies between 3 and max(3, cacheSizeLimit) |
| `Tribo.Merged` | tribo/tribo.go:117-119 | the merged cache has length max(len(cache), len(temp)), keeps the old cache as a prefix, and past the old length holds exactly temp's suffix |
| `Tribo.MergedKeepsTPrefix` | tribo/tribo.go:114-120 | merging one correct prefix of the sequence into another gives the longer of the two, which is again a correct prefix |
| `Tribo.MergeOrderIrrelevant` | tribo/tribo.go:114-120 | two merges of correct extensions give the same cache in either order; it is correct and as long as the longest of the three |
| `Tribo.Tribo.AppendToCache` | tribo/tribo.go:114-120 | the new cache is `Merged(old cache, temp)`; a correct extension within the limit keeps the object invariant |
| `Tribo.Extend` | tribo/tribo.go:55-80 | for a snapshot shorter than n: succeeds exactly when the context lets all n - len(snapshot) steps complete, and otherwise fails with Cancelled; on success it returns T(n) and a private copy that is a correct prefix of length max(len(snapshot), min(n, limit)); loop invariants: window = (T(l-2), T(l-1), T(l)), copy = first max(len0, min(l, limit)) terms |
| `Tribo.Tribo.Get` | tribo/tribo.go:41-83 | n <= 0 fails with InvalidArgument; otherwise succeeds exactly on a cache hit or when the context survives the steps needed, and then returns T(n); on failure or a hit the cache is unchanged; after a computed success the cache has length max(old length, min(n, limit)); the cache never shrinks, keeps its old entries, never grows with a limit <= 3, and stays valid |
| `TriboTest.TermTable` | tribo/tribo_test.go:63-94 | T(1) .. T(30) equal the values the tests expect, e.g. T(10) = 44, T(16) = 1705, T(30) = 8646064 |
| `TriboTest.NewScenario` | tribo/tribo_test.go:25-33 | New(10) stores limit 10 and starts with 3 cached terms |
| `TriboTest.CacheLimitingScenario` | tribo/tribo_test.go:35-50 | with limit 100 the cache holds exactly 50 terms after Get(50) and exactly 100 (not more) after Get(1000) |
| `TriboTest.TablePart1` | tribo/tribo_test.go:63-75 | Get(-5) and Get(0) fail with InvalidArgument; Get(1..3), Get(14..16), then Get(4..8) return the expected terms |
| `TriboTest.TablePart2` | tribo/tribo_test.go:76-83 | Get(23..30), beyond a limit of 20, return the expected terms |
| `TriboTest.TablePart3` | tribo/tribo_test.go:84-94 | Get(9..13) and Get(17..22) return the expected terms |
| `TriboTest.GetScenario` | tribo/tribo_test.go:52-109 | the whole table on one engine with limit 20, in the tests' order, including the last row: Get(1000000) with a context that fires first fails with Cancelled and leaves the cache unchanged |

## Left out

- The `sync.Mutex` (tribo/tribo.go:26) and the locking in `cacheValue`, `cacheCopy`,
  `appendToCache` and `getCacheLength`. The model is sequential, so every operation is atomic.
- The goroutine per extension step and the `select` on the step channel or `ctx.Done()`
  (tribo/tribo.go:58-79). They are replaced by an inline loop that asks the `Context` oracle
  after each step. Which branch of the `select` wins when both are ready is the oracle's
  choice. Real deadlines and clocks are not modelled.
- The background merge `go t.appendToCache(tempCache)` (tribo/tribo.go:81) is an ordinary call
  made before `Get` returns. Interleavings of concurrent merges are covered only by
  `MergeOrderIrrelevant`, which is about the merge function.
- The race window between `cacheValue` and `cacheCopy` (tribo/tribo.go:49-55) is left out. A
  concurrent merge there could let the loop run zero times and return the wrong term. `Extend`
  instead requires the snapshot to be shorter than n, which always holds in a sequential run.
- `big.Int` pointers, aliasing and deep copies (tribo/tribo.go:90-92, 109-110) are left out.
  Dafny integers are values. The deep-copy check of `TestLastThree` (tribo/tribo_test.go:117-119)
  has no counterpart.
- The two errors `ctx.Err()` can return (tribo/tribo.go:78), `context.Canceled` and
  `context.DeadlineExceeded`, are merged into the single error `Cancelled`; the oracle does
  not say why the context fired.
- `Result.Value` as a decimal string (`big.Int.String()`) is left out. The model returns the
  term as a natural number.
- Go's `int` width for `n` and `cacheSizeLimit` is left out. Indices are unbounded integers,
  and overflow of the loop index is out of scope.
- The HTTP handler (`handlers.go`), the server's startup and shutdown (`main.go`) and the
  benchmarks (tribo/tribo_test.go:11-23) are not part of this model.
