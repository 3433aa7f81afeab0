/**
 * The tribonacci cache-and-compute engine.
 *
 * A `Tribo` object keeps a cache of the first terms of the sequence
 * T(1) = 0, T(2) = 0, T(3) = 1, T(i) = T(i-1) + T(i-2) + T(i-3), and answers
 * `Get(n)` either from the cache or by extending a private copy of it with a
 * sliding window of the last three terms. The extended copy, cut off at the
 * cache size limit, is merged back into the cache afterwards.
 *
 * The model is sequential: the lock, the goroutine per step and the
 * background merge of the original become ordinary calls, and the caller's
 * cancellation context becomes the oracle `Context`.
 */
module Tribo {

  datatype Option<T> = None | Some(value: T)

  /** Why a `Get` call fails. */
  datatype Error =
    | InvalidArgument  // the index is not a positive integer
    | Cancelled        // the context fired before the target index was reached

  datatype Result<T> = Ok(value: T) | Err(error: Error)

  /**
   * A cancellation context, seen only through the extension step at which it
   * fires: `Background` never fires, `CancelAfter(k)` lets exactly k steps
   * complete and is done when the loop waits on its step number k (0-based).
   */
  datatype Context = Background | CancelAfter(steps: nat)
  {
    /** Whether the context is done when the extension loop waits on step `step`. */
    predicate Done(step: nat) {
      CancelAfter? && steps <= step
    }

    /** Whether `count` successive extension steps all complete before the context fires. */
    predicate Survives(count: nat) {
      Background? || count <= steps
    }
  }

  function Max(a: int, b: int): (m: int) { if a < b then b else a }

  function Min(a: int, b: int): (m: int) { if a < b then a else b }

  /** The tribonacci term with 1-based index `i`. */
  function T(i: nat): (t: nat)
    requires 1 <= i
  {
    if i <= 2 then 0
    else if i == 3 then 1
    else T(i - 1) + T(i - 2) + T(i - 3)
  }

  /** `s` holds the first |s| terms of the sequence: s[i] is T(i + 1). */
  predicate IsTPrefix(s: seq<nat>) {
    forall i :: 0 <= i < |s| ==> s[i] == T(i + 1)
  }

  /** The three most recent terms of `s`, or `None` (a fatal error) when it holds fewer than three. */
  function LastThree(s: seq<nat>): (r: Option<(nat, nat, nat)>)
    ensures r.None? <==> |s| < 3
    ensures r.Some? ==> r.value == (s[|s| - 3], s[|s| - 2], s[|s| - 1])
  {
    if |s| < 3 then None else Some((s[|s| - 3], s[|s| - 2], s[|s| - 1]))
  }

  /** On a prefix of the sequence of length l >= 3, the window is (T(l-2), T(l-1), T(l)). */
  lemma LastThreeOfTPrefix(s: seq<nat>)
    requires IsTPrefix(s) && 3 <= |s|
    ensures LastThree(s) == Some((T(|s| - 2), T(|s| - 1), T(|s|)))
  {
  }

  /**
   * The cache after merging a candidate extension `temp` into `cache`: only
   * the suffix of `temp` beyond the current length is appended.
   */
  function Merged(cache: seq<nat>, temp: seq<nat>): (r: seq<nat>)
    ensures |r| == Max(|cache|, |temp|)
    ensures cache <= r
    ensures |temp| > |cache| ==> r[|cache|..] == temp[|cache|..]
  {
    if |temp| > |cache| then cache + temp[|cache|..] else cache
  }

  /** Merging one prefix of the sequence into another yields the longer of the two. */
  lemma MergedKeepsTPrefix(cache: seq<nat>, temp: seq<nat>)
    requires IsTPrefix(cache) && IsTPrefix(temp)
    ensures Merged(cache, temp) == if |temp| > |cache| then temp else cache
    ensures IsTPrefix(Merged(cache, temp))
  {
  }

  /**
   * Two merges of prefixes of the sequence give the same cache in either
   * order, and it is as long as the longest of the three.
   */
  lemma MergeOrderIrrelevant(cache: seq<nat>, a: seq<nat>, b: seq<nat>)
    requires IsTPrefix(cache) && IsTPrefix(a) && IsTPrefix(b)
    ensures Merged(Merged(cache, a), b) == Merged(Merged(cache, b), a)
    ensures |Merged(Merged(cache, a), b)| == Max(|cache|, Max(|a|, |b|))
    ensures IsTPrefix(Merged(Merged(cache, a), b))
  {
  }

  /** The outcome of a successful extension: the requested term and the private copy to merge. */
  datatype Extension = Extension(term: nat, temp: seq<nat>)

  /**
   * The slow path of `Get`: extends the snapshot term by term with a sliding
   * window until index `n`, appending a term to the private copy only while
   * the loop index is below `limit`, and checking the context after each step.
   */
  method Extend(snapshot: seq<nat>, n: int, limit: int, ctx: Context) returns (r: Result<Extension>)
    requires 3 <= |snapshot| < n && IsTPrefix(snapshot)
    ensures r.Ok? <==> ctx.Survives(n - |snapshot|)
    ensures r.Err? ==> r.error == Cancelled
    ensures r.Ok? ==> r.value.term == T(n)
    ensures r.Ok? ==> IsTPrefix(r.value.temp) && |r.value.temp| == Max(|snapshot|, Min(n, limit))
  {
    var temp := snapshot;
    var window := LastThree(temp);
    var n1, n2, n3 := window.value.0, window.value.1, window.value.2;
    var l := |temp|;
    while l < n
      invariant |snapshot| <= l <= n
      invariant n1 == T(l - 2) && n2 == T(l - 1) && n3 == T(l)
      invariant IsTPrefix(temp) && |temp| == Max(|snapshot|, Min(l, limit))
      invariant ctx.Survives(l - |snapshot|)
    {
      n1 := n1 + n2 + n3;
      n1, n2, n3 := n2, n3, n1;
      if l < limit {
        temp := temp + [n3];
      }
      if ctx.Done(l - |snapshot|) {
        return Err(Cancelled);
      }
      l := l + 1;
    }
    r := Ok(Extension(n3, temp));
  }

  /** The engine: a cache of leading terms and the bound on how far it may grow. */
  class Tribo {
    var cache: seq<nat>
    const cacheSizeLimit: int

    /** The cache holds at least the three seed terms, only terms of the sequence, and no more than the limit allows. */
    ghost predicate Valid()
      reads this
    {
      3 <= |cache| <= Max(3, cacheSizeLimit) && IsTPrefix(cache)
    }

    /** A fresh engine seeded with 0, 0, 1; the limit is stored unchecked. */
    constructor (cacheSizeLimit: int)
      ensures cache == [0, 0, 1] && this.cacheSizeLimit == cacheSizeLimit
      ensures Valid()
    {
      cache := [0, 0, 1];
      this.cacheSizeLimit := cacheSizeLimit;
    }

    /** The term with index n if the cache holds it. */
    function CacheValue(n: int): (r: Option<nat>)
      reads this
      requires 1 <= n
      ensures r.Some? <==> n <= |cache|
      ensures r.Some? ==> r.value == cache[n - 1]
      ensures IsTPrefix(cache) && r.Some? ==> r.value == T(n)
    {
      if n <= |cache| then Some(cache[n - 1]) else None
    }

    /** A private copy of the cache. */
    method CacheCopy() returns (c: seq<nat>)
      ensures c == cache
    {
      c := cache;
    }

    /** The number of cached terms. */
    function CacheLength(): (r: nat)
      reads this
      ensures r == |cache|
      ensures Valid() ==> 3 <= r <= Max(3, cacheSizeLimit)
    {
      |cache|
    }

    /** Merges a candidate extension into the cache, appending only what lies beyond its current length. */
    method AppendToCache(temp: seq<nat>)
      modifies this
      ensures cache == Merged(old(cache), temp)
      ensures old(Valid()) && IsTPrefix(temp) && |temp| <= Max(3, cacheSizeLimit) ==> Valid()
    {
      if |temp| > |cache| {
        cache := cache + temp[|cache|..];
      }
    }

    /**
     * The term with index n: an error for n <= 0, a cache hit when n is within
     * the cache, otherwise an extension of a snapshot that fails if the context
     * fires first and on success is merged back into the cache.
     */
    method Get(ctx: Context, n: int) returns (r: Result<nat>)
      requires Valid()
      modifies this
      ensures Valid()
      ensures r.Ok? <==> 0 < n && (n <= |old(cache)| || ctx.Survives(n - |old(cache)|))
      ensures r.Ok? ==> r.value == T(n)
      ensures r.Err? ==> r.error == if n <= 0 then InvalidArgument else Cancelled
      ensures r.Err? || n <= |old(cache)| ==> cache == old(cache)
      ensures r.Ok? && |old(cache)| < n ==> |cache| == Max(|old(cache)|, Min(n, cacheSizeLimit))
      ensures old(cache) <= cache
      ensures cacheSizeLimit <= 3 ==> cache == old(cache)
    {
      if n <= 0 {
        return Err(InvalidArgument);
      }
      var hit := CacheValue(n);
      if hit.Some? {
        return Ok(hit.value);
      }
      var snapshot := CacheCopy();
      var ext := Extend(snapshot, n, cacheSizeLimit, ctx);
      if ext.Err? {
        return Err(ext.error);
      }
      AppendToCache(ext.value.temp);
      r := Ok(ext.value.term);
    }
  }
}
