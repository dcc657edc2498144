/**
 * The sequential batch loop shared by the pick board and the backtester:
 * `for (i = 0; i < pool.length; i += BATCH)` scores `pool.slice(i, i + BATCH)`,
 * keeps the fulfilled, non-null results and reports `min(i + BATCH, n)`
 * as progress.  A batch's promises settle concurrently in the source; the
 * model scores them one after the other, which keeps the same results in
 * pool order.  The backtester may stop early on an abort flag, which is
 * checked before each batch; `abortAt` is the index of the first batch at
 * which the flag is seen set (it stays set from then on).
 */
module Batching {
  import opened Wrappers

  function MinNat(a: nat, b: nat): nat { if a <= b then a else b }

  /**
   * The loop counter before batch `k`: `k * size`, written as the repeated
   * addition the loop performs (`i += BATCH`).
   */
  function Start(k: nat, size: nat): nat {
    if k == 0 then 0 else Start(k - 1, size) + size
  }

  lemma {:induction false} StartIsProduct(k: nat, size: nat)
    ensures Start(k, size) == k * size
  {
    if k > 0 {
      StartIsProduct(k - 1, size);
    }
  }

  lemma {:induction false} StartMonotone(a: nat, k: nat, size: nat)
    requires a <= k
    ensures Start(a, size) <= Start(k, size)
    decreases k
  {
    if a < k {
      StartMonotone(a, k - 1, size);
    }
  }

  /** Batch `k`: `pool.slice(k * size, (k + 1) * size)`. */
  function Chunk<E>(pool: seq<E>, size: nat, k: nat): seq<E>
    requires Start(k, size) < |pool|
  {
    pool[Start(k, size) .. MinNat(Start(k, size) + size, |pool|)]
  }

  /** Batches `0 .. b - 1`, one after the other. */
  function Chunks<E>(pool: seq<E>, size: nat, b: nat): seq<E>
    requires b == 0 || Start(b - 1, size) < |pool|
  {
    if b == 0 then []
    else if b == 1 then Chunk(pool, size, 0)
    else
      StartMonotone(b - 2, b - 1, size);
      Chunks(pool, size, b - 1) + Chunk(pool, size, b - 1)
  }

  /**
   * The batches tile the pool: batches `0 .. b - 1` together are exactly the
   * first `min(b * size, n)` entries, each once and in order.
   */
  lemma {:induction false} ChunksTile<E>(pool: seq<E>, size: nat, b: nat)
    requires b == 0 || Start(b - 1, size) < |pool|
    ensures Chunks(pool, size, b) == pool[..MinNat(Start(b, size), |pool|)]
  {
    if b > 0 {
      if b > 1 {
        StartMonotone(b - 2, b - 1, size);
      }
      ChunksTile(pool, size, b - 1);
      var i := Start(b - 1, size);
      assert pool[..MinNat(i + size, |pool|)] == pool[..i] + pool[i..MinNat(i + size, |pool|)];
    }
  }

  /**
   * The present results of `s` under `score`, in order: what
   * `results.push(r.value)` collects for the fulfilled, non-null results.
   */
  function Kept<E, R>(s: seq<E>, score: E -> Option<R>): seq<R>
    decreases |s|
  {
    if s == [] then []
    else
      var last := score(s[|s| - 1]);
      Kept(s[..|s| - 1], score) + (if last.Some? then [last.value] else [])
  }

  lemma {:induction false} KeptAppend<E, R>(a: seq<E>, b: seq<E>, score: E -> Option<R>)
    ensures Kept(a + b, score) == Kept(a, score) + Kept(b, score)
    decreases |b|
  {
    if b == [] {
      assert a + b == a;
    } else {
      var b' := b[..|b| - 1];
      assert (a + b)[..|a + b| - 1] == a + b';
      assert (a + b)[|a + b| - 1] == b[|b| - 1];
      KeptAppend(a, b', score);
    }
  }

  /** A value is kept exactly when some entry scores to it. */
  lemma {:induction false} KeptMembership<E, R>(s: seq<E>, score: E -> Option<R>, x: R)
    ensures x in Kept(s, score) <==> exists i :: 0 <= i < |s| && score(s[i]) == Some(x)
    decreases |s|
  {
    if s != [] {
      var init := s[..|s| - 1];
      KeptMembership(init, score, x);
      if x in Kept(init, score) {
        var i :| 0 <= i < |init| && score(init[i]) == Some(x);
        assert s[i] == init[i];
      }
      if exists i :: 0 <= i < |s| && score(s[i]) == Some(x) {
        var i :| 0 <= i < |s| && score(s[i]) == Some(x);
        if i < |init| {
          assert score(init[i]) == Some(x);
        }
      }
    }
  }

  /** At most one result per entry. */
  lemma {:induction false} KeptLength<E, R>(s: seq<E>, score: E -> Option<R>)
    ensures |Kept(s, score)| <= |s|
    decreases |s|
  {
    if s != [] {
      KeptLength(s[..|s| - 1], score);
    }
  }

  /** Scores one batch, keeping the present results in order. */
  method ScoreBatch<E, R>(batch: seq<E>, score: E -> Option<R>) returns (kept: seq<R>)
    ensures kept == Kept(batch, score)
  {
    kept := [];
    var k := 0;
    while k < |batch|
      invariant 0 <= k <= |batch|
      invariant kept == Kept(batch[..k], score)
    {
      var v := score(batch[k]);
      assert batch[..k + 1][..k] == batch[..k];
      if v.Some? {
        kept := kept + [v.value];
      }
      k := k + 1;
    }
    assert batch[..k] == batch;
  }

  /**
   * The progress reported after each of the first `b` batches: after batch
   * `k` the loop reports `min((k + 1) * size, n)`.
   */
  function Progress(n: nat, size: nat, b: nat): (r: seq<nat>)
    ensures |r| == b
  {
    if b == 0 then [] else Progress(n, size, b - 1) + [MinNat(Start(b, size), n)]
  }

  lemma {:induction false} ProgressAt(n: nat, size: nat, b: nat, k: nat)
    requires k < b
    ensures Progress(n, size, b)[k] == MinNat(Start(k + 1, size), n)
  {
    if k < b - 1 {
      ProgressAt(n, size, b - 1, k);
    }
  }

  /**
   * How many entries the loop covers: all of them, or, when the flag is
   * seen before batch `b`, the first `min(b * size, n)`.
   */
  function Covered(n: nat, size: nat, abortAt: Option<nat>): (c: nat)
    ensures c <= n
    ensures abortAt.None? ==> c == n
  {
    if abortAt.None? then n else MinNat(Start(abortAt.value, size), n)
  }

  /**
   * Runs the batches over `pool` and returns the kept results and the
   * progress reported after each batch.  The loop stops when the counter
   * reaches the end of the pool or when the abort flag is seen; `kept`
   * holds the present results of the entries covered so far, in pool order
   * (`ChunksTile`: those entries are the chunks `0 .. |done| - 1`).
   */
  method RunBatches<E, R>(pool: seq<E>, size: nat, score: E -> Option<R>, abortAt: Option<nat>)
    returns (kept: seq<R>, done: seq<nat>)
    requires size > 0
    ensures done == Progress(|pool|, size, |done|)
    ensures |pool| <= Start(|done|, size) || abortAt == Some(|done|)
    ensures abortAt.Some? ==> |done| <= abortAt.value
    ensures |done| == 0 || Start(|done| - 1, size) < |pool|
    ensures kept == Kept(pool[..MinNat(Start(|done|, size), |pool|)], score)
    ensures MinNat(Start(|done|, size), |pool|) == Covered(|pool|, size, abortAt)
  {
    kept, done := [], [];
    var i := 0;
    var b: nat := 0;
    ghost var covered: seq<E> := [];
    while i < |pool|
      invariant i == Start(b, size)
      invariant abortAt.Some? ==> b <= abortAt.value
      invariant |done| == b
      invariant b == 0 || Start(b - 1, size) < |pool|
      invariant done == Progress(|pool|, size, b)
      invariant covered == pool[..MinNat(i, |pool|)]
      invariant kept == Kept(covered, score)
      decreases |pool| - i
    {
      if abortAt.Some? && abortAt.value == b {
        break;
      }
      var j := MinNat(i + size, |pool|);
      var batch := pool[i..j];
      var r := ScoreBatch(batch, score);
      KeptAppend(covered, batch, score);
      assert pool[..j] == covered + batch;
      kept := kept + r;
      covered := covered + batch;
      done := done + [j];
      i := i + size;
      b := b + 1;
    }
    if abortAt.Some? && |pool| <= Start(b, size) {
      StartMonotone(b, abortAt.value, size);
    }
  }

  /** Once the counter passes the end, the batches run have visited the whole pool. */
  lemma RunCoversPool<E>(pool: seq<E>, size: nat, b: nat)
    requires b == 0 || Start(b - 1, size) < |pool|
    requires |pool| <= Start(b, size)
    ensures Chunks(pool, size, b) == pool
  {
    ChunksTile(pool, size, b);
  }
}
