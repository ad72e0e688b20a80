/**
 * Django's `update_or_create(key, defaults=d)` on a table with a natural
 * key.  A table restricted to one repository is a map from its natural key
 * (a GitHub username, a commit SHA, a pull request or issue number) to the
 * row, so the uniqueness constraint holds by construction.  `write(old, d)`
 * is the row the call leaves: built from `d` and the model's field defaults
 * when `old` is `None` (create), and `old` with the `defaults` columns
 * overwritten otherwise (update).  Writing a batch row by row, in order, is
 * `ApplyBatch`.
 */
module Upsert {
  import opened Wrappers

  function Get<K, V>(t: map<K, V>, k: K): (r: Option<V>)
    ensures r.Some? <==> k in t
    ensures r.Some? ==> r.value == t[k]
  {
    if k in t then Some(t[k]) else None
  }

  /**
   * `update_or_create` overwrites every column it writes: a write that
   * follows another write on the same key leaves what the second write
   * alone would have left.
   */
  ghost predicate Overwriting<V(!new), D(!new)>(write: (Option<V>, D) -> V) {
    forall x: Option<V>, d1: D, d2: D :: write(Some(write(x, d1)), d2) == write(x, d2)
  }

  /** The keys a batch writes. */
  function BatchKeys<K, D>(batch: seq<(K, D)>): (ks: set<K>)
    ensures forall i :: 0 <= i < |batch| ==> batch[i].0 in ks
    ensures forall k :: k in ks ==> exists i :: 0 <= i < |batch| && batch[i].0 == k
  {
    set i | 0 <= i < |batch| :: batch[i].0
  }

  /** The table after `update_or_create` for every entry of the batch, in order. */
  function ApplyBatch<K, D, V>(t: map<K, V>, batch: seq<(K, D)>, write: (Option<V>, D) -> V): map<K, V>
    decreases |batch|
  {
    if |batch| == 0 then t
    else
      var last := batch[|batch| - 1];
      var before := ApplyBatch(t, batch[..|batch| - 1], write);
      before[last.0 := write(Get(before, last.0), last.1)]
  }

  /** The `defaults` of the last entry of the batch that has key `k`. */
  function LastDefaults<K(==), D>(batch: seq<(K, D)>, k: K): D
    requires k in BatchKeys(batch)
    decreases |batch|
  {
    var last := batch[|batch| - 1];
    if last.0 == k then last.1
    else
      assert k in BatchKeys(batch[..|batch| - 1]) by {
        var i :| 0 <= i < |batch| && batch[i].0 == k;
        assert batch[..|batch| - 1][i].0 == k;
      }
      LastDefaults(batch[..|batch| - 1], k)
  }

  /** The `with transaction.atomic(): for data in batch: update_or_create(...)` loop. */
  method UpsertAll<K, D, V>(t: map<K, V>, batch: seq<(K, D)>, write: (Option<V>, D) -> V) returns (r: map<K, V>)
    ensures r == ApplyBatch(t, batch, write)
  {
    r := t;
    var i := 0;
    while i < |batch|
      invariant 0 <= i <= |batch|
      invariant r == ApplyBatch(t, batch[..i], write)
    {
      assert batch[..i + 1][..i] == batch[..i];
      var key := batch[i].0;
      var existing := if key in r then Some(r[key]) else None;
      r := r[key := write(existing, batch[i].1)];
      i := i + 1;
    }
    assert batch[..|batch|] == batch;
  }

  /** After the batch the table holds exactly the old keys and the batch's keys. */
  lemma {:induction false} ApplyBatchKeys<K, D, V>(t: map<K, V>, batch: seq<(K, D)>, write: (Option<V>, D) -> V)
    ensures ApplyBatch(t, batch, write).Keys == t.Keys + BatchKeys(batch)
    decreases |batch|
  {
    if |batch| > 0 {
      var init := batch[..|batch| - 1];
      ApplyBatchKeys(t, init, write);
      assert BatchKeys(batch) == BatchKeys(init) + {batch[|batch| - 1].0} by {
        forall k | k in BatchKeys(batch) ensures k in BatchKeys(init) + {batch[|batch| - 1].0} {
          var i :| 0 <= i < |batch| && batch[i].0 == k;
          if i < |batch| - 1 {
            assert init[i].0 == k;
          }
        }
      }
    }
  }

  /** Rows whose key the batch does not write are unchanged, and absent keys stay absent. */
  lemma {:induction false} ApplyBatchOthers<K, D, V>(t: map<K, V>, batch: seq<(K, D)>, write: (Option<V>, D) -> V, k: K)
    requires k !in BatchKeys(batch)
    ensures Get(ApplyBatch(t, batch, write), k) == Get(t, k)
    decreases |batch|
  {
    if |batch| > 0 {
      ApplyBatchOthers(t, batch[..|batch| - 1], write, k);
    }
  }

  /**
   * A key the batch writes holds what one write of its last entry's
   * `defaults` over the original row leaves: last write wins.
   */
  lemma {:induction false} ApplyBatchLastWins<K, D(!new), V(!new)>(t: map<K, V>, batch: seq<(K, D)>, write: (Option<V>, D) -> V, k: K)
    requires Overwriting(write)
    requires k in BatchKeys(batch)
    ensures k in ApplyBatch(t, batch, write)
    ensures ApplyBatch(t, batch, write)[k] == write(Get(t, k), LastDefaults(batch, k))
    decreases |batch|
  {
    var init := batch[..|batch| - 1];
    var last := batch[|batch| - 1];
    if k in BatchKeys(init) {
      ApplyBatchLastWins(t, init, write, k);
      if last.0 == k {
        var x := Get(t, k);
        assert write(Some(write(x, LastDefaults(init, k))), last.1) == write(x, last.1);
      }
    } else {
      ApplyBatchOthers(t, init, write, k);
    }
  }

  /**
   * Storing the same batch twice leaves the same table as storing it once:
   * one row per key, with the same values.
   */
  lemma ApplyBatchIdempotent<K, D(!new), V(!new)>(t: map<K, V>, batch: seq<(K, D)>, write: (Option<V>, D) -> V)
    requires Overwriting(write)
    ensures ApplyBatch(ApplyBatch(t, batch, write), batch, write) == ApplyBatch(t, batch, write)
  {
    var once := ApplyBatch(t, batch, write);
    var twice := ApplyBatch(once, batch, write);
    ApplyBatchKeys(t, batch, write);
    ApplyBatchKeys(once, batch, write);
    forall k | k in once
      ensures k in twice && twice[k] == once[k]
    {
      if k in BatchKeys(batch) {
        ApplyBatchLastWins(t, batch, write, k);
        ApplyBatchLastWins(once, batch, write, k);
        var d := LastDefaults(batch, k);
        assert write(Some(write(Get(t, k), d)), d) == write(Get(t, k), d);
      } else {
        ApplyBatchOthers(once, batch, write, k);
      }
    }
  }
}
