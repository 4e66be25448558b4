/**
 * Deduplication of scraped calendar rows by a composite key
 * (te_calendar_scraper/io/dedupe.py).  A row is a dict from column name to
 * value; the composite key is the tuple of `row.get(k)` over the key columns,
 * `None` where the column is missing.
 */
module Dedupe {
  import opened Wrappers
  import opened SeqUtil

  type Row<V> = map<string, V>
  type Key<V> = seq<Option<V>>

  /** `tuple(row.get(k) for k in keys)` */
  function KeyOf<V>(row: Row<V>, keys: seq<string>): (key: Key<V>)
    ensures |key| == |keys|
    ensures forall i {:trigger key[i]} :: 0 <= i < |keys| ==> key[i] == (if keys[i] in row then Some(row[keys[i]]) else None)
  {
    seq(|keys|, i requires 0 <= i < |keys| => if keys[i] in row then Some(row[keys[i]]) else None)
  }

  function KeySet<V(==)>(rows: seq<Row<V>>, keys: seq<string>): set<Key<V>> {
    set i | 0 <= i < |rows| :: KeyOf(rows[i], keys)
  }

  /** The rows kept after scanning `rows`: a row is kept when no kept row has its key yet. */
  function Deduped<V(==)>(rows: seq<Row<V>>, keys: seq<string>): seq<Row<V>> {
    if |rows| == 0 then []
    else
      var kept := Deduped(rows[..|rows| - 1], keys);
      var last := rows[|rows| - 1];
      if KeyOf(last, keys) in KeySet(kept, keys) then kept else kept + [last]
  }

  predicate DistinctKeys<V(==)>(rows: seq<Row<V>>, keys: seq<string>) {
    forall i, j :: 0 <= i < j < |rows| ==> KeyOf(rows[i], keys) != KeyOf(rows[j], keys)
  }

  /** The first row of `rows` whose key is `k`. */
  function FirstWithKey<V(==)>(rows: seq<Row<V>>, keys: seq<string>, k: Key<V>): Row<V>
    requires k in KeySet(rows, keys)
  {
    if KeyOf(rows[0], keys) == k then rows[0]
    else
      assert k in KeySet(rows[1..], keys) by {
        var i :| 0 <= i < |rows| && KeyOf(rows[i], keys) == k;
        assert rows[1..][i - 1] == rows[i];
      }
      FirstWithKey(rows[1..], keys, k)
  }

  /** `dedupe_by_key(rows, keys)` */
  method DedupeByKey<V(==)>(rows: seq<Row<V>>, keys: seq<string>) returns (unique: seq<Row<V>>)
    ensures unique == Deduped(rows, keys)
  {
    var seen: set<Key<V>> := {};
    unique := [];
    var i := 0;
    while i < |rows|
      invariant 0 <= i <= |rows|
      invariant unique == Deduped(rows[..i], keys)
      invariant seen == KeySet(unique, keys)
    {
      var key := KeyOf(rows[i], keys);
      assert rows[..i + 1][..i] == rows[..i];
      if key !in seen {
        seen := seen + {key};
        unique := unique + [rows[i]];
        assert KeyOf(unique[|unique| - 1], keys) == key;
        assert KeySet(unique, keys) == KeySet(unique[..|unique| - 1], keys) + {key};
      }
      i := i + 1;
    }
    assert rows[..i] == rows;
  }

  /** The output keeps input rows in input order. */
  lemma {:induction false} DedupedIsSubsequence<V>(rows: seq<Row<V>>, keys: seq<string>)
    ensures IsSubsequence(Deduped(rows, keys), rows)
  {
    if |rows| > 0 {
      var init := rows[..|rows| - 1];
      var kept := Deduped(init, keys);
      DedupedIsSubsequence(init, keys);
      var out := Deduped(rows, keys);
      if out == kept {
        assert rows == init + [rows[|rows| - 1]];
        SubsequenceOfLonger(kept, init, rows[|rows| - 1]);
      } else {
        assert out == kept + [rows[|rows| - 1]];
        assert out[..|out| - 1] == kept;
      }
    }
  }

  /** No two output rows share the composite key. */
  lemma {:induction false} DedupedDistinct<V>(rows: seq<Row<V>>, keys: seq<string>)
    ensures DistinctKeys(Deduped(rows, keys), keys)
  {
    if |rows| > 0 {
      var init := rows[..|rows| - 1];
      var kept := Deduped(init, keys);
      DedupedDistinct(init, keys);
      var out := Deduped(rows, keys);
      if out != kept {
        forall i, j | 0 <= i < j < |out|
          ensures KeyOf(out[i], keys) != KeyOf(out[j], keys)
        {
          if j == |out| - 1 {
            assert KeyOf(out[i], keys) in KeySet(kept, keys) by {
              assert out[i] == kept[i];
            }
          } else {
            assert out[i] == kept[i] && out[j] == kept[j];
          }
        }
      }
    }
  }

  /** Every key of the input appears in the output, and no other. */
  lemma {:induction false} DedupedKeySet<V>(rows: seq<Row<V>>, keys: seq<string>)
    ensures KeySet(Deduped(rows, keys), keys) == KeySet(rows, keys)
  {
    if |rows| > 0 {
      var init := rows[..|rows| - 1];
      var last := rows[|rows| - 1];
      var kept := Deduped(init, keys);
      DedupedKeySet(init, keys);
      assert KeySet(rows, keys) == KeySet(init, keys) + {KeyOf(last, keys)} by {
        forall k | k in KeySet(rows, keys) ensures k in KeySet(init, keys) + {KeyOf(last, keys)} {
          var i :| 0 <= i < |rows| && KeyOf(rows[i], keys) == k;
          if i < |rows| - 1 { assert init[i] == rows[i]; }
        }
        forall k | k in KeySet(init, keys) ensures k in KeySet(rows, keys) {
          var i :| 0 <= i < |init| && KeyOf(init[i], keys) == k;
          assert rows[i] == init[i];
        }
      }
      var out := Deduped(rows, keys);
      if out != kept {
        assert out == kept + [last];
        assert KeySet(out, keys) == KeySet(kept, keys) + {KeyOf(last, keys)} by {
          forall k | k in KeySet(out, keys) ensures k in KeySet(kept, keys) + {KeyOf(last, keys)} {
            var i :| 0 <= i < |out| && KeyOf(out[i], keys) == k;
            if i < |kept| { assert out[i] == kept[i]; }
          }
          forall k | k in KeySet(kept, keys) ensures k in KeySet(out, keys) {
            var i :| 0 <= i < |kept| && KeyOf(kept[i], keys) == k;
            assert out[i] == kept[i];
          }
          assert out[|out| - 1] == last;
        }
      }
    }
  }

  lemma {:induction false} FirstWithKeyPrefix<V>(rows: seq<Row<V>>, keys: seq<string>, k: Key<V>)
    requires |rows| > 0 && k in KeySet(rows[..|rows| - 1], keys)
    ensures k in KeySet(rows, keys)
    ensures FirstWithKey(rows, keys, k) == FirstWithKey(rows[..|rows| - 1], keys, k)
  {
    var init := rows[..|rows| - 1];
    var i :| 0 <= i < |init| && KeyOf(init[i], keys) == k;
    assert rows[i] == init[i];
    assert init[0] == rows[0];
    if KeyOf(rows[0], keys) != k {
      assert rows[1..][..|rows| - 2] == init[1..];
      assert k in KeySet(init[1..], keys) by {
        assert init[1..][i - 1] == init[i];
      }
      FirstWithKeyPrefix(rows[1..], keys, k);
    }
  }

  lemma {:induction false} FirstWithKeyLast<V>(rows: seq<Row<V>>, keys: seq<string>)
    requires |rows| > 0
    requires KeyOf(rows[|rows| - 1], keys) !in KeySet(rows[..|rows| - 1], keys)
    ensures KeyOf(rows[|rows| - 1], keys) in KeySet(rows, keys)
    ensures FirstWithKey(rows, keys, KeyOf(rows[|rows| - 1], keys)) == rows[|rows| - 1]
  {
    var k := KeyOf(rows[|rows| - 1], keys);
    if |rows| > 1 {
      assert rows[..|rows| - 1][0] == rows[0];
      assert KeyOf(rows[0], keys) != k;
      var tail := rows[1..];
      assert tail[..|tail| - 1] == rows[1..|rows| - 1];
      var pre := tail[..|tail| - 1];
      forall i | 0 <= i < |pre|
        ensures KeyOf(pre[i], keys) != k
      {
        assert pre[i] == rows[..|rows| - 1][i + 1];
      }
      FirstWithKeyLast(tail, keys);
    }
  }

  /** Each output row is the first input row carrying its key. */
  lemma {:induction false} DedupedKeepsFirst<V>(rows: seq<Row<V>>, keys: seq<string>, j: int)
    requires 0 <= j < |Deduped(rows, keys)|
    ensures KeyOf(Deduped(rows, keys)[j], keys) in KeySet(rows, keys)
    ensures Deduped(rows, keys)[j] == FirstWithKey(rows, keys, KeyOf(Deduped(rows, keys)[j], keys))
  {
    var init := rows[..|rows| - 1];
    var last := rows[|rows| - 1];
    var kept := Deduped(init, keys);
    var out := Deduped(rows, keys);
    if j < |kept| {
      assert out[j] == kept[j];
      DedupedKeepsFirst(init, keys, j);
      FirstWithKeyPrefix(rows, keys, KeyOf(kept[j], keys));
    } else {
      assert out == kept + [last] && out[j] == last;
      DedupedKeySet(init, keys);
      FirstWithKeyLast(rows, keys);
    }
  }

  /** Dropping the last row keeps the keys distinct, and the last key is not among the others. */
  lemma DistinctInit<V>(rows: seq<Row<V>>, keys: seq<string>)
    requires |rows| > 0 && DistinctKeys(rows, keys)
    ensures DistinctKeys(rows[..|rows| - 1], keys)
    ensures KeyOf(rows[|rows| - 1], keys) !in KeySet(rows[..|rows| - 1], keys)
  {
    var init := rows[..|rows| - 1];
    forall i, j | 0 <= i < j < |init| ensures KeyOf(init[i], keys) != KeyOf(init[j], keys) {
      assert init[i] == rows[i] && init[j] == rows[j];
    }
    forall i | 0 <= i < |init| ensures KeyOf(init[i], keys) != KeyOf(rows[|rows| - 1], keys) {
      assert init[i] == rows[i];
    }
  }

  /** Rows whose keys are already distinct come back unchanged. */
  lemma {:induction false} DedupedOfDistinct<V>(rows: seq<Row<V>>, keys: seq<string>)
    requires DistinctKeys(rows, keys)
    ensures Deduped(rows, keys) == rows
  {
    if |rows| > 0 {
      var init := rows[..|rows| - 1];
      DistinctInit(rows, keys);
      DedupedOfDistinct(init, keys);
      DedupedKeepsNew(rows, keys);
      assert rows == init + [rows[|rows| - 1]];
    }
  }

  /** A last row with a key not kept so far is kept. */
  lemma DedupedKeepsNew<V>(rows: seq<Row<V>>, keys: seq<string>)
    requires |rows| > 0 && KeyOf(rows[|rows| - 1], keys) !in KeySet(Deduped(rows[..|rows| - 1], keys), keys)
    ensures Deduped(rows, keys) == Deduped(rows[..|rows| - 1], keys) + [rows[|rows| - 1]]
  {
  }

  /** Deduplicating twice is the same as once. */
  lemma DedupedIdempotent<V>(rows: seq<Row<V>>, keys: seq<string>)
    ensures Deduped(Deduped(rows, keys), keys) == Deduped(rows, keys)
  {
    DedupedDistinct(rows, keys);
    DedupedOfDistinct(Deduped(rows, keys), keys);
  }
}
