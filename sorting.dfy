/**
 * Python's `list.sort(key=..., reverse=True)` on date keys: a stable sort,
 * newest first, where records with equal keys keep their input order.
 */
module DateSort {
  import opened Calendar
  import KeySort
  import ValidationTypes

  /** Insert `x` behind every element whose key is not older than its own. */
  function InsertDesc<T>(x: T, s: seq<T>, key: T -> Date): (r: seq<T>)
    ensures |r| == |s| + 1
  {
    if |s| == 0 then [x]
    else if !Before(key(s[0]), key(x)) then [s[0]] + InsertDesc(x, s[1..], key)
    else [x] + s
  }

  function SortDesc<T>(s: seq<T>, key: T -> Date): (r: seq<T>)
    ensures |r| == |s|
  {
    if |s| == 0 then [] else InsertDesc(s[|s| - 1], SortDesc(s[..|s| - 1], key), key)
  }

  predicate SortedDesc<T>(s: seq<T>, key: T -> Date) {
    forall i, j :: 0 <= i < j < |s| ==> AtOrBefore(key(s[j]), key(s[i]))
  }

  /** Prepending `h` keeps the order when no element of `t` is newer than `h`. */
  lemma PrependSortedDesc<T>(h: T, t: seq<T>, key: T -> Date)
    requires SortedDesc(t, key)
    requires forall j :: 0 <= j < |t| ==> AtOrBefore(key(t[j]), key(h))
    ensures SortedDesc([h] + t, key)
  {
    var r := [h] + t;
    forall i, j | 0 <= i < j < |r| ensures AtOrBefore(key(r[j]), key(r[i])) {
      assert r[j] == t[j - 1];
      if i > 0 {
        assert r[i] == t[i - 1];
      }
    }
  }

  lemma {:induction false} InsertDescSorted<T>(x: T, s: seq<T>, key: T -> Date)
    requires SortedDesc(s, key)
    ensures SortedDesc(InsertDesc(x, s, key), key)
    ensures multiset(InsertDesc(x, s, key)) == multiset(s) + multiset{x}
  {
    if |s| > 0 && !Before(key(s[0]), key(x)) {
      var t := InsertDesc(x, s[1..], key);
      InsertDescSorted(x, s[1..], key);
      forall j | 0 <= j < |t| ensures AtOrBefore(key(t[j]), key(s[0])) {
        assert t[j] in multiset(s[1..]) + multiset{x};
        if t[j] != x {
          var k :| 0 <= k < |s[1..]| && s[1..][k] == t[j];
          assert s[k + 1] == t[j];
        }
      }
      PrependSortedDesc(s[0], t, key);
      assert s == [s[0]] + s[1..];
    } else if |s| > 0 {
      forall j | 0 <= j < |s| ensures AtOrBefore(key(s[j]), key(x)) {
        if j > 0 {
          assert AtOrBefore(key(s[j]), key(s[0]));
        }
      }
      PrependSortedDesc(x, s, key);
    }
  }

  /** Date order is a strict total order. */
  lemma BeforeStrictOrder()
    ensures ValidationTypes.StrictOrder(Before)
  {
    forall a: Date, b: Date, c: Date | Before(a, b) && Before(b, c) ensures Before(a, c) {
    }
    forall a: Date, b: Date | a != b ensures Before(a, b) || Before(b, a) {
    }
  }

  /** Inserting by date is the general descending insertion with `Before` as the order. */
  lemma {:induction false} InsertDescIsKeySort<T>(x: T, s: seq<T>, key: T -> Date)
    ensures InsertDesc(x, s, key) == KeySort.InsertDesc(x, s, key, Before)
  {
    if |s| > 0 && !Before(key(s[0]), key(x)) {
      InsertDescIsKeySort(x, s[1..], key);
    }
  }

  /** Sorting by date is the general descending sort with `Before` as the order. */
  lemma {:induction false} SortDescIsKeySort<T>(s: seq<T>, key: T -> Date)
    ensures SortDesc(s, key) == KeySort.SortDesc(s, key, Before)
  {
    if |s| > 0 {
      SortDescIsKeySort(s[..|s| - 1], key);
      InsertDescIsKeySort(s[|s| - 1], SortDesc(s[..|s| - 1], key), key);
    }
  }

  /** The sort is stable: the records of any one date keep their input order. */
  lemma SortDescStable<T>(s: seq<T>, key: T -> Date, d: Date)
    ensures KeySort.WithKey(SortDesc(s, key), key, d) == KeySort.WithKey(s, key, d)
  {
    SortDescIsKeySort(s, key);
    BeforeStrictOrder();
    KeySort.SortDescStable(s, key, Before, d);
  }

  /** The sort returns its input, reordered, newest first. */
  lemma {:induction false} SortDescCorrect<T>(s: seq<T>, key: T -> Date)
    ensures SortedDesc(SortDesc(s, key), key)
    ensures multiset(SortDesc(s, key)) == multiset(s)
  {
    if |s| > 0 {
      var init, x := s[..|s| - 1], s[|s| - 1];
      SortDescCorrect(init, key);
      InsertDescSorted(x, SortDesc(init, key), key);
      assert SortDesc(s, key) == InsertDesc(x, SortDesc(init, key), key);
      assert s == init + [x];
      assert multiset(s) == multiset(init) + multiset{x};
    }
  }
}
