/**
 * Python's stable `list.sort(key=...)`, ascending and with `reverse=True`:
 * records with equal keys keep their input order either way. The key order
 * is a parameter (`LexLess` for string keys).
 */
module KeySort {
  import opened ValidationTypes

  /** `x` placed after every leading element whose key is not greater than its own. */
  function InsertAsc<T, K>(x: T, s: seq<T>, key: T -> K, less: (K, K) -> bool): (r: seq<T>)
    ensures |r| == |s| + 1
  {
    if |s| == 0 then [x]
    else if !less(key(x), key(s[0])) then [s[0]] + InsertAsc(x, s[1..], key, less)
    else [x] + s
  }

  /** `x` placed after every leading element whose key is not less than its own. */
  function InsertDesc<T, K>(x: T, s: seq<T>, key: T -> K, less: (K, K) -> bool): (r: seq<T>)
    ensures |r| == |s| + 1
  {
    if |s| == 0 then [x]
    else if !less(key(s[0]), key(x)) then [s[0]] + InsertDesc(x, s[1..], key, less)
    else [x] + s
  }

  /** `sorted(s, key=key)` */
  function SortAsc<T, K>(s: seq<T>, key: T -> K, less: (K, K) -> bool): (r: seq<T>)
    ensures |r| == |s|
  {
    if |s| == 0 then [] else InsertAsc(s[|s| - 1], SortAsc(s[..|s| - 1], key, less), key, less)
  }

  /** `sorted(s, key=key, reverse=True)` */
  function SortDesc<T, K>(s: seq<T>, key: T -> K, less: (K, K) -> bool): (r: seq<T>)
    ensures |r| == |s|
  {
    if |s| == 0 then [] else InsertDesc(s[|s| - 1], SortDesc(s[..|s| - 1], key, less), key, less)
  }

  predicate SortedAsc<T, K>(s: seq<T>, key: T -> K, less: (K, K) -> bool) {
    forall i, j :: 0 <= i < j < |s| ==> !less(key(s[j]), key(s[i]))
  }

  predicate SortedDesc<T, K>(s: seq<T>, key: T -> K, less: (K, K) -> bool) {
    forall i, j :: 0 <= i < j < |s| ==> !less(key(s[i]), key(s[j]))
  }

  /** Prepending `h` keeps the order when `h` sorts before every element of `t`. */
  lemma PrependSortedAsc<T, K>(h: T, t: seq<T>, key: T -> K, less: (K, K) -> bool)
    requires SortedAsc(t, key, less)
    requires forall j :: 0 <= j < |t| ==> !less(key(t[j]), key(h))
    ensures SortedAsc([h] + t, key, less)
  {
    var r := [h] + t;
    forall i, j | 0 <= i < j < |r| ensures !less(key(r[j]), key(r[i])) {
      assert r[j] == t[j - 1];
      if i > 0 {
        assert r[i] == t[i - 1];
      }
    }
  }

  lemma {:induction false} InsertAscSorted<T, K(!new)>(x: T, s: seq<T>, key: T -> K, less: (K, K) -> bool)
    requires StrictOrder(less)
    requires SortedAsc(s, key, less)
    ensures SortedAsc(InsertAsc(x, s, key, less), key, less)
    ensures multiset(InsertAsc(x, s, key, less)) == multiset(s) + multiset{x}
  {
    if |s| > 0 && !less(key(x), key(s[0])) {
      var t := InsertAsc(x, s[1..], key, less);
      InsertAscSorted(x, s[1..], key, less);
      forall j | 0 <= j < |t| ensures !less(key(t[j]), key(s[0])) {
        assert t[j] in multiset(s[1..]) + multiset{x};
        if t[j] != x {
          var k :| 0 <= k < |s[1..]| && s[1..][k] == t[j];
          assert s[k + 1] == t[j];
        }
      }
      PrependSortedAsc(s[0], t, key, less);
      assert s == [s[0]] + s[1..];
    } else if |s| > 0 {
      forall j | 0 <= j < |s| ensures !less(key(s[j]), key(x)) {
        if j > 0 {
          assert !less(key(s[j]), key(s[0]));
        }
      }
      PrependSortedAsc(x, s, key, less);
    }
  }

  /** Prepending `h` keeps the order when `h` sorts before every element of `t`. */
  lemma PrependSortedDesc<T, K>(h: T, t: seq<T>, key: T -> K, less: (K, K) -> bool)
    requires SortedDesc(t, key, less)
    requires forall j :: 0 <= j < |t| ==> !less(key(h), key(t[j]))
    ensures SortedDesc([h] + t, key, less)
  {
    var r := [h] + t;
    forall i, j | 0 <= i < j < |r| ensures !less(key(r[i]), key(r[j])) {
      assert r[j] == t[j - 1];
      if i > 0 {
        assert r[i] == t[i - 1];
      }
    }
  }

  lemma {:induction false} InsertDescSorted<T, K(!new)>(x: T, s: seq<T>, key: T -> K, less: (K, K) -> bool)
    requires StrictOrder(less)
    requires SortedDesc(s, key, less)
    ensures SortedDesc(InsertDesc(x, s, key, less), key, less)
    ensures multiset(InsertDesc(x, s, key, less)) == multiset(s) + multiset{x}
  {
    if |s| > 0 && !less(key(s[0]), key(x)) {
      var t := InsertDesc(x, s[1..], key, less);
      InsertDescSorted(x, s[1..], key, less);
      forall j | 0 <= j < |t| ensures !less(key(s[0]), key(t[j])) {
        assert t[j] in multiset(s[1..]) + multiset{x};
        if t[j] != x {
          var k :| 0 <= k < |s[1..]| && s[1..][k] == t[j];
          assert s[k + 1] == t[j];
        }
      }
      PrependSortedDesc(s[0], t, key, less);
      assert s == [s[0]] + s[1..];
    } else if |s| > 0 {
      forall j | 0 <= j < |s| ensures !less(key(x), key(s[j])) {
        if j > 0 {
          assert !less(key(s[0]), key(s[j]));
        }
      }
      PrependSortedDesc(x, s, key, less);
    }
  }

  lemma {:induction false} SortAscCorrect<T, K(!new)>(s: seq<T>, key: T -> K, less: (K, K) -> bool)
    requires StrictOrder(less)
    ensures SortedAsc(SortAsc(s, key, less), key, less)
    ensures multiset(SortAsc(s, key, less)) == multiset(s)
  {
    if |s| > 0 {
      SortAscCorrect(s[..|s| - 1], key, less);
      InsertAscSorted(s[|s| - 1], SortAsc(s[..|s| - 1], key, less), key, less);
      assert s == s[..|s| - 1] + [s[|s| - 1]];
    }
  }

  /** The descending sort returns its input, reordered, greatest key first. */
  lemma {:induction false} SortDescCorrect<T, K(!new)>(s: seq<T>, key: T -> K, less: (K, K) -> bool)
    requires StrictOrder(less)
    ensures SortedDesc(SortDesc(s, key, less), key, less)
    ensures multiset(SortDesc(s, key, less)) == multiset(s)
  {
    if |s| > 0 {
      SortDescCorrect(s[..|s| - 1], key, less);
      InsertDescSorted(s[|s| - 1], SortDesc(s[..|s| - 1], key, less), key, less);
      assert s == s[..|s| - 1] + [s[|s| - 1]];
    }
  }

  /** A prefix of a descending sequence is descending and drawn from it. */
  lemma TakeSortedDesc<T, K>(s: seq<T>, n: nat, key: T -> K, less: (K, K) -> bool)
    requires SortedDesc(s, key, less) && n <= |s|
    ensures SortedDesc(s[..n], key, less)
    ensures multiset(s[..n]) <= multiset(s)
    ensures forall x :: x in s[..n] ==> x in s
  {
    assert s == s[..n] + s[n..];
  }

  /** The elements of `s` whose key is `k`, in order. */
  function WithKey<T, K(==)>(s: seq<T>, key: T -> K, k: K): seq<T> {
    if |s| == 0 then []
    else WithKey(s[..|s| - 1], key, k) + (if key(s[|s| - 1]) == k then [s[|s| - 1]] else [])
  }

  lemma {:induction false} WithKeyAppend<T, K>(a: seq<T>, b: seq<T>, key: T -> K, k: K)
    ensures WithKey(a + b, key, k) == WithKey(a, key, k) + WithKey(b, key, k)
  {
    if |b| == 0 {
      assert a + b == a;
    } else {
      WithKeyAppend(a, b[..|b| - 1], key, k);
      assert (a + b)[..|a + b| - 1] == a + b[..|b| - 1];
    }
  }

  lemma {:induction false} WithKeyNone<T, K>(s: seq<T>, key: T -> K, k: K)
    requires forall j :: 0 <= j < |s| ==> key(s[j]) != k
    ensures WithKey(s, key, k) == []
  {
    if |s| > 0 {
      WithKeyNone(s[..|s| - 1], key, k);
    }
  }

  /** No element of an ascending list shares the key of one that sorts before its head. */
  lemma BelowAscHead<T, K(!new)>(x: T, s: seq<T>, key: T -> K, less: (K, K) -> bool)
    requires StrictOrder(less)
    requires SortedAsc(s, key, less) && |s| > 0 && less(key(x), key(s[0]))
    ensures forall j :: 0 <= j < |s| ==> key(s[j]) != key(x)
  {
    forall j | 0 <= j < |s| ensures key(s[j]) != key(x) {
      if j > 0 && key(s[j]) != key(s[0]) {
        assert less(key(s[0]), key(s[j]));
      }
    }
  }

  /** No element of a descending list shares the key of one that sorts after its head. */
  lemma AboveDescHead<T, K(!new)>(x: T, s: seq<T>, key: T -> K, less: (K, K) -> bool)
    requires StrictOrder(less)
    requires SortedDesc(s, key, less) && |s| > 0 && less(key(s[0]), key(x))
    ensures forall j :: 0 <= j < |s| ==> key(s[j]) != key(x)
  {
    forall j | 0 <= j < |s| ensures key(s[j]) != key(x) {
      if j > 0 && key(s[j]) != key(s[0]) {
        assert less(key(s[j]), key(s[0]));
      }
    }
  }

  /** `x` in front of a list none of whose keys is its own. */
  lemma WithKeyFront<T, K>(x: T, s: seq<T>, key: T -> K, k: K)
    requires forall j :: 0 <= j < |s| ==> key(s[j]) != key(x)
    ensures WithKey([x] + s, key, k) == WithKey(s, key, k) + WithKey([x], key, k)
  {
    WithKeyAppend([x], s, key, k);
    if key(x) == k {
      WithKeyNone(s, key, k);
    }
  }

  /** An element kept in front of a list whose keys gain `x` at the end. */
  lemma WithKeyHead<T, K>(h: T, t: seq<T>, t': seq<T>, x: T, key: T -> K, k: K)
    requires WithKey(t', key, k) == WithKey(t, key, k) + WithKey([x], key, k)
    ensures WithKey([h] + t', key, k) == WithKey([h] + t, key, k) + WithKey([x], key, k)
  {
    WithKeyAppend([h], t', key, k);
    WithKeyAppend([h], t, key, k);
  }

  /** Inserting `x` into a sorted list puts it after every element of its own key. */
  lemma {:induction false} InsertAscWithKey<T, K(!new)>(x: T, s: seq<T>, key: T -> K, less: (K, K) -> bool, k: K)
    requires StrictOrder(less)
    requires SortedAsc(s, key, less)
    ensures WithKey(InsertAsc(x, s, key, less), key, k) == WithKey(s, key, k) + WithKey([x], key, k)
  {
    if |s| == 0 {
      assert WithKey([x], key, k) == [] + WithKey([x], key, k);
    } else if !less(key(x), key(s[0])) {
      InsertAscWithKey(x, s[1..], key, less, k);
      WithKeyHead(s[0], s[1..], InsertAsc(x, s[1..], key, less), x, key, k);
      assert [s[0]] + s[1..] == s;
    } else {
      BelowAscHead(x, s, key, less);
      WithKeyFront(x, s, key, k);
    }
  }

  /** Inserting `x` into a sorted list puts it after every element of its own key. */
  lemma {:induction false} InsertDescWithKey<T, K(!new)>(x: T, s: seq<T>, key: T -> K, less: (K, K) -> bool, k: K)
    requires StrictOrder(less)
    requires SortedDesc(s, key, less)
    ensures WithKey(InsertDesc(x, s, key, less), key, k) == WithKey(s, key, k) + WithKey([x], key, k)
  {
    if |s| == 0 {
      assert WithKey([x], key, k) == [] + WithKey([x], key, k);
    } else if !less(key(s[0]), key(x)) {
      InsertDescWithKey(x, s[1..], key, less, k);
      WithKeyHead(s[0], s[1..], InsertDesc(x, s[1..], key, less), x, key, k);
      assert [s[0]] + s[1..] == s;
    } else {
      AboveDescHead(x, s, key, less);
      WithKeyFront(x, s, key, k);
    }
  }

  /** The ascending sort is stable: the elements of any one key keep their input order. */
  lemma {:induction false} SortAscStable<T, K(!new)>(s: seq<T>, key: T -> K, less: (K, K) -> bool, k: K)
    requires StrictOrder(less)
    ensures WithKey(SortAsc(s, key, less), key, k) == WithKey(s, key, k)
  {
    if |s| > 0 {
      var init := s[..|s| - 1];
      SortAscStable(init, key, less, k);
      SortAscCorrect(init, key, less);
      InsertAscWithKey(s[|s| - 1], SortAsc(init, key, less), key, less, k);
      assert [s[|s| - 1]][..0] == [];
    }
  }

  /** The descending sort is stable: the elements of any one key keep their input order. */
  lemma {:induction false} SortDescStable<T, K(!new)>(s: seq<T>, key: T -> K, less: (K, K) -> bool, k: K)
    requires StrictOrder(less)
    ensures WithKey(SortDesc(s, key, less), key, k) == WithKey(s, key, k)
  {
    if |s| > 0 {
      var init := s[..|s| - 1];
      SortDescStable(init, key, less, k);
      SortDescCorrect(init, key, less);
      InsertDescWithKey(s[|s| - 1], SortDesc(init, key, less), key, less, k);
      assert [s[|s| - 1]][..0] == [];
    }
  }

  /** What a prefix of a descending list leaves out sorts no higher than anything it keeps. */
  lemma TakeSortedDescCutoff<T, K>(s: seq<T>, n: nat, key: T -> K, less: (K, K) -> bool)
    requires SortedDesc(s, key, less) && n <= |s|
    ensures forall x, y :: x in s && x !in s[..n] && y in s[..n] ==> !less(key(y), key(x))
  {
    forall x, y | x in s && x !in s[..n] && y in s[..n] ensures !less(key(y), key(x)) {
      var j :| 0 <= j < |s| && s[j] == x;
      var i :| 0 <= i < n && s[..n][i] == y;
    }
  }

  /** The elements of one key in a prefix are the first ones of that key in the whole list. */
  lemma TakeWithKey<T, K>(s: seq<T>, n: nat, key: T -> K, k: K)
    requires n <= |s|
    ensures var listed := WithKey(s[..n], key, k);
      |listed| <= |WithKey(s, key, k)| && listed == WithKey(s, key, k)[..|listed|]
  {
    assert s == s[..n] + s[n..];
    WithKeyAppend(s[..n], s[n..], key, k);
  }
}
