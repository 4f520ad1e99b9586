/** Python's `sorted(..., key=k, reverse=True)` and `list.sort(key=k, reverse=True)`:
    a stable sort into descending key order. Python's library sort is not part of
    this model; it is specified here by a stable insertion sort, and the lemmas
    show that the result is ordered, is a permutation of the input and keeps the
    input order among elements whose keys are equal. */
module Sorting {
  import opened Common

  /** Inserting `x` into a descending sequence, in front of the first element whose
      key is not larger than `x`'s: `x` comes after all elements with a larger key. */
  function InsertDesc<T>(x: T, s: seq<T>, key: T -> real): (r: seq<T>)
    ensures |r| == |s| + 1
    decreases |s|
  {
    if |s| == 0 then [x]
    else if key(x) >= key(s[0]) then [x] + s
    else [s[0]] + InsertDesc(x, s[1..], key)
  }

  function SortDesc<T>(s: seq<T>, key: T -> real): (r: seq<T>)
    ensures |r| == |s|
    decreases |s|
  {
    if |s| == 0 then [] else InsertDesc(s[0], SortDesc(s[1..], key), key)
  }

  ghost predicate Descending<T>(s: seq<T>, key: T -> real) {
    forall i, j :: 0 <= i < j < |s| ==> key(s[i]) >= key(s[j])
  }

  lemma DescendingPrefix<T>(s: seq<T>, n: nat, key: T -> real)
    requires n <= |s| && Descending(s, key)
    ensures Descending(s[..n], key)
  {
    forall i, j | 0 <= i < j < n ensures key(s[..n][i]) >= key(s[..n][j]) {
      assert s[..n][i] == s[i] && s[..n][j] == s[j];
    }
  }

  /** Appending an element no larger than any already there keeps the order. */
  lemma DescendingSnoc<T>(s: seq<T>, x: T, key: T -> real)
    requires Descending(s, key)
    requires forall y :: y in s ==> key(y) >= key(x)
    ensures Descending(s + [x], key)
  {
    var r := s + [x];
    forall i, j | 0 <= i < j < |r| ensures key(r[i]) >= key(r[j]) {
      assert r[i] == s[i];
      if j < |s| {
        assert r[j] == s[j];
      }
    }
  }

  /** The elements of `s` whose key is exactly `v`, in their order in `s`. */
  function WithKey<T>(s: seq<T>, key: T -> real, v: real): seq<T>
    decreases |s|
  {
    if |s| == 0 then []
    else (if key(s[0]) == v then [s[0]] else []) + WithKey(s[1..], key, v)
  }

  /** No element rises above a bound that `x` and all of `s` respect. */
  lemma {:induction false} InsertDescBounded<T>(x: T, s: seq<T>, key: T -> real, b: real)
    requires key(x) <= b
    requires forall k :: 0 <= k < |s| ==> key(s[k]) <= b
    ensures forall k :: 0 <= k < |InsertDesc(x, s, key)| ==> key(InsertDesc(x, s, key)[k]) <= b
    decreases |s|
  {
    if |s| > 0 && key(x) < key(s[0]) {
      InsertDescBounded(x, s[1..], key, b);
    }
  }

  lemma {:induction false} InsertDescSorted<T>(x: T, s: seq<T>, key: T -> real)
    requires Descending(s, key)
    ensures Descending(InsertDesc(x, s, key), key)
    decreases |s|
  {
    if |s| == 0 {
    } else if key(x) >= key(s[0]) {
      var r := [x] + s;
      forall i, j | 0 <= i < j < |r| ensures key(r[i]) >= key(r[j]) {
        if i > 0 { assert r[i] == s[i - 1] && r[j] == s[j - 1]; }
        else { assert r[j] == s[j - 1]; }
      }
    } else {
      InsertDescSorted(x, s[1..], key);
      InsertDescBounded(x, s[1..], key, key(s[0]));
      var t := InsertDesc(x, s[1..], key);
      var r := [s[0]] + t;
      forall i, j | 0 <= i < j < |r| ensures key(r[i]) >= key(r[j]) {
        assert r[j] == t[j - 1];
        if i > 0 { assert r[i] == t[i - 1]; }
      }
    }
  }

  lemma {:induction false} InsertDescMultiset<T>(x: T, s: seq<T>, key: T -> real)
    ensures multiset(InsertDesc(x, s, key)) == multiset(s) + multiset{x}
    decreases |s|
  {
    if |s| > 0 && key(x) < key(s[0]) {
      InsertDescMultiset(x, s[1..], key);
      assert s == [s[0]] + s[1..];
    }
  }

  lemma {:induction false} SortDescSorted<T>(s: seq<T>, key: T -> real)
    ensures Descending(SortDesc(s, key), key)
    decreases |s|
  {
    if |s| > 0 {
      SortDescSorted(s[1..], key);
      InsertDescSorted(s[0], SortDesc(s[1..], key), key);
    }
  }

  lemma {:induction false} SortDescMultiset<T>(s: seq<T>, key: T -> real)
    ensures multiset(SortDesc(s, key)) == multiset(s)
    decreases |s|
  {
    if |s| > 0 {
      var t := SortDesc(s[1..], key);
      SortDescMultiset(s[1..], key);
      InsertDescMultiset(s[0], t, key);
      calc {
        multiset(s);
        { assert s == [s[0]] + s[1..]; }
        multiset([s[0]]) + multiset(s[1..]);
        multiset(t) + multiset{s[0]};
      }
    }
  }

  /** The sort orders its input and is a permutation of it. */
  lemma SortDescFacts<T>(s: seq<T>, key: T -> real)
    ensures Descending(SortDesc(s, key), key)
    ensures multiset(SortDesc(s, key)) == multiset(s)
  {
    SortDescSorted(s, key);
    SortDescMultiset(s, key);
  }

  lemma DescendingTail<T>(s: seq<T>, key: T -> real)
    requires |s| > 0 && Descending(s, key)
    ensures Descending(s[1..], key)
  {
    forall i, j | 0 <= i < j < |s[1..]| ensures key(s[1..][i]) >= key(s[1..][j]) {
      assert s[1..][i] == s[i + 1] && s[1..][j] == s[j + 1];
    }
  }

  lemma WithKeyCons<T>(x: T, s: seq<T>, key: T -> real, v: real)
    ensures WithKey([x] + s, key, v) == (if key(x) == v then [x] else []) + WithKey(s, key, v)
  {
    assert ([x] + s)[1..] == s;
  }

  /** Inserting keeps the order of the elements of each key, with `x` first among its own. */
  lemma {:induction false} InsertDescStable<T>(x: T, s: seq<T>, key: T -> real, v: real)
    requires Descending(s, key)
    ensures WithKey(InsertDesc(x, s, key), key, v)
         == (if key(x) == v then [x] else []) + WithKey(s, key, v)
    decreases |s|
  {
    if |s| == 0 {
    } else if key(x) >= key(s[0]) {
      WithKeyCons(x, s, key, v);
    } else {
      DescendingTail(s, key);
      InsertDescStable(x, s[1..], key, v);
      var t := InsertDesc(x, s[1..], key);
      WithKeyCons(s[0], t, key, v);
      assert s == [s[0]] + s[1..];
      WithKeyCons(s[0], s[1..], key, v);
      var a: seq<T> := if key(s[0]) == v then [s[0]] else [];
      var b: seq<T> := if key(x) == v then [x] else [];
      assert a == [] || b == [];
      assert WithKey(InsertDesc(x, s, key), key, v) == a + (b + WithKey(s[1..], key, v));
      assert WithKey(s, key, v) == a + WithKey(s[1..], key, v);
    }
  }

  /** The sort is stable: among elements of equal key, input order is kept. */
  lemma {:induction false} SortDescStable<T>(s: seq<T>, key: T -> real, v: real)
    ensures WithKey(SortDesc(s, key), key, v) == WithKey(s, key, v)
    decreases |s|
  {
    if |s| > 0 {
      SortDescFacts(s[1..], key);
      SortDescStable(s[1..], key, v);
      InsertDescStable(s[0], SortDesc(s[1..], key), key, v);
    }
  }

  /** A permutation has the same sum (stated for the sort, on reals keyed by themselves). */
  lemma {:induction false} SortDescSum(s: seq<real>, key: real -> real)
    ensures SumOf(SortDesc(s, key)) == SumOf(s)
    decreases |s|
  {
    if |s| > 0 {
      SortDescSum(s[1..], key);
      InsertDescSum(s[0], SortDesc(s[1..], key), key);
      assert s == [s[0]] + s[1..];
      SumOfCons(s[0], s[1..]);
    }
  }

  lemma {:induction false} InsertDescSum(x: real, s: seq<real>, key: real -> real)
    ensures SumOf(InsertDesc(x, s, key)) == x + SumOf(s)
    decreases |s|
  {
    if |s| == 0 {
      assert SumOf([x]) == SumOf([x][..0]) + x;
    } else if key(x) >= key(s[0]) {
      SumOfCons(x, s);
    } else {
      InsertDescSum(x, s[1..], key);
      SumOfCons(s[0], InsertDesc(x, s[1..], key));
      assert s == [s[0]] + s[1..];
      SumOfCons(s[0], s[1..]);
    }
  }

  /** Elements of a permutation are elements of the original. */
  lemma SortDescMember<T>(s: seq<T>, key: T -> real, k: nat)
    requires k < |s|
    ensures SortDesc(s, key)[k] in s
  {
    SortDescFacts(s, key);
    assert SortDesc(s, key)[k] in multiset(SortDesc(s, key));
  }

  lemma SortDescContains<T>(s: seq<T>, key: T -> real, x: T)
    requires x in s
    ensures x in SortDesc(s, key)
  {
    SortDescFacts(s, key);
    assert x in multiset(s);
  }
  /** `f` tells the elements of `s` apart. */
  ghost predicate Injective<T, U>(s: seq<T>, f: T -> U) {
    forall a, b :: 0 <= a < b < |s| ==> f(s[a]) != f(s[b])
  }

  lemma {:induction false} InsertDescInjective<T, U>(x: T, s: seq<T>, key: T -> real, f: T -> U)
    requires Injective(s, f) && forall y :: y in s ==> f(y) != f(x)
    ensures Injective(InsertDesc(x, s, key), f)
    decreases |s|
  {
    if |s| == 0 {
    } else if key(x) >= key(s[0]) {
      var r := [x] + s;
      forall a, b | 0 <= a < b < |r| ensures f(r[a]) != f(r[b]) {
        assert r[b] == s[b - 1];
        if a > 0 { assert r[a] == s[a - 1]; }
      }
    } else {
      assert forall y :: y in s[1..] ==> y in s;
      assert Injective(s[1..], f) by {
        forall a, b | 0 <= a < b < |s[1..]| ensures f(s[1..][a]) != f(s[1..][b]) {
          assert s[1..][a] == s[a + 1] && s[1..][b] == s[b + 1];
        }
      }
      InsertDescInjective(x, s[1..], key, f);
      var t := InsertDesc(x, s[1..], key);
      InsertDescMultiset(x, s[1..], key);
      var r := [s[0]] + t;
      forall a, b | 0 <= a < b < |r| ensures f(r[a]) != f(r[b]) {
        assert r[b] == t[b - 1];
        if a > 0 {
          assert r[a] == t[a - 1];
        } else {
          assert t[b - 1] in multiset(t);
          if t[b - 1] != x {
            var m :| 0 <= m < |s[1..]| && s[1..][m] == t[b - 1];
            assert s[m + 1] == t[b - 1];
          }
        }
      }
    }
  }

  /** Sorting keeps elements apart that were apart. */
  lemma {:induction false} SortDescInjective<T, U>(s: seq<T>, key: T -> real, f: T -> U)
    requires Injective(s, f)
    ensures Injective(SortDesc(s, key), f)
    decreases |s|
  {
    if |s| > 0 {
      assert Injective(s[1..], f) by {
        forall a, b | 0 <= a < b < |s[1..]| ensures f(s[1..][a]) != f(s[1..][b]) {
          assert s[1..][a] == s[a + 1] && s[1..][b] == s[b + 1];
        }
      }
      SortDescInjective(s[1..], key, f);
      SortDescFacts(s[1..], key);
      forall y | y in SortDesc(s[1..], key) ensures f(y) != f(s[0]) {
        assert y in multiset(SortDesc(s[1..], key));
        var m :| 0 <= m < |s[1..]| && s[1..][m] == y;
        assert s[m + 1] == y;
      }
      InsertDescInjective(s[0], SortDesc(s[1..], key), key, f);
    }
  }
}
