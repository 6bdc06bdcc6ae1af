/**
 * Python's `list.sort(key=...)`: a stable sort. Every sort in the game
 * is this one, with the key written as a sequence of numbers compared
 * lexicographically (a number, a string's code points, or a tuple of
 * those). `reverse=True` on a numeric key is the ascending sort on the
 * negated key, which keeps equal elements in their original order just as
 * Python does.
 */
module Sorting {
  import opened Text

  /** No later element has a smaller key than an earlier one. */
  predicate SortedBy<T>(s: seq<T>, key: T -> seq<int>) {
    forall i, j :: 0 <= i < j < |s| ==> !LexLess(key(s[j]), key(s[i]))
  }

  /** The elements of `s` whose key is `k`, in the order of `s`. */
  function KeyFilter<T>(s: seq<T>, key: T -> seq<int>, k: seq<int>): seq<T> {
    if s == [] then []
    else (if key(s[0]) == k then [s[0]] else []) + KeyFilter(s[1..], key, k)
  }

  /** Puts `x` in front of the first element whose key is not smaller than its own. */
  function InsertFront<T>(x: T, s: seq<T>, key: T -> seq<int>): (r: seq<T>)
    ensures multiset(r) == multiset(s) + multiset{x}
    ensures |r| == |s| + 1
  {
    if s == [] then [x]
    else if LexLess(key(s[0]), key(x)) then
      assert s == [s[0]] + s[1..];
      [s[0]] + InsertFront(x, s[1..], key)
    else [x] + s
  }

  /** The stable sort of `s` by `key`, ascending. */
  function SortByKey<T>(s: seq<T>, key: T -> seq<int>): (r: seq<T>)
    ensures multiset(r) == multiset(s)
    ensures |r| == |s|
  {
    if s == [] then []
    else
      assert s == [s[0]] + s[1..];
      InsertFront(s[0], SortByKey(s[1..], key), key)
  }

  lemma KeyLeTransitive(a: seq<int>, b: seq<int>, c: seq<int>)
    requires !LexLess(b, a) && !LexLess(c, b)
    ensures !LexLess(c, a)
  {
    LexLessTotal(a, b);
    if LexLess(c, a) {
      if a != b {
        LexLessTransitive(c, a, b);
      }
    }
  }

  lemma {:induction false} InsertFrontSorted<T>(x: T, s: seq<T>, key: T -> seq<int>)
    requires SortedBy(s, key)
    ensures SortedBy(InsertFront(x, s, key), key)
  {
    var r := InsertFront(x, s, key);
    if s == [] {
    } else if LexLess(key(s[0]), key(x)) {
      var t := InsertFront(x, s[1..], key);
      InsertFrontSorted(x, s[1..], key);
      forall j | 0 <= j < |t| ensures !LexLess(key(t[j]), key(s[0])) {
        assert t[j] in multiset(t);
        if t[j] == x {
          if LexLess(key(x), key(s[0])) {
            LexLessTransitive(key(s[0]), key(x), key(s[0]));
            LexLessIrreflexive(key(s[0]));
          }
        } else {
          assert t[j] in multiset(s[1..]);
          var m :| 0 <= m < |s[1..]| && s[1..][m] == t[j];
          assert s[m + 1] == t[j];
        }
      }
      assert r == [s[0]] + t;
    } else {
      forall j | 0 <= j < |s| ensures !LexLess(key(s[j]), key(x)) {
        if j > 0 {
          KeyLeTransitive(key(x), key(s[0]), key(s[j]));
        }
      }
    }
  }

  /** The result of the sort is in key order. */
  lemma {:induction false} SortByKeySorted<T>(s: seq<T>, key: T -> seq<int>)
    ensures SortedBy(SortByKey(s, key), key)
  {
    if s != [] {
      SortByKeySorted(s[1..], key);
      InsertFrontSorted(s[0], SortByKey(s[1..], key), key);
    }
  }

  lemma KeyFilterCons<T>(x: T, s: seq<T>, key: T -> seq<int>, k: seq<int>)
    ensures KeyFilter([x] + s, key, k) == (if key(x) == k then [x] else []) + KeyFilter(s, key, k)
  {
    assert ([x] + s)[1..] == s;
  }

  lemma {:induction false} InsertFrontFilter<T>(x: T, s: seq<T>, key: T -> seq<int>, k: seq<int>)
    ensures KeyFilter(InsertFront(x, s, key), key, k)
         == (if key(x) == k then [x] else []) + KeyFilter(s, key, k)
  {
    if s == [] {
      KeyFilterCons(x, s, key, k);
    } else if LexLess(key(s[0]), key(x)) {
      InsertFrontFilter(x, s[1..], key, k);
      InsertFrontFilterSkip(x, s, key, k);
    } else {
      KeyFilterCons(x, s, key, k);
    }
  }

  /** The step of `InsertFrontFilter` where `x` passes the smaller first element. */
  lemma InsertFrontFilterSkip<T>(x: T, s: seq<T>, key: T -> seq<int>, k: seq<int>)
    requires s != [] && LexLess(key(s[0]), key(x))
    requires KeyFilter(InsertFront(x, s[1..], key), key, k)
          == (if key(x) == k then [x] else []) + KeyFilter(s[1..], key, k)
    ensures KeyFilter(InsertFront(x, s, key), key, k)
         == (if key(x) == k then [x] else []) + KeyFilter(s, key, k)
  {
    var y, rest := s[0], s[1..];
    var ins := InsertFront(x, rest, key);
    assert InsertFront(x, s, key) == [y] + ins;
    KeyFilterCons(y, ins, key, k);
    assert [y] + rest == s;
    KeyFilterCons(y, rest, key, k);
    if key(x) == k {
      LexLessIrreflexive(k);
    }
    SkipArrange(if key(x) == k then [x] else [], if key(y) == k then [y] else [],
      KeyFilter(ins, key, k), KeyFilter(rest, key, k));
  }

  /** The list algebra of the skip step: `fy` and `fx` cannot both be non-empty. */
  lemma SkipArrange<T>(fx: seq<T>, fy: seq<T>, a: seq<T>, b: seq<T>)
    requires a == fx + b && (fx == [] || fy == [])
    ensures fy + a == fx + (fy + b)
  {
    if fx == [] {
      assert a == b;
    } else {
      assert fy + a == a;
      assert fy + b == b;
    }
  }

  /** Stability: the elements sharing one key keep their original order. */
  lemma {:induction false} SortByKeyStable<T>(s: seq<T>, key: T -> seq<int>, k: seq<int>)
    ensures KeyFilter(SortByKey(s, key), key, k) == KeyFilter(s, key, k)
  {
    if s != [] {
      SortByKeyStable(s[1..], key, k);
      InsertFrontFilter(s[0], SortByKey(s[1..], key), key, k);
    }
  }

  /** Sorting a list that is already in order leaves it as it is. */
  lemma {:induction false} SortedFixed<T>(s: seq<T>, key: T -> seq<int>)
    requires SortedBy(s, key)
    ensures SortByKey(s, key) == s
  {
    if s != [] {
      assert SortedBy(s[1..], key) by {
        forall i, j | 0 <= i < j < |s[1..]| ensures !LexLess(key(s[1..][j]), key(s[1..][i])) {
          assert s[1..][j] == s[j + 1] && s[1..][i] == s[i + 1];
        }
      }
      SortedFixed(s[1..], key);
      if |s| > 1 {
        assert s[1..][0] == s[1];
      }
      assert [s[0]] + s[1..] == s;
    }
  }
}
