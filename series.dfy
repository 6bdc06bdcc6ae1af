/** Sums and comparisons of adjacent entries over number series. */
module Series {

  /** Python's `sum(s)`. */
  function Sum(s: seq<int>): int {
    if s == [] then 0 else Sum(s[..|s| - 1]) + s[|s| - 1]
  }

  lemma {:induction false} SumAppend(a: seq<int>, b: seq<int>)
    ensures Sum(a + b) == Sum(a) + Sum(b)
  {
    if b == [] {
      assert a + b == a;
    } else {
      assert (a + b)[..|a + b| - 1] == a + b[..|b| - 1];
      SumAppend(a, b[..|b| - 1]);
    }
  }

  /** A sum does not depend on the order of its terms. */
  lemma {:induction false} SumPermutation(a: seq<int>, b: seq<int>)
    requires multiset(a) == multiset(b)
    ensures Sum(a) == Sum(b)
    decreases |a|
  {
    if a != [] {
      var x := a[|a| - 1];
      assert a == a[..|a| - 1] + [x];
      assert x in multiset(b);
      var k :| 0 <= k < |b| && b[k] == x;
      var rest := b[..k] + b[k + 1..];
      assert b == b[..k] + [x] + b[k + 1..];
      assert multiset(b) == multiset(b[..k]) + multiset{x} + multiset(b[k + 1..]);
      assert multiset(b) == multiset(rest) + multiset{x};
      assert multiset(a) == multiset(a[..|a| - 1]) + multiset{x};
      var ma, mr := multiset(a[..|a| - 1]), multiset(rest);
      forall y ensures ma[y] == mr[y] {
        assert (ma + multiset{x})[y] == (mr + multiset{x})[y];
      }
      assert ma == mr;
      SumPermutation(a[..|a| - 1], rest);
      SumAppend(b[..k] + [x], b[k + 1..]);
      SumAppend(b[..k], [x]);
      SumAppend(b[..k], b[k + 1..]);
    }
  }

  /** Entry `i` tells whether entry `i + 1` of `s` is strictly greater than entry `i`. */
  function Rises(s: seq<int>): (bs: seq<bool>)
    ensures |s| >= 1 ==> |bs| == |s| - 1
    ensures |s| < 1 ==> bs == []
    ensures forall i :: 0 <= i < |bs| ==> (bs[i] <==> s[i] < s[i + 1])
  {
    if |s| < 2 then [] else seq(|s| - 1, i requires 0 <= i < |s| - 1 => s[i] < s[i + 1])
  }

  /** No entry is smaller than one after it. */
  predicate NonIncreasing(s: seq<int>) {
    forall i, j :: 0 <= i < j < |s| ==> s[i] >= s[j]
  }

  /** A sequence that never increases has no rise anywhere. */
  lemma NonIncreasingNoRises(s: seq<int>)
    requires NonIncreasing(s)
    ensures forall j :: 0 <= j < |Rises(s)| ==> !Rises(s)[j]
  {
    var bs := Rises(s);
    forall j | 0 <= j < |bs| ensures !bs[j] {
      assert s[j] >= s[j + 1];
    }
  }

  /** One numeric column of a sequence of records, `[f(x) for x in s]`. */
  function Project<T>(s: seq<T>, f: T -> int): (r: seq<int>)
    ensures |r| == |s|
  {
    if s == [] then [] else Project(s[..|s| - 1], f) + [f(s[|s| - 1])]
  }

  lemma {:induction false} ProjectAt<T>(s: seq<T>, f: T -> int)
    ensures forall i :: 0 <= i < |s| ==> Project(s, f)[i] == f(s[i])
  {
    if s != [] {
      ProjectAt(s[..|s| - 1], f);
    }
  }

  lemma {:induction false} ProjectAppend<T>(a: seq<T>, b: seq<T>, f: T -> int)
    ensures Project(a + b, f) == Project(a, f) + Project(b, f)
  {
    if b != [] {
      var b' := b[..|b| - 1];
      assert (a + b)[..|a + b| - 1] == a + b';
      ProjectAppend(a, b', f);
    } else {
      assert a + b == a;
    }
  }

  /** Taking the last entry of `a` and one equal entry of `b` out of two permutations leaves two permutations. */
  lemma RemoveMatching<T>(a: seq<T>, b: seq<T>, k: int)
    requires a != [] && multiset(a) == multiset(b) && 0 <= k < |b| && b[k] == a[|a| - 1]
    ensures multiset(a[..|a| - 1]) == multiset(b[..k] + b[k + 1..])
  {
    var x := a[|a| - 1];
    var a', rest := a[..|a| - 1], b[..k] + b[k + 1..];
    assert a == a' + [x];
    assert b == b[..k] + [x] + b[k + 1..];
    assert multiset(b) == multiset(rest) + multiset{x};
    assert multiset(a) == multiset(a') + multiset{x};
    var ma, mr := multiset(a'), multiset(rest);
    forall y ensures ma[y] == mr[y] {
      assert (ma + multiset{x})[y] == (mr + multiset{x})[y];
    }
  }

  lemma ProjectSplice<T>(left: seq<T>, x: T, right: seq<T>, f: T -> int)
    ensures multiset(Project(left + [x] + right, f)) == multiset(Project(left + right, f)) + multiset{f(x)}
  {
    ProjectAppend(left + [x], right, f);
    ProjectAppend(left, [x], f);
    ProjectAppend(left, right, f);
    assert Project([x], f) == [f(x)];
  }

  /** Reordering records reorders each of their columns the same way. */
  lemma {:induction false} ProjectPermutation<T>(a: seq<T>, b: seq<T>, f: T -> int)
    requires multiset(a) == multiset(b)
    ensures multiset(Project(a, f)) == multiset(Project(b, f))
    decreases |a|
  {
    if a != [] {
      var x := a[|a| - 1];
      assert x in multiset(b);
      var k :| 0 <= k < |b| && b[k] == x;
      RemoveMatching(a, b, k);
      var left, right := b[..k], b[k + 1..];
      ProjectPermutation(a[..|a| - 1], left + right, f);
      assert b == left + [x] + right;
      ProjectSplice(left, x, right, f);
    }
  }

  /** The largest entry of a non-empty list, Python's `max(s)`. */
  function MaxOf(s: seq<int>): (m: int)
    requires s != []
    ensures (forall i :: 0 <= i < |s| ==> s[i] <= m) && exists i :: 0 <= i < |s| && s[i] == m
  {
    if |s| == 1 then s[0]
    else
      var m := MaxOf(s[..|s| - 1]);
      assert forall i :: 0 <= i < |s| - 1 ==> s[..|s| - 1][i] == s[i];
      if s[|s| - 1] > m then s[|s| - 1] else m
  }
}
