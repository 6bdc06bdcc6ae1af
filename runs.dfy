/**
 * The longest run of consecutive `true`s in a sequence of flags. Both
 * streak counters of the game (consecutive score growth and the streak of
 * positive growth rates) compute this with the same scan: a current run
 * that a `false` resets, and the best run seen so far.
 */
module Runs {

  /** `bs[lo..hi]` lies inside `bs` and holds only `true`. */
  predicate AllTrue(bs: seq<bool>, lo: int, hi: int) {
    0 <= lo <= hi <= |bs| && forall j :: lo <= j < hi ==> bs[j]
  }

  /** A run of `n` flags starting at `lo`, all `true`. */
  predicate RunAt(bs: seq<bool>, lo: int, n: int) {
    AllTrue(bs, lo, lo + n)
  }

  /** `n` is the length of a longest run of `true`s in `bs`. */
  ghost predicate IsLongestRun(bs: seq<bool>, n: int) {
    (exists lo :: RunAt(bs, lo, n)) &&
    forall lo, hi :: AllTrue(bs, lo, hi) ==> hi - lo <= n
  }

  /** There is only one longest length. */
  lemma LongestRunUnique(bs: seq<bool>, a: int, b: int)
    requires IsLongestRun(bs, a) && IsLongestRun(bs, b)
    ensures a == b
  {
    var la :| RunAt(bs, la, a);
    var lb :| RunAt(bs, lb, b);
  }

  /** Without any `true` the longest run is empty. */
  lemma NoTrueNoRun(bs: seq<bool>, n: int)
    requires forall j :: 0 <= j < |bs| ==> !bs[j]
    requires IsLongestRun(bs, n)
    ensures n == 0
  {
    var lo :| RunAt(bs, lo, n);
    RunStart(bs, lo, n);
  }

  /** A run of `true`s lies wholly before or wholly after a `false`. */
  lemma RunAvoids(bs: seq<bool>, k: int, lo: int, hi: int)
    requires AllTrue(bs, lo, hi) && 0 <= k < |bs| && !bs[k]
    ensures hi <= k || k < lo
  {
  }

  lemma RunStart(bs: seq<bool>, lo: int, n: int)
    requires RunAt(bs, lo, n)
    ensures n > 0 ==> lo < |bs| && bs[lo]
  {
  }

  /**
   * What the scan knows after reading `bs[..i]`: `cur` is the run of
   * `true`s ending just before `i`, and `best` the longest run so far.
   */
  ghost predicate Scanned(bs: seq<bool>, i: int, cur: int, best: int) {
    0 <= cur <= i <= |bs| && AllTrue(bs, i - cur, i) && (cur < i ==> !bs[i - cur - 1]) &&
    cur <= best &&
    (exists lo :: RunAt(bs, lo, best) && lo + best <= i) &&
    forall lo, hi :: AllTrue(bs, lo, hi) && hi <= i ==> hi - lo <= best
  }

  lemma ScanStart(bs: seq<bool>)
    ensures Scanned(bs, 0, 0, 0)
  {
    assert RunAt(bs, 0, 0);
  }

  /** Reading one more flag: a `true` extends the current run, a `false` resets it. */
  lemma ScanStep(bs: seq<bool>, i: int, cur: int, best: int)
    requires Scanned(bs, i, cur, best) && i < |bs|
    ensures bs[i] ==> Scanned(bs, i + 1, cur + 1, if cur + 1 > best then cur + 1 else best)
    ensures !bs[i] ==> Scanned(bs, i + 1, 0, best)
  {
    var best' := if cur + 1 > best then cur + 1 else best;
    if bs[i] {
      assert AllTrue(bs, i - cur, i + 1);
      if cur + 1 > best {
        assert RunAt(bs, i - cur, best');
      }
      forall lo, hi | AllTrue(bs, lo, hi) && hi <= i + 1 ensures hi - lo <= best' {
      }
    } else {
      forall lo, hi | AllTrue(bs, lo, hi) && hi <= i + 1 ensures hi - lo <= best {
      }
    }
  }

  lemma ScanDone(bs: seq<bool>, cur: int, best: int)
    requires Scanned(bs, |bs|, cur, best)
    ensures IsLongestRun(bs, best)
  {
    var lo :| RunAt(bs, lo, best) && lo + best <= |bs|;
  }

  /** The two counters of the scan: the run ending at the last flag read, and the longest run so far. */
  datatype Streak = Streak(current: int, best: int)

  /** The counters after scanning `bs` from the start: a `true` extends the current run, a `false` resets it. */
  function ScanRuns(bs: seq<bool>): Streak {
    if bs == [] then Streak(0, 0)
    else
      var p := ScanRuns(bs[..|bs| - 1]);
      if bs[|bs| - 1] then Streak(p.current + 1, if p.current + 1 > p.best then p.current + 1 else p.best)
      else Streak(0, p.best)
  }

  lemma {:induction false} ScanUpTo(bs: seq<bool>, i: nat)
    requires i <= |bs|
    ensures Scanned(bs, i, ScanRuns(bs[..i]).current, ScanRuns(bs[..i]).best)
  {
    if i == 0 {
      ScanStart(bs);
    } else {
      ScanUpTo(bs, i - 1);
      assert bs[..i][..i - 1] == bs[..i - 1];
      ScanStep(bs, i - 1, ScanRuns(bs[..i - 1]).current, ScanRuns(bs[..i - 1]).best);
    }
  }

  /** The scan finds the longest run: its `best` counter is the length of a longest run of `true`s. */
  lemma ScanRunsLongest(bs: seq<bool>)
    ensures IsLongestRun(bs, ScanRuns(bs).best)
  {
    ScanUpTo(bs, |bs|);
    assert bs[..|bs|] == bs;
    ScanDone(bs, ScanRuns(bs).current, ScanRuns(bs).best);
  }
}
