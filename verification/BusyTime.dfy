/** profiling/summarize_traces.py: the busy time of a kernel trace. One sweep over the kernels by
    start time measures the union of their intervals. */
module BusyTime {
  import opened Basics

  /** A kernel runs during `start <= t < end`. */
  datatype Kernel = Kernel(start: int, end: int)

  ghost predicate Trace(ks: seq<Kernel>) {
    && (forall i :: 0 <= i < |ks| ==> ks[i].start <= ks[i].end)
    && forall i, j :: 0 <= i < j < |ks| ==> ks[i].start <= ks[j].start
  }

  // ----- measures -----

  /** Some kernel runs at time `t`. */
  ghost predicate Busy(ks: seq<Kernel>, t: int) {
    exists i :: 0 <= i < |ks| && ks[i].start <= t < ks[i].end
  }

  /** The time units during which at least one kernel runs. */
  ghost function Covered(ks: seq<Kernel>): set<int> {
    if ks == [] then {} else Covered(ks[..|ks| - 1]) + Range(ks[|ks| - 1].start, ks[|ks| - 1].end)
  }

  lemma {:induction false} CoveredIsBusy(ks: seq<Kernel>, t: int)
    ensures t in Covered(ks) <==> Busy(ks, t)
  {
    hide Busy;
    if ks != [] {
      CoveredIsBusy(ks[..|ks| - 1], t);
      BusyNext(ks, |ks| - 1, t);
    } else {
      NeverBusy(t);
    }
  }

  lemma NeverBusy(t: int)
    ensures !Busy([], t)
  {
  }

  lemma BusyNext(ks: seq<Kernel>, n: nat, t: int)
    requires n == |ks| - 1
    ensures Busy(ks, t) <==> Busy(ks[..n], t) || ks[n].start <= t < ks[n].end
  {
    assert forall i :: 0 <= i < n ==> ks[..n][i] == ks[i];
    if Busy(ks, t) {
      var i :| 0 <= i < |ks| && ks[i].start <= t < ks[i].end;
      if i < n { assert ks[..n][i].start <= t < ks[..n][i].end; }
    }
    if Busy(ks[..n], t) {
      var i :| 0 <= i < n && ks[..n][i].start <= t < ks[..n][i].end;
      assert ks[i].start <= t < ks[i].end;
    }
  }

  lemma CoveredNext(ks: seq<Kernel>, n: nat)
    requires n < |ks|
    ensures Covered(ks[..n + 1]) == Covered(ks[..n]) + Range(ks[n].start, ks[n].end)
  {
    assert ks[..n + 1][..n] == ks[..n];
  }

  /** Kernel time added up, overlaps counted as often as they occur. */
  function Total(ks: seq<Kernel>): int {
    if ks == [] then 0 else Total(ks[..|ks| - 1]) + (ks[|ks| - 1].end - ks[|ks| - 1].start)
  }

  function LastEnd(ks: seq<Kernel>): (m: int)
    requires ks != []
    ensures (exists i :: 0 <= i < |ks| && ks[i].end == m) && forall i :: 0 <= i < |ks| ==> ks[i].end <= m
  {
    var n := |ks| - 1;
    if n == 0 then ks[0].end
    else
      var m := LastEnd(ks[..n]);
      assert forall i :: 0 <= i < n ==> ks[..n][i] == ks[i];
      if ks[n].end > m then ks[n].end else m
  }

  function FirstStart(ks: seq<Kernel>): (m: int)
    requires ks != []
    ensures (exists i :: 0 <= i < |ks| && ks[i].start == m) && forall i :: 0 <= i < |ks| ==> m <= ks[i].start
  {
    var n := |ks| - 1;
    if n == 0 then ks[0].start
    else
      var m := FirstStart(ks[..n]);
      assert forall i :: 0 <= i < n ==> ks[..n][i] == ks[i];
      if ks[n].start < m then ks[n].start else m
  }

  // ----- the sweep -----

  ghost function Before(covered: set<int>, left: int): set<int> {
    set t | t in covered && t < left
  }

  /** The sweep over what is covered so far: `union` time units lie before `left`, and from `left` on
      exactly `left..right` is covered. */
  ghost predicate Swept(covered: set<int>, union: int, left: int, right: int) {
    && left <= right && union == |Before(covered, left)|
    && forall t :: left <= t ==> (t in covered <==> t < right)
  }

  /** A kernel that starts after `right` closes the interval; any other one extends it. */
  lemma SweptNext(covered: set<int>, union: int, left: int, right: int, k: Kernel)
    requires Swept(covered, union, left, right) && left <= k.start <= k.end
    ensures var after := covered + Range(k.start, k.end);
      if k.start > right then Swept(after, union + right - left, k.start, k.end)
      else Swept(after, union, left, if k.end > right then k.end else right)
  {
    hide Before;
    var after := covered + Range(k.start, k.end);
    if k.start > right {
      BeforeGap(covered, left, right, k);
    } else {
      BeforeSame(covered, left, k);
    }
  }

  lemma BeforeGap(covered: set<int>, left: int, right: int, k: Kernel)
    requires left <= right < k.start && forall t :: left <= t ==> (t in covered <==> t < right)
    ensures |Before(covered + Range(k.start, k.end), k.start)| == |Before(covered, left)| + right - left
  {
    hide Range;
    var earlier, gap := Before(covered, left), Range(left, right);
    BeforeParts(covered, left, right, k);
    DisjointSize(earlier, gap);
  }

  lemma BeforeParts(covered: set<int>, left: int, right: int, k: Kernel)
    requires left <= right < k.start && forall t :: left <= t ==> (t in covered <==> t < right)
    ensures Before(covered + Range(k.start, k.end), k.start) == Before(covered, left) + Range(left, right)
    ensures Before(covered, left) !! Range(left, right)
  {
    hide Range;
  }

  lemma DisjointSize(a: set<int>, b: set<int>)
    requires a !! b
    ensures |a + b| == |a| + |b|
  {
  }

  lemma BeforeSame(covered: set<int>, left: int, k: Kernel)
    requires left <= k.start
    ensures Before(covered + Range(k.start, k.end), left) == Before(covered, left)
  {
  }

  lemma SweptAll(covered: set<int>, union: int, left: int, right: int)
    requires Swept(covered, union, left, right)
    ensures union + right - left == |covered|
  {
    assert covered == Before(covered, left) + Range(left, right);
  }

  lemma SweptFirst(k: Kernel)
    requires k.start <= k.end
    ensures Swept(Range(k.start, k.end), 0, k.start, k.end)
  {
    assert Before(Range(k.start, k.end), k.start) == {};
  }

  /** The loop invariant; the first kernel is swept twice, without effect. */
  ghost predicate Sweeping(ks: seq<Kernel>, i: nat, union: int, left: int, right: int)
    requires ks != [] && i <= |ks|
  {
    if i == 0 then union == 0 && left == ks[0].start && right == ks[0].end
    else Swept(Covered(ks[..i]), union, left, right) && left <= ks[i - 1].start
  }

  lemma SweepStep(ks: seq<Kernel>, i: nat, union: int, left: int, right: int)
    requires Trace(ks) && i < |ks| && Sweeping(ks, i, union, left, right)
    ensures if ks[i].start > right then Sweeping(ks, i + 1, union + right - left, ks[i].start, ks[i].end)
            else Sweeping(ks, i + 1, union, left, if ks[i].end > right then ks[i].end else right)
  {
    hide Swept;
    hide Covered;
    CoveredNext(ks, i);
    if i == 0 {
      SweptFirst(ks[0]);
      NothingCovered();
      assert ks[..0] == [];
    } else {
      SweptNext(Covered(ks[..i]), union, left, right, ks[i]);
    }
  }

  lemma NothingCovered()
    ensures Covered([]) == {}
  {
  }

  lemma SweepEnds(ks: seq<Kernel>, union: int, left: int, right: int)
    requires ks != [] && Sweeping(ks, |ks|, union, left, right)
    ensures union + right - left == |Covered(ks)|
  {
    hide Swept;
    hide Covered;
    assert ks[..|ks|] == ks;
    SweptAll(Covered(ks), union, left, right);
  }

  lemma TotalNext(ks: seq<Kernel>, i: nat)
    requires i < |ks|
    ensures Total(ks[..i + 1]) == Total(ks[..i]) + (ks[i].end - ks[i].start)
  {
    assert ks[..i + 1][..i] == ks[..i];
  }

  datatype Summary = Summary(busy: int, total: int, span: int)

  /** `summarize`: the union of all intervals, their sum and the span; an empty trace has no first
      kernel, and a trace of length zero has no busy fraction. */
  method Summarize(ks: seq<Kernel>) returns (r: Outcome<Summary>)
    requires Trace(ks)
    ensures ks == [] ==> r == Raises(IndexError)
    ensures ks != [] && LastEnd(ks) == FirstStart(ks) ==> r == Raises(ZeroDivisionError)
    ensures ks != [] && LastEnd(ks) != FirstStart(ks) ==>
      r == Returns(Summary(|Covered(ks)|, Total(ks), LastEnd(ks) - FirstStart(ks)))
  {
    hide Sweeping;
    hide Covered;
    hide Total;
    hide LastEnd;
    hide FirstStart;
    if ks == [] { return Raises(IndexError); }
    var union, left, right := 0, ks[0].start, ks[0].end;
    var total := 0;
    Starts(ks);
    for i := 0 to |ks|
      invariant Sweeping(ks, i, union, left, right) && total == Total(ks[..i])
    {
      SweepStep(ks, i, union, left, right);
      TotalNext(ks, i);
      if ks[i].start > right {
        union := union + right - left;
        left, right := ks[i].start, ks[i].end;
      } else {
        right := if ks[i].end > right then ks[i].end else right;
      }
      total := total + (ks[i].end - ks[i].start);
    }
    assert ks[..|ks|] == ks;
    SweepEnds(ks, union, left, right);
    union := union + right - left;
    var span := LastEnd(ks) - FirstStart(ks);
    if span == 0 { return Raises(ZeroDivisionError); }
    r := Returns(Summary(union, total, span));
  }

  lemma Starts(ks: seq<Kernel>)
    requires ks != []
    ensures Sweeping(ks, 0, 0, ks[0].start, ks[0].end) && Total(ks[..0]) == 0
  {
  }

  // ----- what the numbers mean -----

  /** Two kernels run at the same time for a while. */
  predicate Overlap(a: Kernel, b: Kernel) {
    a.start < b.end && b.start < a.end && a.start < a.end && b.start < b.end
  }

  ghost predicate Disjoint(ks: seq<Kernel>) {
    forall i, j :: 0 <= i < j < |ks| ==> !Overlap(ks[i], ks[j])
  }

  lemma BusyWithinSpan(ks: seq<Kernel>)
    requires Trace(ks) && ks != []
    ensures |Covered(ks)| <= LastEnd(ks) - FirstStart(ks)
  {
    var all := Range(FirstStart(ks), LastEnd(ks));
    forall t | t in Covered(ks)
      ensures t in all
    {
      CoveredIsBusy(ks, t);
    }
    SubsetSize(Covered(ks), all);
    assert FirstStart(ks) <= ks[0].start <= ks[0].end <= LastEnd(ks);
  }

  lemma UnionSize(a: set<int>, b: set<int>)
    ensures |a + b| == |a| + |b| - |a * b|
  {
    assert a + b == a + (b - a * b);
    assert b == (b - a * b) + a * b;
  }

  /** The time units that the last kernel shares with the others. */
  ghost function Shared(ks: seq<Kernel>, n: nat): set<int>
    requires n < |ks|
  {
    Covered(ks[..n]) * Range(ks[n].start, ks[n].end)
  }

  lemma SharedOverlaps(ks: seq<Kernel>, n: nat) returns (i: nat)
    requires n < |ks| && Shared(ks, n) != {}
    ensures i < n && Overlap(ks[i], ks[n])
  {
    var t :| t in Shared(ks, n);
    CoveredIsBusy(ks[..n], t);
    i :| 0 <= i < |ks[..n]| && ks[..n][i].start <= t < ks[..n][i].end;
  }

  lemma OverlapShared(ks: seq<Kernel>, n: nat, i: nat)
    requires i < n < |ks| && Overlap(ks[i], ks[n])
    ensures Shared(ks, n) != {}
  {
    var t := if ks[i].start > ks[n].start then ks[i].start else ks[n].start;
    assert ks[..n][i] == ks[i];
    CoveredIsBusy(ks[..n], t);
    assert t in Shared(ks, n);
  }

  lemma LastDisjoint(ks: seq<Kernel>, n: nat)
    requires n == |ks| - 1
    ensures Disjoint(ks) <==> Disjoint(ks[..n]) && Shared(ks, n) == {}
  {
    hide Shared;
    hide Overlap;
    var rest := ks[..n];
    assert forall i :: 0 <= i < n ==> rest[i] == ks[i];
    if Shared(ks, n) != {} { var i := SharedOverlaps(ks, n); }
    forall i: nat | i < n && Overlap(ks[i], ks[n])
      ensures Shared(ks, n) != {}
    {
      OverlapShared(ks, n, i);
    }
  }

  lemma CoveredGrows(ks: seq<Kernel>, n: nat)
    requires n == |ks| - 1 && ks[n].start <= ks[n].end
    ensures |Covered(ks)| == |Covered(ks[..n])| + (ks[n].end - ks[n].start) - |Shared(ks, n)|
  {
    UnionSize(Covered(ks[..n]), Range(ks[n].start, ks[n].end));
  }

  /** Busy time never exceeds the total, and equals it exactly when no two kernels overlap. */
  lemma {:induction false} BusyIsTotal(ks: seq<Kernel>)
    requires forall i :: 0 <= i < |ks| ==> ks[i].start <= ks[i].end
    ensures |Covered(ks)| <= Total(ks)
    ensures |Covered(ks)| == Total(ks) <==> Disjoint(ks)
  {
    hide Shared;
    hide Overlap;
    hide Covered;
    if ks != [] {
      var n := |ks| - 1;
      BusyIsTotal(ks[..n]);
      CoveredGrows(ks, n);
      LastDisjoint(ks, n);
      NoShare(ks, n);
    } else {
      NothingCovered();
    }
  }

  lemma NoShare(ks: seq<Kernel>, n: nat)
    requires n < |ks|
    ensures |Shared(ks, n)| == 0 <==> Shared(ks, n) == {}
  {
    hide Shared;
  }
}
