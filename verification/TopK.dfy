/** The vocabulary-tile top-k of learning/09_int4/kernels.py: every tile keeps its own best rows,
    and a top-k over the candidates gives the top-k of the whole vocabulary. */
module TopK {
  import opened Basics
  import opened Softmax
  import PagedKV

  const SENTINEL: nat := 2147483647

  /** `s` ranks before `x`: a greater value, or the same value at a lower row. */
  predicate Before(logits: seq<real>, s: nat, x: nat)
    requires s < |logits| && x < |logits|
  {
    logits[s] > logits[x] || (logits[s] == logits[x] && s < x)
  }

  /** `sel` are the best rows of `lo..hi`, best first. */
  ghost predicate Ranked(logits: seq<real>, lo: nat, hi: nat, sel: seq<nat>) {
    && hi <= |logits|
    && (forall a :: 0 <= a < |sel| ==> lo <= sel[a] < hi)
    && (forall a, b :: 0 <= a < b < |sel| ==> Before(logits, sel[a], sel[b]))
    && (forall a, x: nat :: 0 <= a < |sel| && lo <= x < hi && x !in sel ==> Before(logits, sel[a], x))
  }

  // ----- one rank of one tile -----

  function Lane(logits: seq<real>, lo: nat, eligible: seq<bool>): nat -> Num {
    (i: nat) => if i < |eligible| && eligible[i] && lo + i < |logits| then Fin(logits[lo + i]) else NegInf
  }

  /** `tl.where(eligible & (value == best), row, sentinel)` */
  function RowLane(logits: seq<real>, lo: nat, eligible: seq<bool>, best: Num): nat -> nat {
    (i: nat) => if i < |eligible| && eligible[i] && Lane(logits, lo, eligible)(i) == best then lo + i else SENTINEL
  }

  /** `tl.min` */
  function MinOf(f: nat -> nat, n: nat): (m: nat)
    ensures forall i: nat :: i < n ==> m <= f(i)
    ensures n > 0 ==> exists i: nat :: i < n && f(i) == m
  {
    if n == 0 then SENTINEL
    else if n == 1 then f(0)
    else
      var m := MinOf(f, n - 1);
      if f(n - 1) < m then f(n - 1) else m
  }

  /** The eligible lanes are the rows of the tile that are not taken yet. */
  ghost predicate EligibleIs(logits: seq<real>, lo: nat, eligible: seq<bool>, sel: seq<nat>) {
    forall i: nat :: i < |eligible| ==> (eligible[i] <==> lo + i < |logits| && lo + i !in sel)
  }

  /** The greatest eligible logit is that of a lane. */
  lemma BestLane(logits: seq<real>, lo: nat, eligible: seq<bool>, lane: nat) returns (top: nat)
    requires lane < |eligible| && eligible[lane]
    requires forall i: nat :: i < |eligible| && eligible[i] ==> lo + i < |logits|
    ensures top < |eligible| && eligible[top] && MaxNum(Lane(logits, lo, eligible), |eligible|) == Fin(logits[lo + top])
    ensures forall j: nat :: j < |eligible| && eligible[j] ==> logits[lo + j] <= logits[lo + top]
  {
    hide MaxNum;
    var f := Lane(logits, lo, eligible);
    MaxNumIsMax(f, |eligible|);
    assert f(lane) == Fin(logits[lo + lane]);
    top :| top < |eligible| && f(top) == MaxNum(f, |eligible|);
    forall j: nat | j < |eligible| && eligible[j]
      ensures logits[lo + j] <= logits[lo + top]
    {
      assert f(j) == Fin(logits[lo + j]);
    }
  }

  /** While a row is eligible, a rank picks the first of the best ones. */
  lemma PickBest(logits: seq<real>, lo: nat, eligible: seq<bool>, lane: nat)
    requires lane < |eligible| && eligible[lane] && lo + |eligible| <= SENTINEL
    requires forall i: nat :: i < |eligible| && eligible[i] ==> lo + i < |logits|
    ensures var best := MaxNum(Lane(logits, lo, eligible), |eligible|);
      var row := MinOf(RowLane(logits, lo, eligible, best), |eligible|);
      && lo <= row < lo + |eligible| && eligible[row - lo] && best == Fin(logits[row])
      && forall i: nat :: i < |eligible| && eligible[i] && lo + i != row ==> Before(logits, row, lo + i)
  {
    hide MaxNum;
    hide MinOf;
    hide IsMax;
    var f := Lane(logits, lo, eligible);
    var best := MaxNum(f, |eligible|);
    var top := BestLane(logits, lo, eligible, lane);
    var g := RowLane(logits, lo, eligible, best);
    assert g(top) == lo + top;
    var row := MinOf(g, |eligible|);
    var i: nat :| i < |eligible| && g(i) == row;
    assert row <= g(top) < SENTINEL;
    forall j: nat | j < |eligible| && eligible[j] && lo + j != row
      ensures Before(logits, row, lo + j)
    {
      assert f(j) == Fin(logits[lo + j]);
      assert row <= g(j);
    }
  }

  /** When no row is eligible any more, a rank stores minus infinity and the sentinel. */
  lemma PickNone(logits: seq<real>, lo: nat, eligible: seq<bool>)
    requires forall i: nat :: i < |eligible| ==> !eligible[i]
    requires |eligible| > 0
    ensures MaxNum(Lane(logits, lo, eligible), |eligible|) == NegInf
    ensures MinOf(RowLane(logits, lo, eligible, NegInf), |eligible|) == SENTINEL
  {
    MaxNumIsMax(Lane(logits, lo, eligible), |eligible|);
  }

  lemma RankedMore(logits: seq<real>, lo: nat, hi: nat, sel: seq<nat>, row: nat)
    requires Ranked(logits, lo, hi, sel) && lo <= row < hi && row !in sel
    requires forall x: nat :: lo <= x < hi && x !in sel && x != row ==> Before(logits, row, x)
    ensures Ranked(logits, lo, hi, sel + [row])
  {
  }

  /** `eligible & (row != index)` */
  function Without(eligible: seq<bool>, lo: nat, index: nat): (r: seq<bool>)
    ensures |r| == |eligible|
  {
    seq(|eligible|, i requires 0 <= i < |eligible| => eligible[i] && lo + i != index)
  }

  lemma TakeRow(logits: seq<real>, lo: nat, hi: nat, eligible: seq<bool>, sel: seq<nat>, row: nat)
    requires Ranked(logits, lo, hi, sel) && EligibleIs(logits, lo, eligible, sel)
    requires hi == if lo + |eligible| < |logits| then lo + |eligible| else |logits|
    requires lo <= row < lo + |eligible| && eligible[row - lo] && row < |logits|
    requires forall i: nat :: i < |eligible| && eligible[i] && lo + i != row ==> lo + i < |logits| && Before(logits, row, lo + i)
    ensures Ranked(logits, lo, hi, sel + [row]) && EligibleIs(logits, lo, Without(eligible, lo, row), sel + [row])
  {
    forall x: nat | lo <= x < hi && x !in sel && x != row
      ensures Before(logits, row, x)
    {
      assert eligible[x - lo];
      assert x == lo + (x - lo);
    }
    RankedMore(logits, lo, hi, sel, row);
  }

  lemma NothingLeft(logits: seq<real>, lo: nat, hi: nat, eligible: seq<bool>, sel: seq<nat>)
    requires EligibleIs(logits, lo, eligible, sel) && hi <= lo + |eligible| && hi <= |logits|
    requires forall i: nat :: i < |eligible| ==> !eligible[i]
    ensures forall x: nat :: lo <= x < hi ==> x in sel
    ensures forall index: nat :: EligibleIs(logits, lo, Without(eligible, lo, index), sel)
  {
    forall x: nat | lo <= x < hi
      ensures x in sel
    {
      assert !eligible[x - lo];
      assert x == lo + (x - lo);
    }
  }

  // ----- the candidates of a tile -----

  function TileEnd(n: nat, blockN: nat, pid: nat): nat {
    if pid * blockN + blockN < n then pid * blockN + blockN else n
  }

  /** What the slots hold for the chosen rows; what is left over holds minus infinity and the
      sentinel. */
  ghost predicate Stored(logits: seq<real>, sel: seq<nat>, values: seq<Num>, indices: seq<nat>) {
    && |values| == |indices| && |sel| <= |values|
    && forall r :: 0 <= r < |values| ==>
         if r < |sel| then indices[r] == sel[r] && sel[r] < |logits| && values[r] == Fin(logits[sel[r]])
         else indices[r] == SENTINEL && values[r] == NegInf
  }

  /** A tile runs out of rows before a slot stays empty. */
  ghost predicate Exhausted(lo: nat, hi: nat, sel: seq<nat>) {
    forall x: nat :: lo <= x < hi ==> x in sel
  }

  /** The slots of tile `pid` hold its best rows, best first. */
  ghost predicate Candidates(logits: seq<real>, blockN: nat, top: nat, pid: nat, sel: seq<nat>, values: seq<Num>, indices: seq<nat>) {
    && |values| == top && Stored(logits, sel, values, indices)
    && Ranked(logits, pid * blockN, TileEnd(|logits|, blockN, pid), sel)
    && (|sel| < top ==> Exhausted(pid * blockN, TileEnd(|logits|, blockN, pid), sel))
  }

  lemma StoreRow(logits: seq<real>, sel: seq<nat>, values: seq<Num>, indices: seq<nat>, row: nat)
    requires Stored(logits, sel, values, indices) && |sel| == |values| && row < |logits|
    ensures Stored(logits, sel + [row], values + [Fin(logits[row])], indices + [row])
  {
  }

  lemma StoreNone(logits: seq<real>, sel: seq<nat>, values: seq<Num>, indices: seq<nat>)
    requires Stored(logits, sel, values, indices)
    ensures Stored(logits, sel, values + [NegInf], indices + [SENTINEL])
  {
  }

  lemma LaneFree(logits: seq<real>, lo: nat, hi: nat, eligible: seq<bool>, sel: seq<nat>, lane: nat)
    requires EligibleIs(logits, lo, eligible, sel) && lane < |eligible| && eligible[lane]
    requires hi == if lo + |eligible| < |logits| then lo + |eligible| else |logits|
    ensures !Exhausted(lo, hi, sel)
    ensures forall i: nat :: i < |eligible| && eligible[i] ==> lo + i < |logits|
  {
    assert lo <= lo + lane < hi;
  }

  /** `_head_candidates`, one tile. */
  method HeadCandidates(logits: seq<real>, blockN: nat, top: nat, pid: nat)
    returns (ghost sel: seq<nat>, values: seq<Num>, indices: seq<nat>)
    requires blockN > 0 && pid * blockN + blockN <= SENTINEL
    ensures Candidates(logits, blockN, top, pid, sel, values, indices)
    ensures |values| == |indices| == top
    ensures forall r :: 0 <= r < top ==>
      if indices[r] == SENTINEL then values[r] == NegInf
      else pid * blockN <= indices[r] < TileEnd(|logits|, blockN, pid) <= |logits| && values[r] == Fin(logits[indices[r]])
  {
    hide Before;
    hide Ranked;
    hide EligibleIs;
    hide Stored;
    hide Exhausted;
    hide MaxNum;
    hide MinOf;
    var lo := pid * blockN;
    ghost var hi := TileEnd(|logits|, blockN, pid);
    var eligible := seq(blockN, i requires 0 <= i => lo + i < |logits|);
    sel, values, indices := [], [], [];
    Nothing(logits, lo, hi, eligible);
    for rank := 0 to top
      invariant |values| == rank && |sel| <= rank && |eligible| == blockN && Stored(logits, sel, values, indices)
      invariant Ranked(logits, lo, hi, sel) && EligibleIs(logits, lo, eligible, sel)
      invariant |sel| < rank ==> Exhausted(lo, hi, sel)
    {
      var best := MaxNum(Lane(logits, lo, eligible), blockN);
      var index := MinOf(RowLane(logits, lo, eligible, best), blockN);
      if lane: nat :| lane < blockN && eligible[lane] {
        LaneFree(logits, lo, hi, eligible, sel, lane);
        PickBest(logits, lo, eligible, lane);
        TakeRow(logits, lo, hi, eligible, sel, index);
        StoreRow(logits, sel, values, indices, index);
        sel := sel + [index];
      } else {
        PickNone(logits, lo, eligible);
        NothingLeft(logits, lo, hi, eligible, sel);
        StoreNone(logits, sel, values, indices);
        assert Exhausted(lo, hi, sel) by { AllTaken(lo, hi, sel); }
      }
      values, indices := values + [best], indices + [index];
      eligible := Without(eligible, lo, index);
    }
    StoredRows(logits, lo, hi, sel, values, indices);
  }

  lemma StoredRows(logits: seq<real>, lo: nat, hi: nat, sel: seq<nat>, values: seq<Num>, indices: seq<nat>)
    requires Stored(logits, sel, values, indices) && Ranked(logits, lo, hi, sel) && hi <= SENTINEL
    ensures |values| == |indices| && hi <= |logits|
    ensures forall r :: 0 <= r < |values| ==>
      if indices[r] == SENTINEL then values[r] == NegInf
      else lo <= indices[r] < hi && values[r] == Fin(logits[indices[r]])
  {
  }

  lemma AllTaken(lo: nat, hi: nat, sel: seq<nat>)
    requires forall x: nat :: lo <= x < hi ==> x in sel
    ensures Exhausted(lo, hi, sel)
  {
  }

  lemma Nothing(logits: seq<real>, lo: nat, hi: nat, eligible: seq<bool>)
    requires hi <= |logits| && forall i: nat :: i < |eligible| ==> (eligible[i] <==> lo + i < |logits|)
    ensures Ranked(logits, lo, hi, []) && Stored(logits, [], [], []) && EligibleIs(logits, lo, eligible, [])
  {
  }

  // ----- all tiles -----

  /** The slots of tile `pid` in a flat buffer. */
  function Slice<T>(flat: seq<T>, top: nat, pid: nat): seq<T> {
    if pid * top + top <= |flat| then flat[pid * top..pid * top + top] else []
  }

  ghost predicate AllCandidates(logits: seq<real>, blockN: nat, top: nat, sels: seq<seq<nat>>, values: seq<Num>, indices: seq<nat>) {
    && |values| == |indices| == |sels| * top
    && forall pid: nat :: pid < |sels| ==>
         Candidates(logits, blockN, top, pid, sels[pid], Slice(values, top, pid), Slice(indices, top, pid))
  }

  /** `program_id * TOP + rank` */
  function SlotNumber(pid: nat, r: nat, top: nat): nat {
    pid * top + r
  }

  /** What a slot holds: the row of rank `r` and its logit, or nothing. */
  ghost predicate Holds(logits: seq<real>, sel: seq<nat>, values: seq<Num>, indices: seq<nat>, slot: nat, r: nat) {
    && slot < |values| == |indices|
    && if r < |sel| then indices[slot] == sel[r] < |logits| && values[slot] == Fin(logits[sel[r]])
       else values[slot] == NegInf
  }

  lemma SlotHolds(logits: seq<real>, blockN: nat, top: nat, sels: seq<seq<nat>>, values: seq<Num>, indices: seq<nat>, pid: nat, r: nat)
    requires AllCandidates(logits, blockN, top, sels, values, indices) && pid < |sels| && r < top
    ensures |sels[pid]| <= top
    ensures Holds(logits, sels[pid], values, indices, SlotNumber(pid, r, top), r)
  {
    hide Ranked;
    hide Exhausted;
    hide Stored;
    hide Slice;
    RowBelow(pid, |sels|, top);
    assert Candidates(logits, blockN, top, pid, sels[pid], Slice(values, top, pid), Slice(indices, top, pid));
    SliceAt(values, top, pid, r);
    SliceAt(indices, top, pid, r);
    StoredAt(logits, sels[pid], Slice(values, top, pid), Slice(indices, top, pid), r);
  }

  lemma SliceAt<T>(flat: seq<T>, top: nat, pid: nat, r: nat)
    requires pid * top + top <= |flat| && r < top
    ensures |Slice(flat, top, pid)| == top && Slice(flat, top, pid)[r] == flat[pid * top + r]
  {
  }

  lemma StoredAt(logits: seq<real>, sel: seq<nat>, values: seq<Num>, indices: seq<nat>, r: nat)
    requires Stored(logits, sel, values, indices) && r < |values|
    ensures |sel| <= |values| == |indices|
    ensures if r < |sel| then indices[r] == sel[r] < |logits| && values[r] == Fin(logits[sel[r]]) else values[r] == NegInf
  {
  }

  lemma SlotOf(top: nat, tiles: nat, slot: nat) returns (pid: nat, r: nat)
    requires slot < tiles * top
    ensures pid < tiles && r < top && slot == pid * top + r
  {
    ZeroProduct(tiles, top);
    QuotientBelow(slot, tiles, top);
    pid, r := slot / top, slot % top;
  }

  // ----- the library's selection -----

  predicate AtLeast(x: Num, y: Num) {
    y.NegInf? || (x.Fin? && y.Fin? && x.value >= y.value)
  }

  /** What `values.topk(k)` promises about its slots; ties may fall either way. */
  ghost predicate TopSlots(values: seq<Num>, slots: seq<nat>) {
    && NoDup(slots) && (forall a :: 0 <= a < |slots| ==> slots[a] < |values|)
    && (forall a, b :: 0 <= a < b < |slots| ==> AtLeast(values[slots[a]], values[slots[b]]))
    && forall a, y: nat :: 0 <= a < |slots| && y < |values| && y !in slots ==> AtLeast(values[slots[a]], values[y])
  }

  /** What `values.max(dim=0)` promises: the first slot with the greatest value. */
  ghost predicate FirstMax(values: seq<Num>, slot: nat) {
    && slot < |values| && (forall y :: 0 <= y < |values| ==> AtLeast(values[slot], values[y]))
    && forall y :: 0 <= y < slot ==> values[y] != values[slot]
  }

  /** If `slots` takes a slot outside a window of its own length, it leaves one of the window out. */
  lemma LeftOut(slots: seq<nat>, base: nat, y: nat) returns (z: nat)
    requires y in slots && !(base <= y < base + |slots|)
    ensures base <= z < base + |slots| && z !in slots
  {
    if forall z :: base <= z < base + |slots| ==> z in slots {
      var window := Range(base, base + |slots|);
      assert |window + {y}| == |slots| + 1;
      assert window + {y} <= PagedKV.Elems(slots);
      ElemsAtMost(slots);
      SubsetSize(window + {y}, PagedKV.Elems(slots));
      assert false;
    } else {
      z :| base <= z < base + |slots| && z !in slots;
    }
  }

  lemma {:induction false} ElemsAtMost<T>(q: seq<T>)
    ensures |PagedKV.Elems(q)| <= |q|
  {
    if q == [] {
      assert PagedKV.Elems(q) == {};
    } else {
      ElemsAtMost(q[1..]);
      assert PagedKV.Elems(q) == PagedKV.Elems(q[1..]) + {q[0]} by { assert q == [q[0]] + q[1..]; }
    }
  }

  // ----- the global top-k -----

  /** `rows` are `|rows|` distinct rows with the greatest logits, best first. */
  ghost predicate IsTopK(logits: seq<real>, rows: seq<nat>) {
    && NoDup(rows) && (forall a :: 0 <= a < |rows| ==> rows[a] < |logits|)
    && (forall a, b :: 0 <= a < b < |rows| ==> logits[rows[a]] >= logits[rows[b]])
    && forall a, x: nat :: 0 <= a < |rows| && x < |logits| && x !in rows ==> logits[x] <= logits[rows[a]]
  }

  /** The first tile is full of real candidates, because `top <= min(block, vocabulary)`. */
  lemma FirstTileFull(logits: seq<real>, blockN: nat, top: nat, sels: seq<seq<nat>>, values: seq<Num>, indices: seq<nat>)
    requires AllCandidates(logits, blockN, top, sels, values, indices) && |sels| > 0 && top <= blockN && top <= |logits|
    ensures |sels[0]| == top
  {
    hide Ranked;
    hide Stored;
    assert Candidates(logits, blockN, top, 0, sels[0], Slice(values, top, 0), Slice(indices, top, 0));
    FirstSlots(logits, blockN, top, sels, values, indices);
    if |sels[0]| < top {
      var m := TileEnd(|logits|, blockN, 0);
      assert m >= top;
      assert Range(0, m) <= PagedKV.Elems(sels[0]);
      SubsetSize(Range(0, m), PagedKV.Elems(sels[0]));
      ElemsAtMost(sels[0]);
      assert false;
    }
  }

  lemma FirstSlots(logits: seq<real>, blockN: nat, top: nat, sels: seq<seq<nat>>, values: seq<Num>, indices: seq<nat>)
    requires AllCandidates(logits, blockN, top, sels, values, indices) && |sels| > 0
    ensures |sels[0]| <= top
  {
    assert Candidates(logits, blockN, top, 0, sels[0], Slice(values, top, 0), Slice(indices, top, 0));
  }

  /** A padding sentinel is never selected. */
  lemma NoSentinel(logits: seq<real>, blockN: nat, top: nat, sels: seq<seq<nat>>, values: seq<Num>, indices: seq<nat>, slots: seq<nat>, a: nat)
    requires AllCandidates(logits, blockN, top, sels, values, indices) && |sels| > 0 && top <= blockN && top <= |logits|
    requires TopSlots(values, slots) && |slots| == top && a < top
    ensures values[slots[a]].Fin?
  {
    hide AllCandidates;
    FirstTileFull(logits, blockN, top, sels, values, indices);
    if slots[a] < top {
      SlotHolds(logits, blockN, top, sels, values, indices, 0, slots[a]);
    } else {
      var z := LeftOut(slots, 0, slots[a]);
      SlotHolds(logits, blockN, top, sels, values, indices, 0, z);
      assert AtLeast(values[slots[a]], values[z]);
    }
  }

  /** The tile and rank behind a selected slot. */
  lemma Selected(logits: seq<real>, blockN: nat, top: nat, sels: seq<seq<nat>>, values: seq<Num>, indices: seq<nat>, slots: seq<nat>, a: nat)
    returns (pid: nat, r: nat)
    requires AllCandidates(logits, blockN, top, sels, values, indices) && |sels| > 0 && top <= blockN && top <= |logits|
    requires TopSlots(values, slots) && |slots| == top && a < top
    ensures pid < |sels| && r < |sels[pid]| <= top && slots[a] == pid * top + r
    ensures slots[a] < |indices| == |values| && indices[slots[a]] == sels[pid][r] < |logits|
    ensures values[slots[a]] == Fin(logits[sels[pid][r]])
  {
    hide AllCandidates;
    NoSentinel(logits, blockN, top, sels, values, indices, slots, a);
    CandidateCount(logits, blockN, top, sels, values, indices);
    pid, r := SlotOf(top, |sels|, slots[a]);
    SlotHolds(logits, blockN, top, sels, values, indices, pid, r);
  }

  lemma CandidateCount(logits: seq<real>, blockN: nat, top: nat, sels: seq<seq<nat>>, values: seq<Num>, indices: seq<nat>)
    requires AllCandidates(logits, blockN, top, sels, values, indices)
    ensures |values| == |indices| == |sels| * top
  {
  }

  /** The ranking inside a tile. */
  lemma TileRanked(logits: seq<real>, blockN: nat, top: nat, sels: seq<seq<nat>>, values: seq<Num>, indices: seq<nat>, pid: nat)
    requires AllCandidates(logits, blockN, top, sels, values, indices) && pid < |sels|
    ensures Ranked(logits, pid * blockN, TileEnd(|logits|, blockN, pid), sels[pid])
    ensures |sels[pid]| < top ==> Exhausted(pid * blockN, TileEnd(|logits|, blockN, pid), sels[pid])
  {
    assert Candidates(logits, blockN, top, pid, sels[pid], Slice(values, top, pid), Slice(indices, top, pid));
  }

  lemma RankedTile(logits: seq<real>, blockN: nat, pid: nat, sel: seq<nat>, r: nat)
    requires Ranked(logits, pid * blockN, TileEnd(|logits|, blockN, pid), sel) && r < |sel| && blockN > 0
    ensures sel[r] / blockN == pid
  {
    DivIs(sel[r], blockN, pid, sel[r] - pid * blockN);
  }

  lemma RankedDistinct(logits: seq<real>, lo: nat, hi: nat, sel: seq<nat>, a: nat, b: nat)
    requires Ranked(logits, lo, hi, sel) && a < |sel| && b < |sel| && a != b
    ensures sel[a] != sel[b]
  {
    assert Before(logits, sel[if a < b then a else b], sel[if a < b then b else a]);
  }

  /** Different slots never hold the same row. */
  lemma DistinctRows(logits: seq<real>, blockN: nat, top: nat, sels: seq<seq<nat>>, values: seq<Num>, indices: seq<nat>, slots: seq<nat>, a: nat, b: nat)
    requires AllCandidates(logits, blockN, top, sels, values, indices) && |sels| > 0 && top <= blockN && top <= |logits|
    requires TopSlots(values, slots) && |slots| == top && a < b < top
    ensures slots[a] < |indices| && slots[b] < |indices| && indices[slots[a]] != indices[slots[b]]
  {
    hide AllCandidates;
    hide Ranked;
    hide AtLeast;
    hide TileEnd;
    hide Exhausted;
    var p, r := Selected(logits, blockN, top, sels, values, indices, slots, a);
    var p', r' := Selected(logits, blockN, top, sels, values, indices, slots, b);
    TileRanked(logits, blockN, top, sels, values, indices, p);
    TileRanked(logits, blockN, top, sels, values, indices, p');
    if p == p' {
      assert r != r';
      RankedDistinct(logits, p * blockN, TileEnd(|logits|, blockN, p), sels[p], r, r');
    } else {
      RankedTile(logits, blockN, p, sels[p], r);
      RankedTile(logits, blockN, p', sels[p'], r');
    }
  }

  /** A row that is not selected has no greater logit than any selected row. */
  lemma NoGreater(logits: seq<real>, blockN: nat, top: nat, sels: seq<seq<nat>>, values: seq<Num>, indices: seq<nat>, slots: seq<nat>, a: nat, x: nat)
    requires AllCandidates(logits, blockN, top, sels, values, indices) && top <= blockN && top <= |logits|
    requires blockN > 0 && |sels| == CeilDiv(|logits|, blockN)
    requires TopSlots(values, slots) && |slots| == top && a < top && x < |logits|
    requires forall b :: 0 <= b < top && slots[b] < |indices| ==> indices[slots[b]] != x
    ensures slots[a] < |indices| && indices[slots[a]] < |logits| && logits[x] <= logits[indices[slots[a]]]
  {
    hide AllCandidates;
    hide TopSlots;
    hide Ranked;
    hide CeilDiv;
    hide Exhausted;
    PositionInBlocks(x, |logits|, blockN);
    var t := x / blockN;
    var p, r := Selected(logits, blockN, top, sels, values, indices, slots, a);
    TileRanked(logits, blockN, top, sels, values, indices, t);
    var sel := sels[t];
    RowInTile(|logits|, blockN, x);
    if x in sel {
      var i :| 0 <= i < |sel| && sel[i] == x;
      CandidateCount(logits, blockN, top, sels, values, indices);
      FirstCount(logits, blockN, top, sels, values, indices, t);
      SlotHolds(logits, blockN, top, sels, values, indices, t, i);
      Unselected(values, slots, a, t * top + i, indices, x);
    } else {
      BehindTile(logits, blockN, top, sels, values, indices, slots, a, t, x, p, r);
    }
  }

  lemma FirstCount(logits: seq<real>, blockN: nat, top: nat, sels: seq<seq<nat>>, values: seq<Num>, indices: seq<nat>, pid: nat)
    requires AllCandidates(logits, blockN, top, sels, values, indices) && pid < |sels|
    ensures |sels[pid]| <= top
  {
    assert Candidates(logits, blockN, top, pid, sels[pid], Slice(values, top, pid), Slice(indices, top, pid));
  }

  lemma RowInTile(n: nat, blockN: nat, x: nat)
    requires blockN > 0 && x < n
    ensures x / blockN * blockN <= x < TileEnd(n, blockN, x / blockN)
  {
    assert x == x / blockN * blockN + x % blockN;
  }

  lemma Unselected(values: seq<Num>, slots: seq<nat>, a: nat, y: nat, indices: seq<nat>, x: nat)
    requires TopSlots(values, slots) && a < |slots| && y < |values| == |indices| && indices[y] == x
    requires forall b :: 0 <= b < |slots| && slots[b] < |indices| ==> indices[slots[b]] != x
    ensures slots[a] < |values| && AtLeast(values[slots[a]], values[y])
  {
    assert y !in slots;
  }

  /** A row that its own tile dropped: all candidates of that tile are ahead of it, and either one
      of them was left out as well or they are the whole selection. */
  lemma BehindTile(logits: seq<real>, blockN: nat, top: nat, sels: seq<seq<nat>>, values: seq<Num>, indices: seq<nat>, slots: seq<nat>,
                   a: nat, t: nat, x: nat, p: nat, r: nat)
    requires AllCandidates(logits, blockN, top, sels, values, indices) && t < |sels| && p < |sels| && x < |logits|
    requires TopSlots(values, slots) && |slots| == top && a < top
    requires r < |sels[p]| && slots[a] == p * top + r && slots[a] < |indices| == |values|
    requires indices[slots[a]] == sels[p][r] < |logits| && values[slots[a]] == Fin(logits[sels[p][r]])
    requires t * blockN <= x < TileEnd(|logits|, blockN, t) && x !in sels[t]
    ensures logits[x] <= logits[sels[p][r]]
  {
    hide AllCandidates;
    TileRanked(logits, blockN, top, sels, values, indices, t);
    FirstCount(logits, blockN, top, sels, values, indices, t);
    assert |sels[t]| == top;
    if p == t {
      assert Before(logits, sels[t][r], x);
    } else {
      FirstCount(logits, blockN, top, sels, values, indices, p);
      OtherWindow(p, r, t, top);
      var z := LeftOut(slots, t * top, slots[a]);
      SlotHolds(logits, blockN, top, sels, values, indices, t, z - t * top);
      assert Before(logits, sels[t][z - t * top], x);
      assert AtLeast(values[slots[a]], values[z]);
    }
  }

  lemma OtherWindow(p: nat, r: nat, t: nat, top: nat)
    requires p != t && r < top
    ensures !(t * top <= p * top + r < t * top + top)
  {
    if p < t {
      MulMonotone(p + 1, t, top);
      assert (p + 1) * top == p * top + top;
    } else {
      MulMonotone(t + 1, p, top);
      assert (t + 1) * top == t * top + top;
    }
  }

  /** The rows behind the selected slots. */
  function RowsOf(indices: seq<nat>, slots: seq<nat>): (rows: seq<nat>)
    requires forall a :: 0 <= a < |slots| ==> slots[a] < |indices|
    ensures |rows| == |slots| && forall a :: 0 <= a < |slots| ==> rows[a] == indices[slots[a]]
  {
    seq(|slots|, a requires 0 <= a < |slots| => indices[slots[a]])
  }

  /** Tile-local top-k, then top-k over the candidates, is the top-k of the whole vocabulary: the
      rows are valid and distinct, no other row has a greater logit, and the values are the logits.
      It holds for every vocabulary size, tile width and tie-breaking of the library. */
  lemma GlobalTopK(logits: seq<real>, blockN: nat, top: nat, sels: seq<seq<nat>>, values: seq<Num>, indices: seq<nat>, slots: seq<nat>)
    requires AllCandidates(logits, blockN, top, sels, values, indices) && top <= blockN && 0 < top <= |logits|
    requires blockN > 0 && |sels| == CeilDiv(|logits|, blockN)
    requires TopSlots(values, slots) && |slots| == top
    ensures forall a :: 0 <= a < |slots| ==> slots[a] < |indices| == |values|
    ensures IsTopK(logits, RowsOf(indices, slots))
    ensures forall a :: 0 <= a < top ==> values[slots[a]] == Fin(logits[RowsOf(indices, slots)[a]])
  {
    hide AllCandidates;
    CandidateCount(logits, blockN, top, sels, values, indices);
    var rows := RowsOf(indices, slots);
    forall a | 0 <= a < top
      ensures rows[a] < |logits| && values[slots[a]] == Fin(logits[rows[a]])
      ensures forall x: nat :: x < |logits| && x !in rows ==> logits[x] <= logits[rows[a]]
    {
      var _, _ := Selected(logits, blockN, top, sels, values, indices, slots, a);
      forall x: nat | x < |logits| && x !in rows
        ensures logits[x] <= logits[rows[a]]
      {
        assert forall b :: 0 <= b < top ==> indices[slots[b]] == rows[b];
        NoGreater(logits, blockN, top, sels, values, indices, slots, a, x);
      }
    }
    forall a, b | 0 <= a < b < top
      ensures rows[a] != rows[b] && logits[rows[a]] >= logits[rows[b]]
    {
      DistinctRows(logits, blockN, top, sels, values, indices, slots, a, b);
      assert AtLeast(values[slots[a]], values[slots[b]]);
    }
  }

  /** The values of a top-k are determined: two selections of one size agree rank by rank. */
  lemma TopKValuesUnique(logits: seq<real>, rows: seq<nat>, rows': seq<nat>, r: nat)
    requires IsTopK(logits, rows) && IsTopK(logits, rows') && |rows| == |rows'| && r < |rows|
    ensures logits[rows[r]] == logits[rows'[r]]
  {
    if logits[rows[r]] < logits[rows'[r]] {
      NotAhead(logits, rows, rows', r);
      assert false;
    } else if logits[rows'[r]] < logits[rows[r]] {
      NotAhead(logits, rows', rows, r);
      assert false;
    }
  }

  /** No selection has a greater value at any rank. */
  lemma NotAhead(logits: seq<real>, rows: seq<nat>, rows': seq<nat>, r: nat)
    requires IsTopK(logits, rows) && IsTopK(logits, rows') && |rows| == |rows'| && r < |rows|
    ensures logits[rows[r]] >= logits[rows'[r]]
  {
    if logits[rows[r]] < logits[rows'[r]] {
      var head, head' := rows[..r], rows'[..r + 1];
      forall x | x in PagedKV.Elems(head')
        ensures x in PagedKV.Elems(head)
      {
        var b :| 0 <= b < |head'| && head'[b] == x;
        assert logits[rows'[b]] >= logits[rows'[r]];
        assert x in rows;
        var a :| 0 <= a < |rows| && rows[a] == x;
        assert a < r;
        assert head[a] == x;
      }
      SubsetSize(PagedKV.Elems(head'), PagedKV.Elems(head));
      PagedKV.ElemsSize(head');
      ElemsAtMost(head);
      assert false;
    }
  }

  // ----- top-1 -----

  /** For `k == 1`, `max` takes the first slot with the greatest value, and ties go to the lowest row. */
  lemma TopOneIsLowest(logits: seq<real>, blockN: nat, sels: seq<seq<nat>>, values: seq<Num>, indices: seq<nat>, slot: nat)
    requires AllCandidates(logits, blockN, 1, sels, values, indices) && |logits| > 0
    requires blockN > 0 && |sels| == CeilDiv(|logits|, blockN) && FirstMax(values, slot)
    ensures slot < |indices| && indices[slot] < |logits|
    ensures forall x: nat :: x < |logits| && x != indices[slot] ==> Before(logits, indices[slot], x)
  {
    hide AllCandidates;
    CandidateCount(logits, blockN, 1, sels, values, indices);
    assert |sels| * 1 == |sels|;
    var row := BestOfTile(logits, blockN, sels, values, indices, slot);
    forall x: nat | x < |logits| && x != row
      ensures Before(logits, row, x)
    {
      BestBefore(logits, blockN, sels, values, indices, slot, row, x);
    }
  }

  lemma BestBefore(logits: seq<real>, blockN: nat, sels: seq<seq<nat>>, values: seq<Num>, indices: seq<nat>, slot: nat, row: nat, x: nat)
    requires AllCandidates(logits, blockN, 1, sels, values, indices)
    requires blockN > 0 && |sels| == CeilDiv(|logits|, blockN) && FirstMax(values, slot) && |values| == |sels|
    requires row < |logits| && values[slot] == Fin(logits[row]) && row / blockN == slot && x < |logits| && x != row
    requires forall y: nat :: slot * blockN <= y < TileEnd(|logits|, blockN, slot) && y != row ==> Before(logits, row, y)
    ensures Before(logits, row, x)
  {
    hide AllCandidates;
    hide CeilDiv;
    hide TileEnd;
    PositionInBlocks(x, |logits|, blockN);
    RowInTile(|logits|, blockN, x);
    var t := x / blockN;
    if t != slot {
      var c := BestOfTile(logits, blockN, sels, values, indices, t);
      assert AtLeast(values[slot], values[t]);
      assert c == x || Before(logits, c, x);
      if x < row { LowerTile(x, row, blockN); }
    }
  }

  lemma LowerTile(x: nat, y: nat, b: nat)
    requires b > 0 && x <= y
    ensures x / b <= y / b
  {
    assert x == x / b * b + x % b && y == y / b * b + y % b;
    if x / b > y / b { MulMonotone(y / b + 1, x / b, b); }
  }

  lemma EmptyTile(lo: nat, hi: nat)
    requires lo < hi
    ensures !Exhausted(lo, hi, [])
  {
    var none: seq<nat> := [];
    assert lo !in none;
  }

  /** The only candidate of a tile: the first of its best rows. */
  lemma BestOfTile(logits: seq<real>, blockN: nat, sels: seq<seq<nat>>, values: seq<Num>, indices: seq<nat>, t: nat) returns (row: nat)
    requires AllCandidates(logits, blockN, 1, sels, values, indices) && blockN > 0 && |sels| == CeilDiv(|logits|, blockN) && t < |sels|
    ensures t < |indices| == |values| && indices[t] == row < |logits| && values[t] == Fin(logits[row]) && row / blockN == t
    ensures forall x: nat :: t * blockN <= x < TileEnd(|logits|, blockN, t) && x != row ==> Before(logits, row, x)
  {
    hide AllCandidates;
    CandidateCount(logits, blockN, 1, sels, values, indices);
    TileRanked(logits, blockN, 1, sels, values, indices, t);
    FirstCount(logits, blockN, 1, sels, values, indices, t);
    TileStarts(|logits|, blockN, t);
    assert t * blockN < TileEnd(|logits|, blockN, t);
    EmptyTile(t * blockN, TileEnd(|logits|, blockN, t));
    SlotHolds(logits, blockN, 1, sels, values, indices, t, 0);
    RankedTile(logits, blockN, t, sels[t], 0);
    row := sels[t][0];
    forall x: nat | t * blockN <= x < TileEnd(|logits|, blockN, t) && x != row
      ensures Before(logits, row, x)
    {
      assert x !in sels[t];
      assert Before(logits, sels[t][0], x);
    }
  }

  // ----- the launch -----

  /** All tiles store their candidates into the flat buffers. */
  method Launch(logits: seq<real>, blockN: nat, top: nat, values: array<Num>, indices: array<nat>) returns (ghost sels: seq<seq<nat>>)
    requires blockN > 0 && |logits| + blockN <= SENTINEL
    requires values.Length == indices.Length == CeilDiv(|logits|, blockN) * top
    modifies values, indices
    ensures |sels| == CeilDiv(|logits|, blockN) && AllCandidates(logits, blockN, top, sels, values[..], indices[..])
  {
    hide Candidates;
    hide Slice;
    hide CeilDiv;
    sels := [];
    var tiles := CeilDiv(|logits|, blockN);
    for pid := 0 to tiles
      invariant |sels| == pid
      invariant forall p: nat :: p < pid ==>
        Candidates(logits, blockN, top, p, sels[p], Slice(values[..], top, p), Slice(indices[..], top, p))
    {
      TileStarts(|logits|, blockN, pid);
      RowBelow(pid, tiles, top);
      ghost var before, before' := values[..], indices[..];
      ghost var sel;
      var best, rows;
      sel, best, rows := HeadCandidates(logits, blockN, top, pid);
      CandidateSizes(logits, blockN, top, pid, sel, best, rows);
      StoreTile(values, top, pid, best);
      StoreTile(indices, top, pid, rows);
      forall p: nat | p < pid
        ensures Slice(values[..], top, p) == Slice(before, top, p) && Slice(indices[..], top, p) == Slice(before', top, p)
      {
        SliceKept(before, best, top, p, pid);
        SliceKept(before', rows, top, p, pid);
      }
      SliceIs(before, best, top, pid);
      SliceIs(before', rows, top, pid);
      sels := sels + [sel];
    }
  }

  lemma TileStarts(n: nat, b: nat, pid: nat)
    requires b > 0 && pid < CeilDiv(n, b)
    ensures pid * b < n
  {
    CeilDivBounds(n, b);
    MulMonotone(pid, CeilDiv(n, b) - 1, b);
  }

  lemma CandidateSizes(logits: seq<real>, blockN: nat, top: nat, pid: nat, sel: seq<nat>, values: seq<Num>, indices: seq<nat>)
    requires Candidates(logits, blockN, top, pid, sel, values, indices)
    ensures |values| == |indices| == top
  {
  }

  /** `flat` with the window of tile `pid` replaced. */
  ghost function Replaced<T>(flat: seq<T>, row: seq<T>, top: nat, pid: nat): seq<T>
    requires pid * top + top <= |flat|
  {
    flat[..pid * top] + row + flat[pid * top + top..]
  }

  method StoreTile<T>(flat: array<T>, top: nat, pid: nat, row: seq<T>)
    requires |row| == top && pid * top + top <= flat.Length
    modifies flat
    ensures flat[..] == Replaced(old(flat[..]), row, top, pid)
  {
    var base := pid * top;
    for r := 0 to top
      invariant forall k :: 0 <= k < flat.Length ==>
        flat[k] == if base <= k < base + r then row[k - base] else old(flat[..])[k]
    {
      flat[base + r] := row[r];
    }
  }

  lemma SliceKept<T>(flat: seq<T>, row: seq<T>, top: nat, p: nat, pid: nat)
    requires |row| == top && pid * top + top <= |flat| && p < pid
    ensures Slice(Replaced(flat, row, top, pid), top, p) == Slice(flat, top, p)
  {
    RowBelow(p, pid, top);
  }

  lemma SliceIs<T>(flat: seq<T>, row: seq<T>, top: nat, pid: nat)
    requires |row| == top && pid * top + top <= |flat|
    ensures Slice(Replaced(flat, row, top, pid), top, pid) == row
  {
  }

  // ----- the library's selections, and the whole call -----

  /** One way to keep the promise of `values.topk(k)`. */
  method LibraryTopK(values: seq<Num>, k: nat) returns (slots: seq<nat>)
    requires k <= |values| && forall y :: 0 <= y < |values| ==> !values[y].Undefined?
    ensures |slots| == k && TopSlots(values, slots)
  {
    slots := [];
    for rank := 0 to k
      invariant |slots| == rank && TopSlots(values, slots)
    {
      FreeSlot(values, slots);
      var best: nat :| best < |values| && best !in slots;
      for y := 0 to |values|
        invariant best < |values| && best !in slots
        invariant forall z: nat :: z < y && z !in slots ==> AtLeast(values[best], values[z])
      {
        if y !in slots && !AtLeast(values[best], values[y]) { best := y; }
      }
      slots := slots + [best];
    }
  }

  lemma FreeSlot(values: seq<Num>, slots: seq<nat>)
    requires TopSlots(values, slots) && |slots| < |values|
    ensures exists y: nat :: y < |values| && y !in slots
  {
    if forall y: nat :: y < |values| ==> y in slots {
      assert Range(0, |values|) <= PagedKV.Elems(slots);
      SubsetSize(Range(0, |values|), PagedKV.Elems(slots));
      ElemsAtMost(slots);
      assert false;
    }
  }

  /** `values.max(dim=0)` */
  method LibraryMax(values: seq<Num>) returns (slot: nat)
    requires values != [] && forall y :: 0 <= y < |values| ==> !values[y].Undefined?
    ensures FirstMax(values, slot)
  {
    slot := 0;
    for y := 1 to |values|
      invariant slot < y
      invariant forall z :: 0 <= z < y ==> AtLeast(values[slot], values[z])
      invariant forall z :: 0 <= z < slot ==> values[z] != values[slot]
    {
      if !AtLeast(values[slot], values[y]) { slot := y; }
    }
  }

  /** `int4_lm_head_topk`, from the logits that `_project` computes. */
  method LmHeadTopK(logits: seq<real>, topK: nat, blockN: nat) returns (r: Outcome<seq<nat>>)
    requires |logits| + blockN <= SENTINEL
    ensures r.Returns? <==> blockN in {8, 16, 32, 64} && 1 <= topK <= 8 && topK <= blockN && topK <= |logits|
    ensures r.Raises? ==> r.error == ValueError
    ensures r.Returns? ==> |r.value| == topK && IsTopK(logits, r.value)
    ensures r.Returns? && topK == 1 ==> forall x: nat :: x < |logits| && x != r.value[0] ==>
      logits[r.value[0]] > logits[x] || (logits[r.value[0]] == logits[x] && r.value[0] < x)
  {
    hide AllCandidates;
    hide TopSlots;
    hide FirstMax;
    hide CeilDiv;
    hide Before;
    if blockN !in {8, 16, 32, 64} { return Raises(ValueError); }
    if !(1 <= topK <= 8 && topK <= blockN && topK <= |logits|) { return Raises(ValueError); }
    var tiles := CeilDiv(|logits|, blockN);
    var values, indices := new Num[tiles * topK], new nat[tiles * topK];
    ghost var sels := Launch(logits, blockN, topK, values, indices);
    Defined(logits, blockN, topK, sels, values[..], indices[..]);
    MulMonotone(1, tiles, topK);
    if topK == 1 {
      var slot := LibraryMax(values[..]);
      TopOneIsLowest(logits, blockN, sels, values[..], indices[..], slot);
      LowestIsTopK(logits, indices[slot]);
      FirstInTerms(logits, indices[slot]);
      r := Returns([indices[slot]]);
    } else {
      var slots := LibraryTopK(values[..], topK);
      GlobalTopK(logits, blockN, topK, sels, values[..], indices[..], slots);
      r := Returns(RowsOf(indices[..], slots));
    }
  }

  lemma FirstInTerms(logits: seq<real>, row: nat)
    requires row < |logits| && forall x: nat :: x < |logits| && x != row ==> Before(logits, row, x)
    ensures forall x: nat :: x < |logits| && x != row ==> logits[row] > logits[x] || (logits[row] == logits[x] && row < x)
  {
    forall x: nat | x < |logits| && x != row
      ensures logits[row] > logits[x] || (logits[row] == logits[x] && row < x)
    {
      assert Before(logits, row, x);
    }
  }

  lemma LowestIsTopK(logits: seq<real>, row: nat)
    requires row < |logits| && forall x: nat :: x < |logits| && x != row ==> Before(logits, row, x)
    ensures IsTopK(logits, [row])
  {
    forall x: nat | x < |logits| && x !in [row]
      ensures logits[x] <= logits[row]
    {
      assert [row][0] == row;
      assert Before(logits, row, x);
    }
  }

  lemma Defined(logits: seq<real>, blockN: nat, top: nat, sels: seq<seq<nat>>, values: seq<Num>, indices: seq<nat>)
    requires AllCandidates(logits, blockN, top, sels, values, indices)
    ensures forall y :: 0 <= y < |values| ==> !values[y].Undefined?
  {
    hide AllCandidates;
    CandidateCount(logits, blockN, top, sels, values, indices);
    forall y | 0 <= y < |values|
      ensures !values[y].Undefined?
    {
      var pid, r := SlotOf(top, |sels|, y);
      SlotHolds(logits, blockN, top, sels, values, indices, pid, r);
    }
  }
}
