/** kernellab/analysis.py: the throughput-latency frontier of benchmark rows and the saturation
    point. */
module Frontier {
  import opened Basics

  /** One benchmark row: `dict.get` results are optional. */
  datatype Row = Row(name: string, throughput: real, latency: Option<real>, errorRate: Option<real>)
  {
    predicate ErrorFree() {
      errorRate == Some(0.0)
    }

    predicate Usable() {
      latency.Some? && ErrorFree()
    }
  }

  /** `other` is at least as good in both dimensions and better in one. */
  predicate Dominates(other: Row, row: Row)
    requires other.Usable() && row.Usable()
  {
    && other.throughput >= row.throughput && other.latency.value <= row.latency.value
    && (other.throughput > row.throughput || other.latency.value < row.latency.value)
  }

  predicate AllUsable(rows: seq<Row>) {
    forall i :: 0 <= i < |rows| ==> rows[i].Usable()
  }

  predicate Dominated(usable: seq<Row>, row: Row)
    requires AllUsable(usable) && row.Usable()
  {
    exists i :: 0 <= i < |usable| && Dominates(usable[i], row)
  }

  /** `[row for row in rows if ...]` */
  function UsableRows(rows: seq<Row>): (usable: seq<Row>)
    ensures AllUsable(usable)
    ensures forall row :: row in usable <==> row in rows && row.Usable()
  {
    if rows == [] then []
    else
      var rest := UsableRows(rows[1..]);
      assert rows == [rows[0]] + rows[1..];
      if rows[0].Usable() then [rows[0]] + rest else rest
  }

  // ----- sorting by latency -----

  function Insert(row: Row, sorted: seq<Row>): (r: seq<Row>)
    requires row.Usable() && AllUsable(sorted)
    ensures AllUsable(r) && multiset(r) == multiset(sorted) + multiset{row}
  {
    if sorted == [] || row.latency.value <= sorted[0].latency.value then [row] + sorted
    else
      assert sorted == [sorted[0]] + sorted[1..];
      [sorted[0]] + Insert(row, sorted[1..])
  }

  /** `sorted(rows, key=latency)`, stable. */
  function ByLatency(rows: seq<Row>): (r: seq<Row>)
    requires AllUsable(rows)
    ensures AllUsable(r) && multiset(r) == multiset(rows)
  {
    if rows == [] then []
    else
      assert rows == [rows[0]] + rows[1..];
      Insert(rows[0], ByLatency(rows[1..]))
  }

  ghost predicate SortedByLatency(rows: seq<Row>)
    requires AllUsable(rows)
  {
    forall i, j :: 0 <= i < j < |rows| ==> rows[i].latency.value <= rows[j].latency.value
  }

  lemma {:induction false} InsertSorted(row: Row, sorted: seq<Row>)
    requires row.Usable() && AllUsable(sorted) && SortedByLatency(sorted)
    ensures SortedByLatency(Insert(row, sorted))
  {
    if sorted != [] && row.latency.value > sorted[0].latency.value {
      var rest := Insert(row, sorted[1..]);
      InsertSorted(row, sorted[1..]);
      forall i | 0 <= i < |rest|
        ensures sorted[0].latency.value <= rest[i].latency.value
      {
        assert rest[i] in multiset(rest);
        assert rest[i] in multiset(sorted[1..]) || rest[i] == row;
      }
    }
  }

  lemma {:induction false} ByLatencySorted(rows: seq<Row>)
    requires AllUsable(rows)
    ensures SortedByLatency(ByLatency(rows))
  {
    if rows != [] {
      ByLatencySorted(rows[1..]);
      InsertSorted(rows[0], ByLatency(rows[1..]));
    }
  }

  // ----- the frontier -----

  /** The rows that nothing usable dominates, in their order. */
  function Undominated(usable: seq<Row>, candidates: seq<Row>): (r: seq<Row>)
    requires AllUsable(usable) && AllUsable(candidates)
    ensures AllUsable(r) && forall row :: row in r <==> row in candidates && !Dominated(usable, row)
  {
    if candidates == [] then []
    else
      var last := |candidates| - 1;
      assert candidates == candidates[..last] + [candidates[last]];
      var rest := Undominated(usable, candidates[..last]);
      if Dominated(usable, candidates[last]) then rest else rest + [candidates[last]]
  }

  /** The inner `any(...)` loop. */
  method IsDominated(usable: seq<Row>, candidate: Row) returns (dominated: bool)
    requires AllUsable(usable) && candidate.Usable()
    ensures dominated == Dominated(usable, candidate)
  {
    for i := 0 to |usable|
      invariant forall j :: 0 <= j < i ==> !Dominates(usable[j], candidate)
    {
      if Dominates(usable[i], candidate) { return true; }
    }
    dominated := false;
  }

  /** `throughput_latency_frontier`: exactly the undominated usable rows, by latency. Along the
      result throughput never falls. */
  method ThroughputLatencyFrontier(rows: seq<Row>) returns (frontier: seq<Row>)
    ensures AllUsable(frontier) && SortedByLatency(frontier)
    ensures multiset(frontier) == multiset(Undominated(UsableRows(rows), UsableRows(rows)))
    ensures forall i, j :: 0 <= i < j < |frontier| ==> frontier[i].throughput <= frontier[j].throughput
    ensures forall row :: multiset(frontier)[row] == if Best(rows, row) then multiset(rows)[row] else 0
    ensures forall latency :: AtLatency(frontier, latency) == AtLatency(Undominated(UsableRows(rows), UsableRows(rows)), latency)
  {
    hide Best;
    var usable := UsableRows(rows);
    var found: seq<Row> := [];
    for i := 0 to |usable|
      invariant found == Undominated(usable, usable[..i])
    {
      var dominated := IsDominated(usable, usable[i]);
      assert usable[..i + 1][..i] == usable[..i];
      if !dominated { found := found + [usable[i]]; }
    }
    assert usable[..|usable|] == usable;
    frontier := ByLatency(found);
    ByLatencySorted(found);
    ThroughputRises(usable, frontier);
    forall row { BestCount(rows, row); }
    forall latency { SortKeeps(found, latency); }
  }

  // ----- the frontier in terms of the rows -----

  /** `row` has a latency and an error rate of zero, and no such row is at least as good in both
      dimensions and better in one. */
  ghost predicate Best(rows: seq<Row>, row: Row) {
    && row.latency.Some? && row.errorRate == Some(0.0)
    && forall i :: 0 <= i < |rows| && rows[i].latency.Some? && rows[i].errorRate == Some(0.0) ==>
         !(rows[i].throughput >= row.throughput && rows[i].latency.value <= row.latency.value
           && (rows[i].throughput > row.throughput || rows[i].latency.value < row.latency.value))
  }

  lemma {:induction false} UsableCount(rows: seq<Row>, row: Row)
    ensures multiset(UsableRows(rows))[row] == if row.Usable() then multiset(rows)[row] else 0
  {
    if rows != [] {
      UsableCount(rows[1..], row);
      assert rows == [rows[0]] + rows[1..];
    }
  }

  lemma {:induction false} UndominatedCount(usable: seq<Row>, candidates: seq<Row>, row: Row)
    requires AllUsable(usable) && AllUsable(candidates) && row.Usable()
    ensures multiset(Undominated(usable, candidates))[row] == if Dominated(usable, row) then 0 else multiset(candidates)[row]
  {
    hide Dominated;
    hide AllUsable;
    if candidates != [] {
      var last := |candidates| - 1;
      LastUsable(candidates);
      UndominatedCount(usable, candidates[..last], row);
      UndominatedLast(usable, candidates);
      assert candidates == candidates[..last] + [candidates[last]];
    }
  }

  lemma LastUsable(candidates: seq<Row>)
    requires AllUsable(candidates) && candidates != []
    ensures AllUsable(candidates[..|candidates| - 1]) && candidates[|candidates| - 1].Usable()
  {
  }

  lemma UndominatedLast(usable: seq<Row>, candidates: seq<Row>)
    requires AllUsable(usable) && AllUsable(candidates) && candidates != []
    ensures AllUsable(candidates[..|candidates| - 1]) && candidates[|candidates| - 1].Usable()
    ensures var last := |candidates| - 1;
      Undominated(usable, candidates) ==
        Undominated(usable, candidates[..last]) + if Dominated(usable, candidates[last]) then [] else [candidates[last]]
  {
  }

  lemma BestIs(rows: seq<Row>, row: Row)
    ensures Best(rows, row) <==> row.Usable() && !Dominated(UsableRows(rows), row)
  {
    if row.Usable() && Dominated(UsableRows(rows), row) {
      var k :| 0 <= k < |UsableRows(rows)| && Dominates(UsableRows(rows)[k], row);
      assert UsableRows(rows)[k] in UsableRows(rows);
      var i :| 0 <= i < |rows| && rows[i] == UsableRows(rows)[k];
    }
    if row.Usable() && !Dominated(UsableRows(rows), row) {
      forall i | 0 <= i < |rows| && rows[i].latency.Some? && rows[i].errorRate == Some(0.0)
        ensures !Dominates(rows[i], row)
      {
        assert rows[i] in UsableRows(rows);
        var k :| 0 <= k < |UsableRows(rows)| && UsableRows(rows)[k] == rows[i];
      }
    }
  }

  lemma BestCount(rows: seq<Row>, row: Row)
    ensures multiset(Undominated(UsableRows(rows), UsableRows(rows)))[row] == if Best(rows, row) then multiset(rows)[row] else 0
  {
    hide Best;
    BestIs(rows, row);
    UsableCount(rows, row);
    var usable := UsableRows(rows);
    if row.Usable() {
      UndominatedCount(usable, usable, row);
    } else {
      assert row !in Undominated(usable, usable);
    }
  }

  /** The rows of one latency, in their order. */
  function AtLatency(rows: seq<Row>, latency: real): seq<Row> {
    if rows == [] then []
    else (if rows[0].latency == Some(latency) then [rows[0]] else []) + AtLatency(rows[1..], latency)
  }

  lemma {:induction false} InsertKeeps(row: Row, sorted: seq<Row>, latency: real)
    requires row.Usable() && AllUsable(sorted) && SortedByLatency(sorted)
    ensures AtLatency(Insert(row, sorted), latency) == AtLatency([row] + sorted, latency)
  {
    hide Insert;
    hide AtLatency;
    if sorted == [] || row.latency.value <= sorted[0].latency.value {
      InsertFront(row, sorted);
    } else {
      InsertPast(row, sorted);
      InsertKeeps(row, sorted[1..], latency);
      SwapApart(row, sorted[0], sorted[1..], Insert(row, sorted[1..]), latency);
      assert sorted == [sorted[0]] + sorted[1..];
    }
  }

  /** Rows of different latencies may change places. */
  lemma SwapApart(row: Row, first: Row, rest: seq<Row>, inserted: seq<Row>, latency: real)
    requires row.latency.Some? && first.latency.Some? && row.latency.value > first.latency.value
    requires AtLatency(inserted, latency) == AtLatency([row] + rest, latency)
    ensures AtLatency([first] + inserted, latency) == AtLatency([row] + ([first] + rest), latency)
  {
    hide AtLatency;
    AtLatencyHead(first, inserted, latency);
    AtLatencyHead(row, rest, latency);
    AtLatencyHead(row, [first] + rest, latency);
    AtLatencyHead(first, rest, latency);
  }

  lemma InsertFront(row: Row, sorted: seq<Row>)
    requires row.Usable() && AllUsable(sorted) && (sorted == [] || row.latency.value <= sorted[0].latency.value)
    ensures Insert(row, sorted) == [row] + sorted
  {
  }

  lemma InsertPast(row: Row, sorted: seq<Row>)
    requires row.Usable() && AllUsable(sorted) && sorted != [] && row.latency.value > sorted[0].latency.value
    ensures Insert(row, sorted) == [sorted[0]] + Insert(row, sorted[1..])
  {
  }

  lemma AtLatencyHead(row: Row, rest: seq<Row>, latency: real)
    ensures AtLatency([row] + rest, latency) == (if row.latency == Some(latency) then [row] else []) + AtLatency(rest, latency)
  {
    assert ([row] + rest)[1..] == rest;
  }

  lemma {:induction false} SortKeeps(rows: seq<Row>, latency: real)
    requires AllUsable(rows)
    ensures AtLatency(ByLatency(rows), latency) == AtLatency(rows, latency)
  {
    if rows != [] {
      SortKeeps(rows[1..], latency);
      ByLatencySorted(rows[1..]);
      InsertKeeps(rows[0], ByLatency(rows[1..]), latency);
      assert ([rows[0]] + ByLatency(rows[1..]))[1..] == ByLatency(rows[1..]);
    }
  }

  lemma ThroughputRises(usable: seq<Row>, frontier: seq<Row>)
    requires AllUsable(usable) && AllUsable(frontier) && SortedByLatency(frontier)
    requires multiset(frontier) == multiset(Undominated(usable, usable))
    ensures forall i, j :: 0 <= i < j < |frontier| ==> frontier[i].throughput <= frontier[j].throughput
  {
    forall i, j | 0 <= i < j < |frontier|
      ensures frontier[i].throughput <= frontier[j].throughput
    {
      OnFrontier(usable, frontier, i);
      OnFrontier(usable, frontier, j);
      NoFaster(usable, frontier[i], frontier[j]);
    }
  }

  lemma OnFrontier(usable: seq<Row>, frontier: seq<Row>, i: nat)
    requires AllUsable(usable) && AllUsable(frontier) && multiset(frontier) == multiset(Undominated(usable, usable)) && i < |frontier|
    ensures frontier[i] in usable && !Dominated(usable, frontier[i])
  {
    assert frontier[i] in multiset(frontier);
    assert frontier[i] in Undominated(usable, usable);
  }

  lemma NoFaster(usable: seq<Row>, a: Row, b: Row)
    requires AllUsable(usable) && a in usable && a.Usable() && b.Usable() && !Dominated(usable, b)
    requires a.latency.value <= b.latency.value
    ensures a.throughput <= b.throughput
  {
    var k :| 0 <= k < |usable| && usable[k] == a;
    assert !Dominates(usable[k], b);
  }

  // ----- exactness -----

  /** The usable rows that dominate `row`, by index. */
  ghost function Dominators(usable: seq<Row>, row: Row): set<int>
    requires AllUsable(usable) && row.Usable()
  {
    set i | 0 <= i < |usable| && Dominates(usable[i], row)
  }

  /** A dominated row is dominated by an undominated one. */
  lemma {:induction false} DominatedByBest(usable: seq<Row>, row: Row) returns (best: Row)
    requires AllUsable(usable) && row.Usable() && Dominated(usable, row)
    ensures best in usable && best.Usable() && Dominates(best, row) && !Dominated(usable, best)
    decreases |Dominators(usable, row)|
  {
    var i :| 0 <= i < |usable| && Dominates(usable[i], row);
    if Dominated(usable, usable[i]) {
      assert i in Dominators(usable, row) && i !in Dominators(usable, usable[i]);
      assert Dominators(usable, usable[i]) <= Dominators(usable, row) - {i};
      SubsetSize(Dominators(usable, usable[i]), Dominators(usable, row) - {i});
      best := DominatedByBest(usable, usable[i]);
    } else {
      best := usable[i];
    }
  }

  /** The frontier is exact: every returned row is usable and undominated, and every usable row is
      returned or dominated by a returned row. */
  lemma FrontierExact(rows: seq<Row>, row: Row)
    ensures var usable := UsableRows(rows);
      var frontier := Undominated(usable, usable);
      && (row in frontier <==> row in usable && !Dominated(usable, row))
      && (row in usable ==> row in frontier || exists best :: best in frontier && Dominates(best, row))
  {
    var usable := UsableRows(rows);
    if row in usable && Dominated(usable, row) {
      var best := DominatedByBest(usable, row);
      assert best in Undominated(usable, usable);
    }
  }

  /** The greatest usable throughput is on the frontier. */
  lemma FrontierPeaks(rows: seq<Row>, row: Row)
    requires row in rows && row.Usable()
    ensures exists best :: best in Undominated(UsableRows(rows), UsableRows(rows)) && best.throughput >= row.throughput
  {
    FrontierExact(rows, row);
  }

  /** `saturation_point`: the first error-free row with the greatest throughput. */
  method SaturationPoint(rows: seq<Row>) returns (best: Option<nat>)
    ensures best.None? <==> forall i :: 0 <= i < |rows| ==> rows[i].errorRate != Some(0.0)
    ensures best.Some? ==> best.value < |rows| && rows[best.value].errorRate == Some(0.0)
    ensures best.Some? ==> forall i :: 0 <= i < |rows| && rows[i].errorRate == Some(0.0) ==>
      rows[i].throughput <= rows[best.value].throughput && (i < best.value ==> rows[i].throughput < rows[best.value].throughput)
  {
    best := None;
    for i := 0 to |rows|
      invariant best.None? <==> forall j :: 0 <= j < i ==> !rows[j].ErrorFree()
      invariant best.Some? ==> best.value < i && rows[best.value].ErrorFree()
      invariant best.Some? ==> forall j :: 0 <= j < i && rows[j].ErrorFree() ==>
        rows[j].throughput <= rows[best.value].throughput && (j < best.value ==> rows[j].throughput < rows[best.value].throughput)
    {
      if rows[i].ErrorFree() && (best.None? || rows[i].throughput > rows[best.value].throughput) { best := Some(i); }
    }
  }
}
