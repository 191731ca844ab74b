/** serving/graph_buckets.py: the smallest registered bucket that covers a batch. */
module GraphBuckets {
  import opened Basics

  datatype Buckets = Buckets(batchSizes: seq<nat>, sequenceBuckets: seq<nat>)

  ghost predicate Increasing(q: seq<nat>) {
    forall i, j :: 0 <= i < j < |q| ==> q[i] < q[j]
  }

  /** `next((x for x in q if x >= n), None)` */
  function FirstAtLeast(q: seq<nat>, n: nat): (r: Option<nat>)
    ensures r.Some? ==> r.value in q && r.value >= n
    ensures r.None? ==> forall x :: x in q ==> x < n
  {
    if q == [] then None
    else
      assert forall x :: x in q <==> x == q[0] || x in q[1..];
      if q[0] >= n then Some(q[0]) else FirstAtLeast(q[1..], n)
  }

  /** On increasing buckets the first cover is the smallest cover. */
  lemma {:induction false} FirstIsSmallest(q: seq<nat>, n: nat)
    requires Increasing(q) && FirstAtLeast(q, n).Some?
    ensures forall x :: x in q && x >= n ==> FirstAtLeast(q, n).value <= x
  {
    assert forall x :: x in q <==> x == q[0] || x in q[1..];
    if q[0] < n {
      assert forall i :: 0 <= i < |q[1..]| ==> q[1..][i] == q[i + 1];
      FirstIsSmallest(q[1..], n);
    }
  }

  function Select(b: Buckets, batchSize: nat, sequenceLength: nat): (r: Option<(nat, nat)>)
    ensures r.Some? ==> r.value.0 >= batchSize && r.value.1 >= sequenceLength
  {
    var batch := FirstAtLeast(b.batchSizes, batchSize);
    var sequence := FirstAtLeast(b.sequenceBuckets, sequenceLength);
    if batch.None? || sequence.None? then None else Some((batch.value, sequence.value))
  }

  /** A bucket pair is selected exactly when both dimensions have a cover, and then it is
      the smallest one in both. */
  lemma SelectIsSmallestCover(b: Buckets, batchSize: nat, sequenceLength: nat)
    requires Increasing(b.batchSizes) && Increasing(b.sequenceBuckets)
    ensures Select(b, batchSize, sequenceLength).Some? <==>
      (exists x :: x in b.batchSizes && x >= batchSize) && (exists y :: y in b.sequenceBuckets && y >= sequenceLength)
    ensures Select(b, batchSize, sequenceLength).Some? ==>
      var r := Select(b, batchSize, sequenceLength).value;
      && r.0 in b.batchSizes && (forall x :: x in b.batchSizes && x >= batchSize ==> r.0 <= x)
      && r.1 in b.sequenceBuckets && (forall y :: y in b.sequenceBuckets && y >= sequenceLength ==> r.1 <= y)
  {
    if Select(b, batchSize, sequenceLength).Some? {
      FirstIsSmallest(b.batchSizes, batchSize);
      FirstIsSmallest(b.sequenceBuckets, sequenceLength);
    }
  }
}
