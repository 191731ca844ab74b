/** Vocabulary shared by the serving modules: outcomes of calls that may raise,
    duplicate-free queues, sums over maps, and rounding up to whole blocks. */
module Basics {
  datatype Option<+T> = None | Some(value: T)

  /** The Python exception classes the serving code raises. */
  datatype Error = ValueError | KeyError | IndexError | MemoryError | AdmissionError | RuntimeError | ZeroDivisionError

  datatype Outcome<+T> = Returns(value: T) | Raises(error: Error)

  /** `dict.get(key)` */
  function Get<K, V>(m: map<K, V>, k: K): Option<V> {
    if k in m then Some(m[k]) else None
  }

  // ----- rounding up -----

  /** How many pieces of size `b` cover `a`: `math.ceil(a / b)`, `triton.cdiv(a, b)`. */
  function CeilDiv(a: nat, b: nat): (q: nat)
    requires b > 0
    ensures a == 0 <==> q == 0
  {
    if a == 0 then 0 else if a <= b then 1 else 1 + CeilDiv(a - b, b)
  }

  lemma {:induction false} CeilDivBounds(a: nat, b: nat)
    requires b > 0
    ensures CeilDiv(a, b) * b >= a
    ensures a > 0 ==> (CeilDiv(a, b) - 1) * b < a
  {
    if a > b {
      var q := CeilDiv(a - b, b);
      CeilDivBounds(a - b, b);
      assert (1 + q) * b == b + q * b;
      assert q * b == (q - 1) * b + b;
    }
  }

  lemma {:induction false} CeilDivMonotone(a: nat, c: nat, b: nat)
    requires b > 0 && a <= c
    ensures CeilDiv(a, b) <= CeilDiv(c, b)
  {
    if a > b {
      CeilDivMonotone(a - b, c - b, b);
    }
  }

  lemma DivStep(p: nat, b: nat)
    requires b > 0 && p >= b
    ensures p / b == (p - b) / b + 1
    ensures p % b == (p - b) % b
  {
    var q := (p - b) / b;
    assert p == (q + 1) * b + (p - b) % b;
    DivIs(p, b, q + 1, (p - b) % b);
  }

  lemma DivIs(p: nat, b: nat, q: nat, r: nat)
    requires r < b && p == q * b + r
    ensures p / b == q && p % b == r
  {
    var d := p / b;
    assert (d + 1) * b == d * b + b;
    assert (q + 1) * b == q * b + b;
    if d < q {
      MulMonotone(d + 1, q, b);
    } else if d > q {
      MulMonotone(q + 1, d, b);
    }
  }

  /** A position is its block and its offset. */
  lemma DivModInjective(i: nat, j: nat, b: nat)
    requires b > 0 && i / b == j / b && i % b == j % b
    ensures i == j
  {
    assert i == (i / b) * b + i % b;
    assert j == (j / b) * b + j % b;
  }

  lemma ZeroProduct(a: nat, b: nat)
    ensures a == 0 || b == 0 ==> a * b == 0
  {
  }

  lemma MulMonotone(a: nat, b: nat, c: nat)
    requires a <= b
    ensures a * c <= b * c
  {
    assert b * c == a * c + (b - a) * c;
  }

  lemma QuotientBelow(x: nat, count: nat, size: nat)
    requires size > 0 && x < count * size
    ensures x / size < count
  {
    assert x == (x / size) * size + x % size;
    if x / size >= count { MulMonotone(count, x / size, size); }
  }

  /** Row `r` of a flat buffer ends inside the buffer. */
  lemma RowBelow(r: nat, rows: nat, width: nat)
    requires r < rows
    ensures r * width + width <= rows * width
  {
    MulMonotone(r + 1, rows, width);
    assert (r + 1) * width == r * width + width;
  }

  lemma NatTimes(a: nat, b: nat)
    ensures a * b >= 0
  {
  }

  /** Every position below a length falls into one of the blocks that cover the length. */
  lemma {:induction false} PositionInBlocks(p: nat, length: nat, b: nat)
    requires b > 0 && p < length
    ensures p / b < CeilDiv(length, b)
    decreases p
  {
    if p >= b {
      DivStep(p, b);
      PositionInBlocks(p - b, length - b, b);
    } else {
      DivIs(p, b, 0, p);
    }
  }

  // ----- sets and queues -----

  /** `range(lo, hi)` as a set. */
  function Range(lo: int, hi: int): (s: set<int>)
    ensures |s| == if lo <= hi then hi - lo else 0
    ensures forall t :: t in s <==> lo <= t < hi
    decreases hi - lo
  {
    if lo >= hi then {} else assert hi - 1 !in Range(lo, hi - 1); Range(lo, hi - 1) + {hi - 1}
  }

  lemma {:induction false} SubsetSize<T>(s: set<T>, t: set<T>)
    requires s <= t
    ensures |s| <= |t|
  {
    if s != {} {
      var x :| x in s;
      SubsetSize(s - {x}, t - {x});
    }
  }

  ghost predicate NoDup<T>(q: seq<T>) {
    forall i, j :: 0 <= i < j < |q| ==> q[i] != q[j]
  }

  /** `deque.remove(value)` with the ValueError of a missing value swallowed. */
  function Remove<T(==)>(q: seq<T>, x: T): (r: seq<T>) {
    if q == [] then []
    else if q[0] == x then q[1..]
    else [q[0]] + Remove(q[1..], x)
  }

  lemma {:induction false} RemoveMembers<T>(q: seq<T>, x: T)
    requires NoDup(q)
    ensures NoDup(Remove(q, x))
    ensures forall y :: y in Remove(q, x) <==> y in q && y != x
    ensures |Remove(q, x)| == if x in q then |q| - 1 else |q|
  {
    if q != [] {
      if q[0] == x {
        assert forall y :: y in q <==> y == q[0] || y in q[1..];
      } else {
        RemoveMembers(q[1..], x);
        assert forall y :: y in q <==> y == q[0] || y in q[1..];
        var r := Remove(q[1..], x);
        assert q[0] !in r;
      }
    }
  }

  lemma NoDupTail<T>(x: T, rest: seq<T>)
    requires NoDup([x] + rest)
    ensures NoDup(rest) && x !in rest
  {
    var q := [x] + rest;
    forall i | 0 <= i < |rest|
      ensures rest[i] != x
      ensures forall j :: i < j < |rest| ==> rest[i] != rest[j]
    {
      assert q[i + 1] == rest[i] && q[0] == x;
      assert forall j :: i < j < |rest| ==> q[j + 1] == rest[j];
    }
  }

  lemma NoDupParts<T>(a: seq<T>, b: seq<T>)
    requires NoDup(a + b)
    ensures NoDup(a) && NoDup(b)
    ensures forall x :: x in a ==> x !in b
  {
    var q := a + b;
    forall i, j | 0 <= i < j < |a|
      ensures a[i] != a[j]
    {
      assert q[i] == a[i] && q[j] == a[j];
    }
    forall i, j | 0 <= i < j < |b|
      ensures b[i] != b[j]
    {
      assert q[|a| + i] == b[i] && q[|a| + j] == b[j];
    }
    forall x | x in a
      ensures x !in b
    {
      var i :| 0 <= i < |a| && a[i] == x;
      assert q[i] == x;
      assert forall j :: 0 <= j < |b| ==> q[|a| + j] == b[j];
    }
  }

  lemma RotateMembers<T>(q: seq<T>)
    requires q != [] && NoDup(q)
    ensures NoDup(q[1..] + [q[0]])
    ensures forall y :: y in q[1..] + [q[0]] <==> y in q
  {
    assert q == [q[0]] + q[1..];
  }

  // ----- sums over finite maps -----

  ghost function SumMap<K(!new)>(m: map<K, nat>): nat {
    if m == map[] then 0
    else
      var k :| k in m;
      m[k] + SumMap(m - {k})
  }

  lemma {:induction false} SumMapTake<K(!new)>(m: map<K, nat>, k: K)
    requires k in m
    ensures SumMap(m) == m[k] + SumMap(m - {k})
    decreases |m|
  {
    var j :| j in m && SumMap(m) == m[j] + SumMap(m - {j});
    if j != k {
      assert k in m - {j} && j in m - {k};
      SumMapTake(m - {j}, k);
      SumMapTake(m - {k}, j);
      assert m - {j} - {k} == m - {k} - {j};
    }
  }

  lemma SumMapPut<K(!new)>(m: map<K, nat>, k: K, v: nat)
    ensures SumMap(m[k := v]) == SumMap(m - {k}) + v
  {
    SumMapTake(m[k := v], k);
    assert m[k := v] - {k} == m - {k};
  }

  lemma SumMapDrop<K(!new)>(m: map<K, nat>, k: K)
    ensures SumMap(m - {k}) == SumMap(m) - (if k in m then m[k] else 0)
  {
    if k in m {
      SumMapTake(m, k);
    } else {
      assert m - {k} == m;
    }
  }

  lemma {:induction false} SumMapBelow<K(!new)>(m: map<K, nat>, n: map<K, nat>)
    requires m.Keys == n.Keys
    requires forall k :: k in m ==> m[k] <= n[k]
    ensures SumMap(m) <= SumMap(n)
    decreases |m|
  {
    if m == map[] {
      assert n == map[];
    } else {
      var k :| k in m;
      SumMapTake(m, k);
      SumMapTake(n, k);
      SumMapBelow(m - {k}, n - {k});
    }
  }
}
