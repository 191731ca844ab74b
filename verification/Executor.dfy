/** serving/qwen_executor.py as functions on values: what prefill and decode write to the
    pages and to the temporary prefill caches, and what they read back. */
module Executor {
  import opened Basics
  import opened PagedKV
  import opened PagedStorage
  import opened Scheduler

  /** One row of logits, as one unknown value. */
  type Logits = int

  datatype Sample = Sample(token: Token, stopped: bool)

  /** The transformer and the sampler as unknown functions. The K/V row of a token depends on
      the token, its position and the rows before it; the logits depend on the last token and
      all rows; sample `k` of a request depends on its parameters, the logits, the history
      and `k`. */
  datatype Model = Model(
    kv: (Token, nat, seq<KV>) -> KV,
    logits: (Token, seq<KV>) -> Logits,
    sample: (Sampling, Logits, seq<Token>, nat) -> Sample)

  type Caches = map<Id, seq<KV>>

  /** A cache after a forward pass over `tokens`. */
  function Extend(m: Model, cache: seq<KV>, tokens: seq<Token>): (r: seq<KV>)
    ensures |r| == |cache| + |tokens|
    decreases |tokens|
  {
    if tokens == [] then cache
    else Extend(m, cache + [m.kv(tokens[0], |cache|, cache)], tokens[1..])
  }

  /** What a running model without pages holds after `tokens`. */
  function Context(m: Model, tokens: seq<Token>): (r: seq<KV>)
    ensures |r| == |tokens|
  {
    Extend(m, [], tokens)
  }

  function CacheOf(caches: Caches, id: Id): seq<KV> {
    if id in caches then caches[id] else []
  }

  // ----- reading through a block table -----

  predicate TableCovers(table: seq<int>, n: nat, blockSize: nat)
    requires blockSize > 0
  {
    CeilDiv(n, blockSize) <= |table| && forall b :: 0 <= b < CeilDiv(n, blockSize) ==> table[b] >= 0
  }

  /** One position of `materialize_paged_kv`. */
  function ReadCell(cells: Cells, table: seq<int>, blockSize: nat, p: nat): KV
    requires blockSize > 0
  {
    if p / blockSize < |table| && table[p / blockSize] >= 0 && (table[p / blockSize], p % blockSize) in cells
    then cells[(table[p / blockSize], p % blockSize)] else 0
  }

  function ReadThrough(cells: Cells, table: seq<int>, blockSize: nat, n: nat): (r: seq<KV>)
    requires blockSize > 0
    ensures |r| == n && forall p :: 0 <= p < n ==> r[p] == ReadCell(cells, table, blockSize, p)
  {
    seq(n, p requires 0 <= p => ReadCell(cells, table, blockSize, p))
  }

  // ----- decode -----

  /** Each row drops its prefill cache; metadata with host lengths is checked row by row. */
  function DropAndCheck(caches: Caches, work: seq<DecodeWork>, lengths: seq<nat>): (Caches, Option<Error>) {
    if lengths == [] then (caches - Elems(DecodeIds(work)), None) else CheckEach(caches, work, lengths)
  }

  function CheckEach(caches: Caches, work: seq<DecodeWork>, lengths: seq<nat>): (Caches, Option<Error>)
    decreases |work|
  {
    if work == [] then (caches, None)
    else
      var caches1 := caches - {work[0].id};
      if lengths == [] then (caches1, Some(IndexError))
      else if lengths[0] != work[0].position + 1 then (caches1, Some(ValueError))
      else CheckEach(caches1, work[1..], lengths[1..])
  }

  /** `_validate_slot` for each row. */
  function SlotError(p: Pool, work: seq<DecodeWork>): Option<Error>
    requires p.blockSize > 0
    decreases |work|
  {
    if work == [] then None
    else if work[0].id !in p.requests then Some(KeyError)
    else if work[0].position / p.blockSize >= |p.requests[work[0].id].blocks| ||
            work[0].slot != SlotAt(p.requests[work[0].id].blocks, p.blockSize, work[0].position)
    then Some(ValueError)
    else SlotError(p, work[1..])
  }

  function NewRow(m: Model, cells: Cells, blockSize: nat, w: DecodeWork, table: seq<int>): KV
    requires blockSize > 0
  {
    m.kv(w.token, w.position, ReadThrough(cells, table, blockSize, w.position))
  }

  /** Every row of the batch stores its new K/V before any row attends. */
  function WriteRows(m: Model, before: Cells, cells: Cells, blockSize: nat, work: seq<DecodeWork>, tables: seq<seq<int>>): Cells
    requires blockSize > 0 && |work| == |tables|
    decreases |work|
  {
    if work == [] then cells
    else WriteRows(m, before, cells[work[0].slot := NewRow(m, before, blockSize, work[0], tables[0])], blockSize, work[1..], tables[1..])
  }

  function AttendRows(m: Model, cells: Cells, blockSize: nat, work: seq<DecodeWork>, tables: seq<seq<int>>): map<Id, Logits>
    requires blockSize > 0 && |work| == |tables|
    decreases |work|
  {
    if work == [] then map[]
    else map[work[0].id := m.logits(work[0].token, ReadThrough(cells, tables[0], blockSize, work[0].position + 1))] +
         AttendRows(m, cells, blockSize, work[1..], tables[1..])
  }

  /** An executor failure part way leaves arbitrary values in the slots of the work. */
  function Smudge(cells: Cells, junk: map<Slot, KV>, slots: set<Slot>): Cells {
    cells + map s | s in junk && s in slots :: junk[s]
  }

  function DecodeSlots(work: seq<DecodeWork>): set<Slot> {
    set i | 0 <= i < |work| :: work[i].slot
  }

  function DecodeExec(m: Model, p: Pool, cells: Cells, caches: Caches, work: seq<DecodeWork>, meta: Metadata,
                      fault: Option<map<Slot, KV>>): (Cells, Caches, Outcome<map<Id, Logits>>)
    requires p.blockSize > 0
  {
    if |meta.ids| != |work| || |meta.tables| != |work| || exists i :: 0 <= i < |work| && meta.ids[i] != work[i].id
    then (cells, caches, Raises(ValueError))
    else
      var (caches1, misfit) := DropAndCheck(caches, work, meta.lengths);
      if misfit.Some? then (cells, caches1, Raises(misfit.value))
      else if work == [] then (cells, caches1, Raises(ValueError))
      else if SlotError(p, work).Some? then (cells, caches1, Raises(SlotError(p, work).value))
      else if exists i :: 0 <= i < |work| && !TableCovers(meta.tables[i], work[i].position + 1, p.blockSize)
      then (cells, caches1, Raises(ValueError))
      else if fault.Some? then (Smudge(cells, fault.value, DecodeSlots(work)), caches1, Raises(RuntimeError))
      else
        var cells1 := WriteRows(m, cells, cells, p.blockSize, work, meta.tables);
        (cells1, caches1, Returns(AttendRows(m, cells1, p.blockSize, work, meta.tables)))
  }

  // ----- prefill -----

  /** `_scatter_prefill`: row `start + i` of the cache goes to slot `i`. */
  function Scatter(cells: Cells, slots: seq<Slot>, rows: seq<KV>): Cells
    requires |slots| <= |rows|
    decreases |slots|
  {
    if slots == [] then cells else Scatter(cells[slots[0] := rows[0]], slots[1..], rows[1..])
  }

  /** `fault`: the item whose forward pass raises; `junk`: what a raise leaves in its slots. */
  function PrefillExec(m: Model, cells: Cells, caches: Caches, logits: map<Id, Logits>, work: seq<PrefillWork>,
                       fault: Option<nat>, junk: map<Slot, KV>): (Cells, Caches, Outcome<map<Id, Logits>>)
    decreases |work|
  {
    if work == [] then (cells, caches, Returns(logits))
    else
      var w := work[0];
      var past := CacheOf(caches, w.id);
      var cache := Extend(m, past, w.tokens);
      if fault == Some(0) then (Smudge(cells, junk, Elems(w.slots)), caches, Raises(RuntimeError))
      else if |past| != w.start || |w.slots| != |w.tokens| || w.tokens == [] then
        (Smudge(cells, junk, Elems(w.slots)), caches[w.id := cache], Raises(IndexError))
      else
        PrefillExec(m, Scatter(cells, w.slots, cache[w.start..]), caches[w.id := cache],
                    logits[w.id := m.logits(w.tokens[|w.tokens| - 1], cache)], work[1..],
                    if fault.Some? && fault.value > 0 then Some(fault.value - 1) else None, junk)
  }
}
