/** serving/qwen_executor.py, in place: `QwenPagedExecutor` writes the allocator's pages and its
    own prefill caches exactly as the functions of module Executor say. */
module PagedExecutor {
  import opened Basics
  import PagedKV
  import PagedStorage
  import Bits
  import opened Scheduler
  import opened Executor
  import opened Allocator

  type Id = PagedKV.Id
  type Slot = PagedKV.Slot
  type KV = PagedKV.KV

  class QwenPagedExecutor {
    const model: Model
    const allocator: PagedKVAllocator
    /** `_prefill_caches` */
    var caches: Caches

    ghost predicate Valid()
      reads this, allocator
    {
      allocator.Valid()
    }

    constructor (model: Model, allocator: PagedKVAllocator)
      requires allocator.Valid()
      ensures Valid() && this.model == model && this.allocator == allocator && caches == map[]
    {
      this.model := model;
      this.allocator := allocator;
      caches := map[];
    }

    /** `release`: drop a request's temporary cache. */
    method Release(id: Id)
      modifies this
      ensures caches == old(caches) - {id}
    {
      caches := caches - {id};
    }

    predicate InPages(slots: seq<Slot>)
    {
      forall i :: 0 <= i < |slots| ==> slots[i].0 < allocator.numBlocks && slots[i].1 < allocator.blockSize
    }

    /** One position read through a block table. */
    method ReadPage(table: seq<int>, p: nat) returns (row: KV)
      requires Valid() && allocator.blockSize > 0
      ensures row == ReadCell(allocator.Cells(), table, allocator.blockSize, p)
    {
      hide PagedKV.PoolInv;
      hide Bits.PowerOfTwo;
      var b, o := p / allocator.blockSize, p % allocator.blockSize;
      if b < |table| && 0 <= table[b] < allocator.numBlocks {
        row := allocator.keys[table[b], o];
      } else {
        row := 0;
      }
    }

    /** The first `n` positions of a request, in logical order. */
    method ReadPages(table: seq<int>, n: nat) returns (rows: seq<KV>)
      requires Valid() && allocator.blockSize > 0
      ensures rows == ReadThrough(allocator.Cells(), table, allocator.blockSize, n)
    {
      hide ReadCell;
      hide PagedKV.PoolInv;
      rows := [];
      for p := 0 to n
        invariant |rows| == p
        invariant forall q :: 0 <= q < p ==> rows[q] == ReadCell(allocator.Cells(), table, allocator.blockSize, q)
      {
        var row := ReadPage(table, p);
        rows := rows + [row];
      }
    }

    static lemma SmudgeNone(cells: PagedStorage.Cells, junk: map<Slot, KV>)
      ensures Smudge(cells, junk, PagedKV.Elems<Slot>([])) == cells
    {
    }

    static lemma ElemsMore<T>(xs: seq<T>, x: T)
      ensures PagedKV.Elems(xs + [x]) == PagedKV.Elems(xs) + {x}
    {
    }

    static lemma MergeAssociates(a: map<Id, Logits>, id: Id, row: Logits, c: map<Id, Logits>)
      ensures a + (map[id := row] + c) == a[id := row] + c
    {
    }

    static lemma SmudgeMore(cells: PagedStorage.Cells, junk: map<Slot, KV>, slots: set<Slot>, slot: Slot)
      ensures Smudge(cells, junk, slots + {slot}) ==
        if slot in junk then Smudge(cells, junk, slots)[slot := junk[slot]] else Smudge(cells, junk, slots)
    {
    }

    /** What a failing call may leave behind: arbitrary values, but only in its own slots. */
    method Smear(junk: map<Slot, KV>, slots: seq<Slot>)
      requires Valid() && InPages(slots)
      modifies allocator.keys
      ensures allocator.Cells() == Smudge(old(allocator.Cells()), junk, PagedKV.Elems(slots))
    {
      hide PagedKV.PoolInv;
      hide Smudge;
      hide PagedKV.Elems;
      ghost var before := allocator.Cells();
      SmudgeNone(before, junk);
      for i := 0 to |slots|
        invariant allocator.Cells() == Smudge(before, junk, PagedKV.Elems(slots[..i]))
      {
        assert slots[..i + 1] == slots[..i] + [slots[i]];
        ElemsMore(slots[..i], slots[i]);
        SmudgeMore(before, junk, PagedKV.Elems(slots[..i]), slots[i]);
        if slots[i] in junk { allocator.Store(slots[i], junk[slots[i]]); }
      }
      assert slots[..|slots|] == slots;
    }

    // ----- prefill -----

    /** `_scatter_prefill` */
    method ScatterPrefill(slots: seq<Slot>, rows: seq<KV>)
      requires Valid() && InPages(slots) && |slots| <= |rows|
      modifies allocator.keys
      ensures allocator.Cells() == Scatter(old(allocator.Cells()), slots, rows)
    {
      hide PagedKV.PoolInv;
      for i := 0 to |slots|
        invariant Scatter(allocator.Cells(), slots[i..], rows[i..]) == Scatter(old(allocator.Cells()), slots, rows)
      {
        allocator.Store(slots[i], rows[i]);
        assert slots[i..][1..] == slots[i + 1..] && rows[i..][1..] == rows[i + 1..];
      }
    }

    /** `fault` and `junk` are as in Executor.PrefillExec. */
    method Prefill(work: seq<PrefillWork>, fault: Option<nat>, junk: map<Slot, KV>) returns (r: Outcome<map<Id, Logits>>)
      requires Valid() && forall i :: 0 <= i < |work| ==> InPages(work[i].slots)
      modifies this, allocator.keys
      ensures (allocator.Cells(), caches, r) ==
        PrefillExec(model, old(allocator.Cells()), old(caches), map[], work, fault, junk)
    {
      hide PagedKV.PoolInv;
      hide Bits.PowerOfTwo;
      hide Scatter;
      hide Smudge;
      hide Extend;
      hide PrefillExec;
      var logits: map<Id, Logits> := map[];
      for i := 0 to |work|
        invariant PrefillExec(model, allocator.Cells(), caches, logits, work[i..], FaultAt(fault, i), junk) ==
          PrefillExec(model, old(allocator.Cells()), old(caches), map[], work, fault, junk)
      {
        var item := work[i];
        assert work[i..][1..] == work[i + 1..];
        PrefillItem(model, allocator.Cells(), caches, logits, work[i..], FaultAt(fault, i), junk);
        var past := CacheOf(caches, item.id);
        if fault == Some(i) {
          Smear(junk, item.slots);
          return Raises(RuntimeError);
        }
        var cache := Extend(model, past, item.tokens);
        caches := caches[item.id := cache];
        if |past| != item.start || |item.slots| != |item.tokens| || item.tokens == [] {
          Smear(junk, item.slots);
          return Raises(IndexError);
        }
        ScatterPrefill(item.slots, cache[item.start..]);
        logits := logits[item.id := model.logits(item.tokens[|item.tokens| - 1], cache)];
      }
      PrefillNone(model, allocator.Cells(), caches, logits, FaultAt(fault, |work|), junk);
      r := Returns(logits);
    }

    /** One item of a call: it raises before or after its cache is stored, or the rest follows. */
    static lemma PrefillItem(m: Model, cells: PagedStorage.Cells, caches: Caches, logits: map<Id, Logits>,
                             work: seq<PrefillWork>, fault: Option<nat>, junk: map<Slot, KV>)
      requires work != []
      ensures var w := work[0];
        var past := CacheOf(caches, w.id);
        var cache := Extend(m, past, w.tokens);
        var misfit := |past| != w.start || |w.slots| != |w.tokens| || w.tokens == [];
        PrefillExec(m, cells, caches, logits, work, fault, junk) ==
          if fault == Some(0) then (Smudge(cells, junk, PagedKV.Elems(w.slots)), caches, Raises(RuntimeError))
          else if misfit then (Smudge(cells, junk, PagedKV.Elems(w.slots)), caches[w.id := cache], Raises(IndexError))
          else PrefillExec(m, Scatter(cells, w.slots, cache[w.start..]), caches[w.id := cache],
                           logits[w.id := m.logits(w.tokens[|w.tokens| - 1], cache)], work[1..], FaultAt(fault, 1), junk)
    {
      hide Extend;
      hide Scatter;
      hide Smudge;
    }

    static lemma PrefillNone(m: Model, cells: PagedStorage.Cells, caches: Caches, logits: map<Id, Logits>,
                             fault: Option<nat>, junk: map<Slot, KV>)
      ensures PrefillExec(m, cells, caches, logits, [], fault, junk) == (cells, caches, Returns(logits))
    {
    }

    static ghost function FaultAt(fault: Option<nat>, i: nat): Option<nat> {
      if fault.Some? && fault.value >= i then Some(fault.value - i) else None
    }

    // ----- decode -----

    /** Each row drops its prefill cache and then checks its length, if the metadata has lengths. */
    method CheckLengths(work: seq<DecodeWork>, lengths: seq<nat>) returns (misfit: Option<Error>)
      modifies this
      ensures (caches, misfit) == DropAndCheck(old(caches), work, lengths)
    {
      for i := 0 to |work|
        invariant lengths == [] ==> caches == old(caches) - PagedKV.Elems(DecodeIds(work[..i]))
        invariant lengths != [] ==> i <= |lengths| && CheckEach(caches, work[i..], lengths[i..]) == CheckEach(old(caches), work, lengths)
      {
        assert work[i..][1..] == work[i + 1..];
        assert DecodeIds(work[..i + 1]) == DecodeIds(work[..i]) + [work[i].id];
        ElemsMore(DecodeIds(work[..i]), work[i].id);
        caches := caches - {work[i].id};
        if lengths != [] {
          if i == |lengths| { return Some(IndexError); }
          if lengths[i] != work[i].position + 1 { return Some(ValueError); }
          assert lengths[i..][1..] == lengths[i + 1..];
        }
      }
      assert work[..|work|] == work;
      misfit := None;
    }

    /** `_validate_slot` for every row. */
    method ValidateSlots(work: seq<DecodeWork>) returns (error: Option<Error>)
      requires allocator.blockSize > 0
      ensures error == SlotError(allocator.State(), work)
    {
      for i := 0 to |work|
        invariant SlotError(allocator.State(), work[i..]) == SlotError(allocator.State(), work)
      {
        assert work[i..][1..] == work[i + 1..];
        var item, bs := work[i], allocator.blockSize;
        if item.id !in allocator.requests { return Some(KeyError); }
        var blocks := allocator.requests[item.id].blocks;
        if item.position / bs >= |blocks| || item.slot != PagedKV.SlotAt(blocks, bs, item.position) {
          return Some(ValueError);
        }
      }
      error := None;
    }

    /** The rows that the new K/V of the batch will be, each reading its own past. */
    method NewRows(work: seq<DecodeWork>, tables: seq<seq<int>>) returns (rows: seq<KV>)
      requires Valid() && allocator.blockSize > 0 && |work| == |tables|
      ensures |rows| == |work|
      ensures forall i :: 0 <= i < |work| ==>
        rows[i] == NewRow(model, allocator.Cells(), allocator.blockSize, work[i], tables[i])
    {
      hide ReadThrough;
      rows := [];
      for i := 0 to |work|
        invariant |rows| == i
        invariant forall j :: 0 <= j < i ==>
          rows[j] == NewRow(model, allocator.Cells(), allocator.blockSize, work[j], tables[j])
      {
        var past := ReadPages(tables[i], work[i].position);
        rows := rows + [model.kv(work[i].token, work[i].position, past)];
      }
    }

    /** Store every new row, before any row attends. */
    method StoreRows(work: seq<DecodeWork>, tables: seq<seq<int>>)
      requires Valid() && allocator.blockSize > 0 && |work| == |tables| && InPages(SlotsOfRows(work))
      modifies allocator.keys
      ensures allocator.Cells() ==
        WriteRows(model, old(allocator.Cells()), old(allocator.Cells()), allocator.blockSize, work, tables)
    {
      hide PagedKV.PoolInv;
      hide NewRow;
      ghost var before := allocator.Cells();
      var rows := NewRows(work, tables);
      for i := 0 to |work|
        invariant WriteRows(model, before, allocator.Cells(), allocator.blockSize, work[i..], tables[i..]) ==
          WriteRows(model, before, before, allocator.blockSize, work, tables)
      {
        assert SlotsOfRows(work)[i] == work[i].slot;
        allocator.Store(work[i].slot, rows[i]);
        assert work[i..][1..] == work[i + 1..] && tables[i..][1..] == tables[i + 1..];
      }
    }

    static function SlotsOfRows(work: seq<DecodeWork>): (slots: seq<Slot>)
      ensures |slots| == |work| && forall i :: 0 <= i < |work| ==> slots[i] == work[i].slot
    {
      seq(|work|, i requires 0 <= i < |work| => work[i].slot)
    }

    method Attend(work: seq<DecodeWork>, tables: seq<seq<int>>) returns (logits: map<Id, Logits>)
      requires Valid() && allocator.blockSize > 0 && |work| == |tables|
      ensures logits == AttendRows(model, allocator.Cells(), allocator.blockSize, work, tables)
    {
      hide ReadThrough;
      hide AttendRows;
      logits := map[];
      NoneAttends(model, allocator.Cells(), allocator.blockSize);
      for i := 0 to |work|
        invariant logits + AttendRows(model, allocator.Cells(), allocator.blockSize, work[i..], tables[i..]) ==
          AttendRows(model, allocator.Cells(), allocator.blockSize, work, tables)
      {
        var item := work[i];
        var rows := ReadPages(tables[i], item.position + 1);
        assert work[i..][1..] == work[i + 1..] && tables[i..][1..] == tables[i + 1..];
        OneAttends(model, allocator.Cells(), allocator.blockSize, work[i..], tables[i..]);
        ghost var rest := AttendRows(model, allocator.Cells(), allocator.blockSize, work[i + 1..], tables[i + 1..]);
        MergeAssociates(logits, item.id, model.logits(item.token, rows), rest);
        logits := logits[item.id := model.logits(item.token, rows)];
      }
      assert logits + map[] == logits;
    }

    static lemma OneAttends(m: Model, cells: PagedStorage.Cells, blockSize: nat, work: seq<DecodeWork>, tables: seq<seq<int>>)
      requires blockSize > 0 && |work| == |tables| && work != []
      ensures AttendRows(m, cells, blockSize, work, tables) ==
        map[work[0].id := m.logits(work[0].token, ReadThrough(cells, tables[0], blockSize, work[0].position + 1))] +
        AttendRows(m, cells, blockSize, work[1..], tables[1..])
    {
      hide ReadThrough;
    }

    static lemma NoneAttends(m: Model, cells: PagedStorage.Cells, blockSize: nat)
      requires blockSize > 0
      ensures AttendRows(m, cells, blockSize, [], []) == map[]
    {
    }

    /** Validated slots lie in the pages. */
    lemma {:induction false} ValidatedInPages(work: seq<DecodeWork>)
      requires Valid() && allocator.blockSize > 0 && SlotError(allocator.State(), work).None?
      ensures InPages(SlotsOfRows(work))
    {
      hide PagedKV.AllocationOk;
      hide PagedKV.SlotAt;
      hide Bits.PowerOfTwo;
      if work != [] {
        ValidatedInPages(work[1..]);
        var p, w := allocator.State(), work[0];
        PagedStorage.SlotInPages(p, w.id, w.slot, w.position);
        assert forall i :: 0 < i < |work| ==> SlotsOfRows(work)[i] == SlotsOfRows(work[1..])[i - 1];
      }
    }

    /** `fault` is as in Executor.DecodeExec. */
    method Decode(work: seq<DecodeWork>, meta: PagedKV.Metadata, fault: Option<map<Slot, KV>>)
      returns (r: Outcome<map<Id, Logits>>)
      requires Valid() && allocator.blockSize > 0
      modifies this, allocator.keys
      ensures (allocator.Cells(), caches, r) ==
        DecodeExec(model, allocator.State(), old(allocator.Cells()), old(caches), work, meta, fault)
    {
      hide PagedKV.PoolInv;
      hide DropAndCheck;
      hide SlotError;
      hide WriteRows;
      hide AttendRows;
      hide Smudge;
      hide TableCovers;
      if |meta.ids| != |work| || |meta.tables| != |work| || exists i :: 0 <= i < |work| && meta.ids[i] != work[i].id {
        return Raises(ValueError);
      }
      var misfit := CheckLengths(work, meta.lengths);
      if misfit.Some? { return Raises(misfit.value); }
      if work == [] { return Raises(ValueError); }
      var error := ValidateSlots(work);
      if error.Some? { return Raises(error.value); }
      ValidatedInPages(work);
      if exists i :: 0 <= i < |work| && !TableCovers(meta.tables[i], work[i].position + 1, allocator.blockSize) {
        return Raises(ValueError);
      }
      if fault.Some? {
        Smear(fault.value, SlotsOfRows(work));
        assert DecodeSlots(work) == PagedKV.Elems(SlotsOfRows(work));
        return Raises(RuntimeError);
      }
      StoreRows(work, meta.tables);
      var logits := Attend(work, meta.tables);
      r := Returns(logits);
    }
  }
}
