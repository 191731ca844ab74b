/** serving/paged_kv.py, in place: `PagedKVAllocator` with its heap, its dict and its pages. */
module Allocator {
  import opened Basics
  import opened Bits
  import opened PagedKV
  import opened PagedStorage

  class PagedKVAllocator {
    const numBlocks: nat
    const blockSize: nat
    /** The heap `_free`. */
    var free: set<nat>
    /** The dict `_requests`. */
    var requests: map<Id, Allocation>
    /** The K/V pages: one row pair per block and offset. */
    const keys: array2<KV>

    ghost predicate Valid()
      reads this
    {
      && numBlocks > 0 && PowerOfTwo(blockSize)
      && keys.Length0 == numBlocks && keys.Length1 == blockSize
      && PoolInv(State())
    }

    function State(): Pool
      reads this
    {
      Pool(numBlocks, blockSize, free, requests)
    }

    /** The contents of the pages. */
    ghost function Cells(): Cells
      reads keys
    {
      map b: nat, o: nat | b < keys.Length0 && o < keys.Length1 :: (b, o) := keys[b, o]
    }

    constructor (numBlocks: nat, blockSize: nat)
      requires numBlocks > 0 && blockSize > 0 && BitAnd(blockSize, blockSize - 1) == 0
      ensures Valid() && fresh(keys)
      ensures State() == EmptyPool(numBlocks, blockSize) && StorageOk(State(), Cells())
    {
      this.numBlocks := numBlocks;
      this.blockSize := blockSize;
      free := Range(0, numBlocks);
      requests := map[];
      keys := new KV[numBlocks, blockSize];
      new;
      PowerOfTwoTest(blockSize);
      EmptyPoolInv(numBlocks, blockSize);
    }

    /** The constructor's checks: sizes that are not positive, or blocks that are no power of two,
        are refused. */
    static method Make(numBlocks: int, blockSize: int) returns (r: Outcome<PagedKVAllocator>)
      ensures r.Returns? <==> numBlocks > 0 && blockSize > 0 && PowerOfTwo(blockSize)
      ensures r.Raises? ==> r.error == ValueError
      ensures r.Returns? ==> fresh(r.value) && r.value.Valid() && r.value.State() == EmptyPool(numBlocks, blockSize)
    {
      if numBlocks <= 0 || blockSize <= 0 { return Raises(ValueError); }
      PowerOfTwoTest(blockSize);
      if BitAnd(blockSize, blockSize - 1) != 0 { return Raises(ValueError); }
      var a := new PagedKVAllocator(numBlocks, blockSize);
      r := Returns(a);
    }

    method Create(id: Id) returns (r: Outcome<()>)
      requires Valid()
      modifies this`requests
      ensures Valid() && (State(), r) == PagedKV.Create(old(State()), id)
    {
      CreateKeeps(State(), id);
      if id == "" || id in requests { return Raises(ValueError); }
      requests := requests[id := Allocation([], 0)];
      r := Returns(());
    }

    /** `heapq.heappop` */
    method HeapPop() returns (b: nat)
      requires free != {}
      modifies this`free
      ensures b == Min(old(free)) && free == old(free) - {b}
    {
      MinExists(free);
      b :| b in free && forall x :: x in free ==> b <= x;
      assert b == Min(free);
      free := free - {b};
    }

    /** Popping in a loop hands out the lowest blocks. */
    method PopBlocks(count: nat) returns (blocks: seq<nat>)
      requires count <= |free|
      modifies this`free
      ensures blocks == Lowest(old(free), count) && free == old(free) - Elems(blocks)
    {
      blocks := [];
      ghost var all := Lowest(free, count);
      for i := 0 to count
        invariant count - i <= |free|
        invariant blocks + Lowest(free, count - i) == all
        invariant free == old(free) - Elems(blocks)
      {
        var b := HeapPop();
        assert blocks + ([b] + Lowest(free, count - i - 1)) == blocks + [b] + Lowest(free, count - i - 1);
        assert Elems(blocks + [b]) == Elems(blocks) + {b};
        blocks := blocks + [b];
      }
    }

    /** One position's slot: its block, and the offset masked out of the position. */
    method SlotOf(blocks: seq<nat>, position: nat, hi: nat) returns (slot: Slot)
      requires blockSize > 0 && PowerOfTwo(blockSize) && position < hi && CeilDiv(hi, blockSize) <= |blocks|
      ensures position / blockSize < |blocks| && slot == SlotAt(blocks, blockSize, position)
    {
      hide BitAnd;
      hide PowerOfTwo;
      hide CeilDiv;
      PositionInBlocks(position, hi, blockSize);
      MaskIsOffset(position, blockSize);
      slot := (blocks[position / blockSize], BitAnd(position, blockSize - 1));
    }

    /** The slots of positions `lo..hi`, with the offset masked out of the position. */
    method SlotsOf(blocks: seq<nat>, lo: nat, hi: nat) returns (slots: seq<Slot>)
      requires blockSize > 0 && PowerOfTwo(blockSize) && lo <= hi && CeilDiv(hi, blockSize) <= |blocks|
      ensures slots == SlotRange(blocks, blockSize, lo, hi)
    {
      hide BitAnd;
      hide PowerOfTwo;
      slots := [];
      for position := lo to hi
        invariant slots + SlotRange(blocks, blockSize, position, hi) == SlotRange(blocks, blockSize, lo, hi)
      {
        var slot := SlotOf(blocks, position, hi);
        assert slots + ([slot] + SlotRange(blocks, blockSize, position + 1, hi)) == slots + [slot] + SlotRange(blocks, blockSize, position + 1, hi);
        slots := slots + [slot];
      }
    }

    method AppendSlots(id: Id, count: int) returns (r: Outcome<seq<Slot>>)
      requires Valid()
      modifies this`free, this`requests
      ensures Valid() && (State(), r) == PagedKV.AppendSlots(old(State()), id, count)
    {
      hide PoolInv;
      hide PowerOfTwo;
      hide PagedKV.AppendSlots;
      hide CeilDiv;
      hide Lowest;
      hide Elems;
      AppendRefuses(id, count);
      if count < 0 { return Raises(ValueError); }
      if id !in requests { return Raises(KeyError); }
      AppendKeeps(State(), id, count);
      var allocation := requests[id];
      var final := allocation.length + count;
      var additional := CeilDiv(final, blockSize) - |allocation.blocks|;
      if additional > |free| { return Raises(MemoryError); }
      ghost var taken := Takes(id, count);
      var popped := PopBlocks(if additional > 0 then additional else 0);
      var blocks := allocation.blocks + popped;
      var slots := SlotsOf(blocks, allocation.length, final);
      requests := requests[id := Allocation(blocks, final)];
      r := Returns(slots);
    }

    /** When a reservation is refused. */
    lemma AppendRefuses(id: Id, count: int)
      requires Valid()
      ensures blockSize > 0
      ensures count < 0 ==> PagedKV.AppendSlots(State(), id, count) == (State(), Raises(ValueError))
      ensures count >= 0 && id !in requests ==> PagedKV.AppendSlots(State(), id, count) == (State(), Raises(KeyError))
      ensures count >= 0 && id in requests && Additional(State(), id, count) > |free| ==>
        PagedKV.AppendSlots(State(), id, count) == (State(), Raises(MemoryError))
    {
    }

    /** What a reservation that fits takes. */
    lemma Takes(id: Id, count: nat) returns (taken: seq<nat>)
      requires Valid() && id in requests && Additional(State(), id, count) <= |free|
      ensures Additional(State(), id, count) >= 0
      ensures taken == Lowest(free, Additional(State(), id, count))
      ensures CeilDiv(requests[id].length + count, blockSize) == |requests[id].blocks + taken|
      ensures PagedKV.AppendSlots(State(), id, count) == (Grown(State(), id, count, taken),
        Returns(SlotRange(requests[id].blocks + taken, blockSize, requests[id].length, requests[id].length + count)))
    {
      taken := AppendShape(State(), id, count);
    }

    /** Returns whether the request had an allocation. */
    method Release(id: Id) returns (released: bool)
      requires Valid()
      modifies this`free, this`requests
      ensures Valid() && (State(), released) == PagedKV.Release(old(State()), id)
    {
      hide PoolInv;
      hide PowerOfTwo;
      ReleaseKeeps(State(), id);
      if id !in requests { return false; }
      var blocks := requests[id].blocks;
      requests := requests - {id};
      for i := 0 to |blocks|
        invariant free == old(free) + Elems(blocks[..i])
        invariant requests == old(requests) - {id}
      {
        assert blocks[..i + 1] == blocks[..i] + [blocks[i]];
        free := free + {blocks[i]};
      }
      assert blocks[..|blocks|] == blocks;
      released := true;
    }

    /** Batch tables padded with -1, lengths, and the checks of a fixed table width. */
    method GetMetadata(ids: seq<Id>, tableWidth: Option<int>) returns (r: Outcome<Metadata>)
      requires Valid()
      ensures r == MetadataFor(State(), ids, tableWidth)
    {
      hide PoolInv;
      hide PowerOfTwo;
      hide UsedWidth;
      ghost var p := State();
      for i := 0 to |ids|
        invariant forall j :: 0 <= j < i ==> ids[j] in requests
      {
        assert ids[i] in ids;
        if ids[i] !in requests { return Raises(KeyError); }
      }
      assert forall id :: id in ids ==> id in requests;
      var used := UsedWidth(State(), ids);
      if tableWidth.Some? && (tableWidth.value < 0 || tableWidth.value < used || tableWidth.value > numBlocks) {
        return Raises(ValueError);
      }
      var width := if tableWidth.Some? then tableWidth.value else used;
      var tables, lengths := [], [];
      for i := 0 to |ids|
        invariant |tables| == i && |lengths| == i
        invariant forall j :: 0 <= j < i ==> tables[j] == TableRow(requests[ids[j]].blocks, width)
        invariant forall j :: 0 <= j < i ==> lengths[j] == requests[ids[j]].length
      {
        assert ids[i] in ids;
        var blocks := requests[ids[i]].blocks;
        tables := tables + [TableRow(blocks, width)];
        lengths := lengths + [requests[ids[i]].length];
      }
      r := Returns(Metadata(ids, tables, lengths));
      assert tables == MetadataFor(p, ids, tableWidth).value.tables;
      assert lengths == MetadataFor(p, ids, tableWidth).value.lengths;
    }

    /** One cell of the pages. */
    method Store(slot: Slot, row: KV)
      requires slot.0 < keys.Length0 && slot.1 < keys.Length1
      modifies keys
      ensures Cells() == old(Cells())[slot := row]
    {
      keys[slot.0, slot.1] := row;
    }

    lemma OwnLength(id: Id)
      requires Valid()
      ensures blockSize > 0 && PoolShape(State()) && PowerOfTwo(blockSize)
      ensures id in requests ==> |requests[id].blocks| == CeilDiv(requests[id].length, blockSize)
    {
      if id in requests { assert AllocationOk(numBlocks, blockSize, free, requests[id]); }
    }

    lemma WriteSlot(id: Id, position: nat)
      requires Valid() && id in requests && position < requests[id].length
      ensures blockSize > 0 && position / blockSize < |requests[id].blocks|
      ensures SlotAt(requests[id].blocks, blockSize, position).0 < keys.Length0
      ensures SlotAt(requests[id].blocks, blockSize, position).1 < keys.Length1
    {
      SlotInRange(State(), id, position);
    }

    /** The reference writer; positions before a bad one are written. */
    method Write(id: Id, positions: seq<int>, rows: seq<KV>) returns (r: Outcome<()>)
      requires Valid()
      modifies keys
      ensures Valid() && (Cells(), r) == PagedStorage.Write(State(), old(Cells()), id, positions, rows)
    {
      hide PoolInv;
      hide PowerOfTwo;
      hide BitAnd;
      hide CeilDiv;
      OwnLength(id);
      if id !in requests { return Raises(KeyError); }
      if |positions| != |rows| { return Raises(ValueError); }
      var allocation := requests[id];
      for i := 0 to |positions|
        invariant WriteFrom(blockSize, allocation, Cells(), positions[i..], rows[i..]) ==
          WriteFrom(blockSize, allocation, old(Cells()), positions, rows)
      {
        var position := positions[i];
        if !(0 <= position < allocation.length) { return Raises(IndexError); }
        WriteSlot(id, position);
        var slot := SlotOf(allocation.blocks, position, allocation.length);
        Store(slot, rows[i]);
        assert positions[i..][1..] == positions[i + 1..] && rows[i..][1..] == rows[i + 1..];
      }
      r := Returns(());
    }

    method Length(id: Id) returns (r: Outcome<nat>)
      ensures r == if id in requests then Returns(requests[id].length) else Raises(KeyError)
    {
      if id !in requests { return Raises(KeyError); }
      r := Returns(requests[id].length);
    }

    method BlocksForTokens(count: int) returns (r: Outcome<nat>)
      requires blockSize > 0
      ensures count < 0 ==> r == Raises(ValueError)
      ensures count >= 0 ==> r.Returns? && r.value * blockSize >= count && (count > 0 ==> (r.value - 1) * blockSize < count)
      ensures count >= 0 ==> r == Returns(CeilDiv(count, blockSize))
    {
      if count < 0 { return Raises(ValueError); }
      CeilDivBounds(count, blockSize);
      r := Returns(CeilDiv(count, blockSize));
    }
  }
}
