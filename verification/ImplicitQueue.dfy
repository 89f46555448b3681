/**
 The implicit producer as it is when one call runs at a time: blocks, index entries and
 index headers are objects, indices are 64-bit words, and every method changes them in the
 order of the source. `st` is the block queue state that the objects stand for; each method
 takes it through the steps of module BlockQueue as it goes, so that everything proved of
 those steps holds of the objects.
*/
module ImplicitQueue {
  import opened BlockQueue
  import opened BlockRing
  import opened BlockInv
  import opened BlockProducer
  import opened BlockShared
  import opened BlockSteps
  import opened BlockWords
  import opened BlockFacts
  import opened BlockObjects
  import opened Circular
  import opened Options
  import opened Sums
  import BlockTheorems
  import Integers

  class ImplicitProducer {
    var tailIndex: nat
    var headIndex: nat
    var dequeueOptimisticCount: nat
    var dequeueOvercommit: int
    var tailBlock: ElementBlock?
    var blockIndex: BlockIndexHeader?
    var nextBlockIndexCapacity: nat

    /** The free list of the queue, as this producer finds and leaves it; the last block was added last. */
    var pool: seq<ElementBlock>

    /** MAX_SUBQUEUE_SIZE, rounded up to a multiple of the block size. */
    const maxSubqueueSize: int

    ghost var st: State
    ghost var ents: seq<BlockIndexEntry>
    ghost var blks: map<nat, ElementBlock>
    ghost var nextId: nat
    ghost var logCapacity: nat
    ghost var repr: set<object>

    ghost predicate InRepr()
      reads this`repr, this`blockIndex, this`ents, this`blks, this`pool
    {
      && this !in repr
      && (blockIndex != null ==> blockIndex in repr && blockIndex.index in repr)
      && (forall e :: 0 <= e < |ents| ==> ents[e] in repr)
      && (forall k :: k in blks ==> blks[k] in repr && blks[k].elements in repr)
      && (forall i :: 0 <= i < |pool| ==> pool[i] in repr && pool[i].elements in repr)
    }

    ghost predicate Linked()
      reads this`st, this`blockIndex, this`ents, this`blks, this`pool, this`nextId, this`repr
      reads this`logCapacity, this`nextBlockIndexCapacity, repr
    {
      && InRepr()
      && blockIndex != null && st.headers != []
      && HeaderLinked(blockIndex, Cur(st), ents)
      && EntriesLinked(ents, st.entries, blks, nextId)
      && BlocksLinked(blks, st.blocks)
      && Separate(blks, pool)
      && nextId > 0 && (forall k :: k in blks ==> 0 < k < nextId)
      && logCapacity <= 59 && Cur(st).capacity == Pow2(logCapacity) && nextBlockIndexCapacity == Pow2(logCapacity + 1)
    }

    /** No dequeue is under way. */
    ghost predicate Sound()
      reads this`st
    {
      Good(st) && st.cons == [CIdle]
    }

    // -----------------------------------------------------------------
    // Single stores, and the state they lead to
    // -----------------------------------------------------------------

    /** The tail of the index. */
    method MoveTail(newTail: nat, ghost s': State)
      requires Linked() && s'.headers != [] && Cur(s') == Cur(st).(tail := newTail)
      requires s'.entries == st.entries && s'.blocks == st.blocks
      modifies blockIndex`tail, this`st
      ensures Linked() && st == s'
    {
      hide InRepr;
      hide KeyWord;
      hide Separate;
      blockIndex.tail := newTail;
      st := s';
    }

    /** The value of an entry. */
    method ClearValue(idxEntry: BlockIndexEntry, ghost e: nat, ghost s': State)
      requires Linked() && e < |ents| == |st.entries| && idxEntry == ents[e]
      requires s'.headers == st.headers && s'.blocks == st.blocks
      requires s'.entries == st.entries[e := st.entries[e].(value := Null)]
      modifies idxEntry`value, this`st
      ensures Linked() && st == s'
    {
      hide InRepr;
      hide KeyWord;
      hide Separate;
      idxEntry.value := null;
      st := s';
    }

    /** A slot of a block. */
    method PutSlot(block: ElementBlock, i: nat, slot: Slot, ghost k: nat, ghost s': State)
      requires Linked() && k in blks && block == blks[k] && k in st.blocks && i < BLOCK_SIZE == |st.blocks[k].slots|
      requires s'.headers == st.headers && s'.entries == st.entries
      requires s'.blocks == st.blocks[k := st.blocks[k].(slots := st.blocks[k].slots[i := slot])]
      modifies block.elements, this`st
      ensures Linked() && st == s'
    {
      hide InRepr;
      hide HeaderLinked;
      hide EntriesLinked;
      block.elements[i] := slot;
      st := s';
    }

    /** The count of a block. */
    method PutCount(block: ElementBlock, count: nat, ghost k: nat, ghost s': State)
      requires Linked() && k in blks && block == blks[k] && k in st.blocks
      requires s'.headers == st.headers && s'.entries == st.entries
      requires s'.blocks == st.blocks[k := st.blocks[k].(dequeued := count)]
      modifies block`dequeued, this`st
      ensures Linked() && st == s'
    {
      hide InRepr;
      hide HeaderLinked;
      hide EntriesLinked;
      block.dequeued := count;
      st := s';
    }

    /** freeList.add */
    method DropBlock(block: ElementBlock, ghost k: nat, ghost s': State)
      requires Linked() && k in blks && block == blks[k]
      requires s'.headers == st.headers && s'.entries == st.entries && s'.blocks == st.blocks - {k}
      modifies this`pool, this`blks, this`st
      ensures Linked() && st == s' && pool == old(pool) + [block] && blks == old(blks) - {k}
    {
      hide HeaderLinked;
      SeparateRemove(blks, pool, k);
      hide Separate;
      EntriesNarrower(ents, st.entries, blks, nextId, k);
      BlocksRemove(blks, st.blocks, k);
      hide EntriesLinked;
      hide BlocksLinked;
      pool := pool + [block];
      blks := blks - {k};
      st := s';
    }

    /** Nothing but what the producer and the consumers do next. */
    ghost method SetState(s': State)
      requires Linked() && s'.headers == st.headers && s'.entries == st.entries && s'.blocks == st.blocks
      modifies this`st
      ensures Linked() && st == s'
    {
      hide HeaderLinked;
      hide EntriesLinked;
      hide BlocksLinked;
      hide Separate;
      hide InRepr;
      st := s';
    }

    lemma BlockAt(k: nat)
      requires Linked() && k in blks
      ensures k in st.blocks && BlockLinked(blks[k], st.blocks[k]) && blks[k].elements.Length == BLOCK_SIZE
    {
      hide HeaderLinked;
      hide EntriesLinked;
    }

    // -----------------------------------------------------------------
    // The block index
    // -----------------------------------------------------------------

    /** The next entry of the index gets the key of the block to be inserted. */
    method StoreKey(idxEntry: BlockIndexEntry, blockStartIndex: nat, ghost op: Op)
      requires Linked() && Sound() && st.prod == PStoreKey(op)
      requires Cur(st).index[After(Cur(st))] < |ents| && idxEntry == ents[Cur(st).index[After(Cur(st))]]
      requires blockStartIndex == Wrap(Upcoming(op) * BLOCK_SIZE)
      modifies idxEntry`key, this`st
      ensures Linked() && Sound() && st == DoStoreKey(old(st), op)
    {
      hide Own;
      hide Shared;
      hide Shape;
      StoreKeyGood(st, op);
      idxEntry.key := blockStartIndex;
      st := DoStoreKey(st, op);
    }

    method StoreTail(newTail: nat, ghost op: Op)
      requires Linked() && Sound() && st.prod == PStoreTail(op) && newTail == After(Cur(st))
      modifies blockIndex`tail, this`st
      ensures Linked() && Sound() && st == DoStoreTail(old(st), op)
    {
      hide Own;
      hide Shared;
      hide Shape;
      hide Linked;
      HeaderFacts(st);
      StoreTailGood(st, op);
      MoveTail(newTail, DoStoreTail(st, op));
    }

    /** rewind_block_index_tail */
    method RewindBlockIndexTail(ghost s': State)
      requires Linked() && 0 < Cur(st).capacity && s'.headers != [] && Cur(s') == Cur(st).(tail := Before(Cur(st)))
      requires s'.entries == st.entries && s'.blocks == st.blocks
      modifies blockIndex`tail, this`st
      ensures Linked() && st == s'
    {
      hide EntriesLinked;
      hide BlocksLinked;
      hide Separate;
      MoveTail((blockIndex.tail - 1) % blockIndex.capacity, s');
    }

    lemma TailKey(tb: nat)
      requires Linked() && Good(st) && st.entries[Cur(st).index[Cur(st).tail]].key == Base(tb)
      ensures blockIndex != null && blockIndex.capacity == blockIndex.index.Length == Cur(st).capacity
      ensures blockIndex.tail == Cur(st).tail < blockIndex.capacity && logCapacity <= 64
      ensures blockIndex.index[blockIndex.tail] != null
      ensures blockIndex.index[blockIndex.tail].key == Wrap(tb * BLOCK_SIZE)
    {
      hide Own;
      hide Shared;
      hide BlocksLinked;
      hide Separate;
    }

    /** get_block_index_index_for_index, where b is the number of the block and tb that of the block at the tail. */
    method GetBlockIndexIndexForIndex(index: nat, ghost b: nat, ghost tb: nat) returns (idx: nat)
      requires Linked() && Good(st)
      requires index - index % BLOCK_SIZE == Wrap(b * BLOCK_SIZE)
      requires st.entries[Cur(st).index[Cur(st).tail]].key == Base(tb)
      requires -HALF <= (b - tb) * BLOCK_SIZE < HALF
      ensures idx == LookupAt(Cur(st), Cur(st).tail, tb, b)
    {
      hide Own;
      hide Shared;
      TailKey(tb);
      CapacityIs();
      hide Linked;
      var base := index - index % BLOCK_SIZE;
      var tail := blockIndex.tail;
      var tailBase := blockIndex.index[tail].key;
      var offset := Wrap(TruncDiv(Signed(Wrap(base - tailBase)), BLOCK_SIZE));
      idx := Wrap(tail + offset) % blockIndex.capacity;
      LookupWords(b, tb);
      CapacityDivides(logCapacity);
      RingWrap(tail, b - tb, blockIndex.capacity);
    }

    /**
     new_block_index: a ring of twice the size that begins with the entries of the old one in their order,
     oldest first, followed by as many new ones.
    */
    method NewBlockIndex(memory: Memory) returns (ok: bool, ghost more: seq<BlockIndexEntry>, ghost made: set<object>)
      requires blockIndex == null || nextBlockIndexCapacity == 2 * blockIndex.capacity
      requires blockIndex != null ==> blockIndex.tail < blockIndex.capacity == blockIndex.index.Length
      requires nextBlockIndexCapacity > 0
      modifies this`blockIndex, this`nextBlockIndexCapacity
      ensures !ok ==> blockIndex == old(blockIndex) && nextBlockIndexCapacity == old(nextBlockIndexCapacity)
      ensures fresh(made)
      ensures ok ==> blockIndex in made && blockIndex.index in made
      ensures ok ==>
        var prev := old(blockIndex);
        var prevCapacity := if prev == null then 0 else prev.capacity;
        && blockIndex != null && fresh(blockIndex) && fresh(blockIndex.index)
        && blockIndex.capacity == blockIndex.index.Length == old(nextBlockIndexCapacity) == prevCapacity + |more|
        && nextBlockIndexCapacity == 2 * old(nextBlockIndexCapacity)
        && blockIndex.tail == (if prev == null then blockIndex.capacity - 1 else prevCapacity - 1)
        && (prev != null ==> RingCopied(prev, prev.tail, prevCapacity, blockIndex.index))
        && NewEntries(blockIndex.index, prevCapacity, more, made)
      ensures memory.Plenty? ==> ok
    {
      hide BlocksLinked;
      var prev := blockIndex;
      var prevCapacity := if prev == null then 0 else prev.capacity;
      var entryCount := if prev == null then nextBlockIndexCapacity else prevCapacity;
      more := [];
      made := {};
      var raw: bool := *;
      if !raw && !memory.Plenty? {
        return false, [], {};
      }
      var index := new BlockIndexEntry?[nextBlockIndexCapacity];
      made := {index};
      if prev != null {
        CopyRing(prev, index);
      }
      var i := 0;
      while i != entryCount
        invariant 0 <= i <= entryCount && |more| == i
        invariant prev != null ==> RingCopied(prev, prev.tail, prevCapacity, index)
        invariant forall j :: 0 <= j < i ==>
                    index[prevCapacity + j] == more[j] && fresh(more[j]) && more[j].key == INVALID_BLOCK_BASE
        invariant forall j, k :: 0 <= j < k < i ==> more[j] != more[k]
        invariant fresh(made) && index in made && (forall j :: 0 <= j < i ==> more[j] in made)
        modifies index
      {
        var entry := new BlockIndexEntry();
        index[prevCapacity + i] := entry;
        more := more + [entry];
        made := made + {entry};
        i := i + 1;
      }
      if prev != null {
        Integers.Small(prevCapacity - 1, nextBlockIndexCapacity);
      } else {
        Integers.Period(-1, nextBlockIndexCapacity);
        Integers.Small(nextBlockIndexCapacity - 1, nextBlockIndexCapacity);
      }
      blockIndex := new BlockIndexHeader(nextBlockIndexCapacity, (prevCapacity - 1) % nextBlockIndexCapacity, index);
      made := made + {blockIndex};
      nextBlockIndexCapacity := 2 * nextBlockIndexCapacity;
      ok := true;
    }

    static method CopyRing(prev: BlockIndexHeader, index: array<BlockIndexEntry?>)
      requires prev.tail < prev.capacity == prev.index.Length <= index.Length && prev.index != index
      modifies index
      ensures RingCopied(prev, prev.tail, prev.capacity, index)
    {
      var prevTail := prev.tail;
      var prevPos := prevTail;
      var i := 0;
      Integers.Small(prevTail, prev.capacity);
      while true
        invariant 0 <= i < prev.capacity && prevPos == (prevTail + i) % prev.capacity
        invariant forall j :: 0 <= j < i ==> index[j] == prev.index[(prevTail + 1 + j) % prev.capacity]
        decreases prev.capacity - i
      {
        Integers.Shift(prevTail + i, 1, prev.capacity);
        prevPos := (prevPos + 1) % prev.capacity;
        index[i] := prev.index[prevPos];
        i := i + 1;
        if i < prev.capacity {
          Integers.Apart(prevTail, prevTail + i, prev.capacity);
        } else {
          Integers.Period(prevTail, prev.capacity);
        }
        if prevPos == prevTail {
          break;
        }
      }
    }

    ghost method AdoptGrown(op: Op, prev: BlockIndexHeader, more: seq<BlockIndexEntry>, made: set<object>)
      requires Sound() && st.prod == PGrow(op) && logCapacity < 59
      requires this !in repr + made && (forall e :: 0 <= e < |ents| ==> ents[e] in repr)
      requires forall k :: k in blks ==> blks[k] in repr && blks[k].elements in repr
      requires forall i :: 0 <= i < |pool| ==> pool[i] in repr && pool[i].elements in repr
      requires HeaderLinked(prev, Cur(st), ents) && EntriesLinked(ents, st.entries, blks, nextId)
      requires BlocksLinked(blks, st.blocks) && Separate(blks, pool)
      requires nextId > 0 && (forall k :: k in blks ==> 0 < k < nextId)
      requires |ents| == |st.entries| && |more| == Cur(st).capacity
      requires blockIndex != null && blockIndex.capacity == blockIndex.index.Length == 2 * Cur(st).capacity
      requires Cur(st).capacity == Pow2(logCapacity) && nextBlockIndexCapacity == 4 * Cur(st).capacity
      requires blockIndex.tail == Cur(st).capacity - 1
      requires prev.index.Length == Cur(st).capacity && RingCopied(prev, Cur(st).tail, Cur(st).capacity, blockIndex.index)
      requires NewEntries(blockIndex.index, Cur(st).capacity, more, made)
      requires forall i :: 0 <= i < |more| ==> more[i] !in ents
      requires blockIndex in made && blockIndex.index in made
      modifies this`st, this`ents, this`repr, this`logCapacity
      ensures Linked() && Sound() && SameData(old(st), st) && st.prod == PStoreKey(op)
      ensures st.entries[Cur(st).index[After(Cur(st))]].key == Invalid
      ensures repr == old(repr) + made
    {
      hide Good;
      hide RingCopied;
      hide HeaderLinked;
      hide EntriesLinked;
      hide BlocksLinked;
      hide Separate;
      LinkGrown(op, prev, more, made);
      repr := repr + made;
      logCapacity := logCapacity + 1;
      assert Pow2(logCapacity) == 2 * Pow2(logCapacity - 1);
    }

    /** The ghost side of new_block_index: the state takes the new header and entries over. */
    ghost method LinkGrown(op: Op, prev: BlockIndexHeader, more: seq<BlockIndexEntry>, made: set<object>)
      requires Sound() && st.prod == PGrow(op) && logCapacity < 59
      requires HeaderLinked(prev, Cur(st), ents) && EntriesLinked(ents, st.entries, blks, nextId) && 0 !in blks && 0 < nextId
      requires |ents| == |st.entries| && |more| == Cur(st).capacity
      requires blockIndex != null && blockIndex.capacity == blockIndex.index.Length == 2 * Cur(st).capacity
      requires blockIndex.tail == Cur(st).capacity - 1
      requires prev.index.Length == Cur(st).capacity && RingCopied(prev, Cur(st).tail, Cur(st).capacity, blockIndex.index)
      requires NewEntries(blockIndex.index, Cur(st).capacity, more, made)
      requires forall i :: 0 <= i < |more| ==> more[i] !in ents
      modifies this`st, this`ents
      ensures Sound() && SameData(old(st), st) && st.prod == PStoreKey(op)
      ensures st.entries[Cur(st).index[After(Cur(st))]].key == Invalid
      ensures ents == old(ents) + more && st.headers != [] && Cur(st).capacity == 2 * Cur(old(st)).capacity
      ensures HeaderLinked(blockIndex, Cur(st), ents) && EntriesLinked(ents, st.entries, blks, nextId)
    {
      hide Own;
      hide Shared;
      hide Shape;
      hide Grown;
      hide HeaderLinked;
      hide EntriesLinked;
      hide DoGrow;
      hide RingCopied;
      hide Following;
      HeaderFacts(st);
      ghost var junk := Junk(more);
      GrowGood(st, op, junk);
      GrownFacts(Cur(st), |st.entries|, Upcoming(op));
      HeaderGrown(prev, blockIndex, Cur(st), Grown(Cur(st), |st.entries|, Upcoming(op)), ents, more);
      EntriesGrown(ents, st.entries, more, junk, blks, nextId);
      DoGrowFields(st, op, junk);
      GrownNextFree(st, op, junk);
      ents := ents + more;
      st := DoGrow(st, op, junk);
    }

    /** insert_block_index_entry, where the next entry is taken. */
    method GrowBlockIndex(memory: Memory, ghost op: Op) returns (ok: bool)
      requires Linked() && Sound() && st.prod == PGrow(op) && logCapacity < 59
      modifies this`blockIndex, this`nextBlockIndexCapacity, this`st, this`ents, this`repr, this`logCapacity
      ensures Linked() && Sound() && fresh(repr - old(repr)) && SameData(old(st), st)
      ensures !ok ==> st == Undo(old(st), op, 0) && blockIndex == old(blockIndex) && ents == old(ents)
      ensures ok ==> st.prod == PStoreKey(op) && fresh(blockIndex)
      ensures ok ==> st.entries[Cur(st).index[After(Cur(st))]].key == Invalid
      ensures memory.Plenty? ==> ok
    {
      hide Own;
      hide Shared;
      hide Shape;
      hide RingCopied;
      hide Following;
      hide Good;
      hide Undo;
      ghost var more: seq<BlockIndexEntry>;
      ghost var prev := blockIndex;
      HeaderFacts(st);
      assert prev.tail < prev.capacity == prev.index.Length == Cur(st).capacity && prev.tail == Cur(st).tail;
      assert |ents| == |st.entries|;
      hide HeaderLinked;
      hide EntriesLinked;
      hide BlocksLinked;
      hide Separate;
      ghost var made: set<object>;
      ok, more, made := NewBlockIndex(memory);
      if !ok {
        GrowFailGood(st, op);
        UndoSame(st, op, 0);
        st := Undo(st, op, 0);
        return;
      }
      AdoptGrown(op, prev, more, made);
    }

    /** The position and the entry after the tail. */
    method NextEntry() returns (newTail: nat, idxEntry: BlockIndexEntry)
      requires Linked() && Sound()
      ensures newTail == After(Cur(st)) && Cur(st).index[newTail] < |ents| == |st.entries|
      ensures idxEntry == ents[Cur(st).index[newTail]] && idxEntry in repr && blockIndex in repr
      ensures var entry := st.entries[Cur(st).index[newTail]];
              && (idxEntry.key == INVALID_BLOCK_BASE <==> entry.key.Invalid?)
              && (idxEntry.value == null <==> entry.value.Null?)
    {
      hide Own;
      hide Shared;
      hide BlocksLinked;
      hide Separate;
      hide KeyWord;
      HeaderFacts(st);
      newTail := (blockIndex.tail + 1) % blockIndex.capacity;
      idxEntry := blockIndex.index[newTail];
      KeyWordValid(st.entries[Cur(st).index[newTail]].key);
    }

    /** The key and the tail of the index are stored. */
    method PlaceKey(newTail: nat, idxEntry: BlockIndexEntry, blockStartIndex: nat, ghost op: Op)
      requires Linked() && Sound() && st.prod == PStoreKey(op) && newTail == After(Cur(st))
      requires Cur(st).index[newTail] < |ents| && idxEntry == ents[Cur(st).index[newTail]]
      requires blockStartIndex == Wrap(Upcoming(op) * BLOCK_SIZE)
      modifies idxEntry`key, blockIndex`tail, this`st
      ensures Linked() && Sound() && SameData(old(st), st) && st.prod == PRequisition(op)
      ensures Cur(st).index[Cur(st).tail] < |ents| && idxEntry == ents[Cur(st).index[Cur(st).tail]]
    {
      hide Own;
      hide Shared;
      hide Shape;
      hide HeaderLinked;
      hide EntriesLinked;
      hide BlocksLinked;
      hide Separate;
      StoreKey(idxEntry, blockStartIndex, op);
      StoreTail(newTail, op);
    }

    /** insert_block_index_entry, when the next entry is taken: in a new index there is room. */
    method InsertIntoNewIndex(blockStartIndex: nat, memory: Memory, ghost op: Op)
      returns (inserted: bool, idxEntry: BlockIndexEntry?)
      requires Linked() && Sound() && st.prod == PGrow(op) && logCapacity < 59
      requires blockStartIndex == Wrap(Upcoming(op) * BLOCK_SIZE)
      modifies this`blockIndex, this`nextBlockIndexCapacity, this`st, this`ents, this`repr, this`logCapacity, repr
      ensures Linked() && Sound() && fresh(repr - old(repr)) && SameData(old(st), st)
      ensures inserted ==>
                && st.prod == PRequisition(op) && Cur(st).index[Cur(st).tail] < |ents|
                && idxEntry == ents[Cur(st).index[Cur(st).tail]]
      ensures !inserted ==> st.prod == Undo(old(st), op, 0).prod
      ensures forall k :: k in blks ==> blks[k].next == old(blks[k].next)
      ensures memory.Plenty? ==> inserted
    {
      hide Own;
      hide Shared;
      hide Shape;
      hide Linked;
      InReprFacts();
      if memory.CannotAlloc? {
        GrowFailGood(st, op);
        UndoSame(st, op, 0);
        SetState(Undo(st, op, 0));
        return false, null;
      }
      var grown := GrowBlockIndex(memory, op);
      if !grown {
        return false, null;
      }
      var newTail;
      newTail, idxEntry := NextEntry();
      assert idxEntry.key == INVALID_BLOCK_BASE;
      PlaceKey(newTail, idxEntry, blockStartIndex, op);
      inserted := true;
    }

    /** insert_block_index_entry */
    method InsertBlockIndexEntry(blockStartIndex: nat, memory: Memory, ghost op: Op)
      returns (inserted: bool, idxEntry: BlockIndexEntry?)
      requires Linked() && Sound() && st.prod == PTest(op)
      requires blockStartIndex == Wrap(Upcoming(op) * BLOCK_SIZE)
      requires DoTest(st, op).prod.PGrow? ==> logCapacity < 59
      modifies this`blockIndex, this`nextBlockIndexCapacity, this`st, this`ents, this`repr, this`logCapacity, repr
      ensures Linked() && Sound() && fresh(repr - old(repr)) && SameData(old(st), st)
      ensures inserted ==>
                && st.prod == PRequisition(op) && Cur(st).index[Cur(st).tail] < |ents|
                && idxEntry == ents[Cur(st).index[Cur(st).tail]]
      ensures !inserted ==> st.prod == Undo(old(st), op, 0).prod
      ensures forall k :: k in blks ==> blks[k].next == old(blks[k].next)
      ensures memory.Plenty? ==> inserted
    {
      hide Own;
      hide Shared;
      hide Shape;
      hide Linked;
      InReprFacts();
      TestGood(st, op);
      var newTail;
      newTail, idxEntry := NextEntry();
      SetState(DoTest(st, op));
      if idxEntry.key == INVALID_BLOCK_BASE || idxEntry.value == null {
        PlaceKey(newTail, idxEntry, blockStartIndex, op);
        inserted := true;
      } else {
        inserted, idxEntry := InsertIntoNewIndex(blockStartIndex, memory, op);
      }
    }

    // -----------------------------------------------------------------
    // Blocks
    // -----------------------------------------------------------------

    /** requisition_block: a block from the pool, or a new one if memory may be and can be had. */
    method RequisitionBlock(memory: Memory) returns (block: ElementBlock?)
      requires Linked()
      modifies this`pool, this`repr
      ensures Linked() && fresh(repr - old(repr))
      ensures old(pool) != [] ==> block != null && pool + [block] == old(pool)
      ensures old(pool) == [] ==> pool == [] && (block != null ==> !memory.CannotAlloc? && fresh(block))
      ensures block != null ==> block in repr && block.elements in repr && Separate(blks, pool + [block])
      ensures memory.Plenty? ==> block != null
    {
      hide HeaderLinked;
      hide EntriesLinked;
      hide BlocksLinked;
      block := null;
      if pool != [] {
        block := pool[|pool| - 1];
        assert pool == pool[..|pool| - 1] + [block];
        pool := pool[..|pool| - 1];
      } else if !memory.CannotAlloc? {
        var raw: bool := *;
        if raw || memory.Plenty? {
          block := new ElementBlock();
          repr := repr + {block, block.elements};
        }
      }
    }

    /** No memory for the block: its key is taken back. */
    method AbandonEntry(idxEntry: BlockIndexEntry, ghost op: Op)
      requires Linked() && Sound() && st.prod == PRequisition(op)
      requires Cur(st).index[Cur(st).tail] < |ents| && idxEntry == ents[Cur(st).index[Cur(st).tail]]
      modifies blockIndex`tail, idxEntry`value, this`st
      ensures Linked() && Sound() && SameData(old(st), st) && st.prod == Undo(old(st), op, 0).prod
    {
      hide Own;
      hide Shared;
      hide Shape;
      hide Undo;
      hide Abandoned;
      hide Linked;
      AbandonedGood(st, op);
      AbandonedFields(st, op);
      HeaderFacts(st);
      InReprFacts();
      ghost var e, s' := Cur(st).index[Cur(st).tail], Abandoned(st, op);
      RewindBlockIndexTail(st.(headers := s'.headers));
      InReprFacts();
      ClearValue(idxEntry, e, s');
    }

    /** The count of a requisitioned block is reset. */
    method EmptyBlock(newBlock: ElementBlock)
      requires Linked() && newBlock in repr && newBlock.elements in repr && Separate(blks, pool + [newBlock])
      modifies newBlock`dequeued
      ensures Linked() && newBlock.dequeued == 0
    {
      hide HeaderLinked;
      hide EntriesLinked;
      assert (pool + [newBlock])[|pool|] == newBlock;
      newBlock.ResetEmpty();
    }

    /** The blocks in use, and the next number, change to others that fit as well. */
    ghost method SetBlocks(blks': map<nat, ElementBlock>, nextId': nat, s': State)
      requires Linked() && s'.headers == st.headers
      requires EntriesLinked(ents, s'.entries, blks', nextId') && BlocksLinked(blks', s'.blocks) && Separate(blks', pool)
      requires nextId' > 0 && forall k :: k in blks' ==> 0 < k < nextId' && blks'[k] in repr && blks'[k].elements in repr
      modifies this`st, this`blks, this`nextId
      ensures Linked() && st == s' && blks == blks' && nextId == nextId'
    {
      hide HeaderLinked;
      hide EntriesLinked;
      hide BlocksLinked;
      hide Separate;
      blks, nextId, st := blks', nextId', s';
    }

    /** A new block, under the next number. */
    ghost method AddBlock(newBlock: ElementBlock, s': State)
      requires Linked() && newBlock in repr && newBlock.elements in repr && Separate(blks, pool + [newBlock])
      requires s'.headers == st.headers && s'.entries == st.entries
      requires s'.blocks == st.blocks[nextId := Block(newBlock.elements[..], newBlock.dequeued)]
      modifies this`st, this`blks, this`nextId
      ensures Linked() && st == s' && blks == old(blks)[old(nextId) := newBlock] && nextId == old(nextId) + 1
      ensures old(nextId) !in old(blks)
    {
      hide HeaderLinked;
      hide EntriesLinked;
      SeparateAdd(blks, pool, newBlock, nextId);
      hide Separate;
      BlocksAdd(blks, st.blocks, nextId, newBlock, Block(newBlock.elements[..], newBlock.dequeued));
      hide BlocksLinked;
      EntriesWider(ents, st.entries, blks, nextId, newBlock);
      hide EntriesLinked;
      SetBlocks(blks[nextId := newBlock], nextId + 1, s');
    }

    lemma NextIdFree()
      requires Linked()
      ensures nextId !in blks && nextId !in st.blocks
    {
    }

    /** A requisitioned block, its count reset, becomes this producer's. */
    ghost method AdoptBlock(newBlock: ElementBlock, op: Op) returns (k: nat)
      requires Linked() && Sound() && st.prod == PRequisition(op)
      requires newBlock in repr && newBlock.elements in repr && Separate(blks, pool + [newBlock]) && newBlock.dequeued == 0
      modifies this`st, this`blks, this`nextId
      ensures Linked() && Sound() && st.prod == PStoreValue(op, k) && k !in old(blks) && blks == old(blks)[k := newBlock]
      ensures k < nextId && st == old(st).(prod := st.prod, blocks := st.blocks)
    {
      hide Own;
      hide Shared;
      hide Shape;
      NextIdFree();
      hide Linked;
      k := nextId;
      var garbage := Block(newBlock.elements[..], newBlock.dequeued);
      SeparateAdd(blks, pool, newBlock, k);
      hide Separate;
      RequisitionGood(st, op, k, garbage);
      AddBlock(newBlock, DoRequisition(st, op, k, garbage));
    }

    /** Its entry gets to point to it. */
    method StoreValue(newBlock: ElementBlock, idxEntry: BlockIndexEntry, ghost op: Op, ghost k: nat)
      requires Linked() && Sound() && st.prod == PStoreValue(op, k) && k in blks && newBlock == blks[k] && k < nextId
      requires Cur(st).index[Cur(st).tail] < |ents| && idxEntry == ents[Cur(st).index[Cur(st).tail]]
      modifies idxEntry`value, this`st
      ensures Linked() && Sound() && st.prod == PCheck(op.(news := op.news + [k]))
      ensures st.published == old(st).published && st.head == old(st).head && st.live == old(st).live[Upcoming(op) := k]
    {
      hide Own;
      hide Shared;
      hide Shape;
      hide KeyWord;
      hide Separate;
      HeaderFacts(st);
      hide HeaderShape;
      StoreValueGood(st, op, k);
      idxEntry.value := newBlock;
      st := DoStoreValue(st, op, k);
    }

    /** A block for the entry just inserted; if there is none, the entry is taken out again. */
    method FillEntry(idxEntry: BlockIndexEntry, memory: Memory, ghost op: Op)
      returns (newBlock: ElementBlock?, ghost k: nat)
      requires Linked() && Sound() && st.prod == PRequisition(op)
      requires Cur(st).index[Cur(st).tail] < |ents| && idxEntry == ents[Cur(st).index[Cur(st).tail]]
      modifies this`pool, this`st, this`blks, this`nextId, this`repr, repr
      ensures Linked() && Sound() && fresh(repr - old(repr))
      ensures st.published == old(st).published && st.head == old(st).head
      ensures newBlock == null ==>
                && SameData(old(st), st) && st.prod == Undo(old(st), op, 0).prod
                && blks == old(blks) && pool == old(pool)
      ensures newBlock != null ==>
                && st.prod == PCheck(op.(news := op.news + [k])) && st.live == old(st).live[Upcoming(op) := k]
                && k !in old(blks) && blks == old(blks)[k := newBlock]
                && (if old(pool) != [] then pool + [newBlock] == old(pool) else pool == [] && fresh(newBlock) && !memory.CannotAlloc?)
      ensures forall l :: l in old(blks) ==> blks[l].next == old(blks[l].next)
      ensures memory.Plenty? ==> newBlock != null
    {
      hide Own;
      hide Shared;
      hide Shape;
      hide HeaderLinked;
      hide EntriesLinked;
      hide BlocksLinked;
      hide Separate;
      hide Undo;
      HeaderFacts(st);
      hide HeaderShape;
      k := 0;
      newBlock := RequisitionBlock(memory);
      if newBlock == null {
        AbandonEntry(idxEntry, op);
      } else {
        EmptyBlock(newBlock);
        k := AdoptBlock(newBlock, op);
        StoreValue(newBlock, idxEntry, op, k);
      }
    }

    /** The block is put in the index and requisitioned, or nothing has happened. */
    method InsertBlock(currentTailIndex: nat, memory: Memory, ghost op: Op)
      returns (newBlock: ElementBlock?, ghost k: nat)
      requires Linked() && Sound() && st.prod == PTest(op) && currentTailIndex == Wrap(Upcoming(op) * BLOCK_SIZE)
      requires DoTest(st, op).prod.PGrow? ==> logCapacity < 59
      modifies this`blockIndex, this`nextBlockIndexCapacity, this`pool, repr
      modifies this`st, this`ents, this`blks, this`nextId, this`logCapacity, this`repr
      ensures Linked() && Sound() && fresh(repr - old(repr))
      ensures st.published == old(st).published && st.head == old(st).head
      ensures newBlock == null ==>
                && SameData(old(st), st) && st.prod == Undo(old(st), op, 0).prod
                && blks == old(blks) && pool == old(pool)
      ensures newBlock != null ==>
                && st.prod == PCheck(op.(news := op.news + [k])) && st.live == old(st).live[Upcoming(op) := k]
                && k !in old(blks) && blks == old(blks)[k := newBlock]
                && (if old(pool) != [] then pool + [newBlock] == old(pool) else pool == [] && fresh(newBlock) && !memory.CannotAlloc?)
      ensures forall l :: l in old(blks) ==> blks[l].next == old(blks[l].next)
      ensures memory.Plenty? ==> newBlock != null
    {
      hide Own;
      hide Shared;
      hide Shape;
      hide HeaderLinked;
      hide EntriesLinked;
      hide BlocksLinked;
      hide Separate;
      hide DoTest;
      newBlock, k := null, 0;
      var inserted, idxEntry := InsertBlockIndexEntry(currentTailIndex, memory, op);
      if inserted {
        HeaderFacts(st);
        newBlock, k := FillEntry(idxEntry, memory, op);
      }
    }

    /** Whether a block with this base index would be too far from the head, or exceed the limit. */
    method IsFull(currentTailIndex: nat, ghost h: nat, ghost n: nat) returns (full: bool)
      requires currentTailIndex == Wrap(n * BLOCK_SIZE) && headIndex == Wrap(h)
      requires h <= n * BLOCK_SIZE && Room(h, n, maxSubqueueSize)
      requires maxSubqueueSize == NO_LIMIT || (0 <= maxSubqueueSize && maxSubqueueSize % BLOCK_SIZE == 0)
      ensures full <==> !Room(h, n + 1, maxSubqueueSize)
    {
      var head := headIndex;
      full := !LessThan(head, currentTailIndex + BLOCK_SIZE)
        || (maxSubqueueSize != NO_LIMIT
            && (maxSubqueueSize == 0 || maxSubqueueSize - BLOCK_SIZE < Wrap(currentTailIndex - head)));
      FullExactly(h, n, maxSubqueueSize);
    }

    /** No room for the block. */
    ghost method GiveUp(op: Op)
      requires Linked() && Sound() && st.prod == PCheck(op) && Upcoming(op) <= Needed(st, op)
      modifies this`st
      ensures Linked() && Sound() && SameData(old(st), st) && st.prod == Undo(old(st), op, 0).prod
    {
      hide Own;
      hide Shared;
      hide Shape;
      hide Linked;
      CheckFailGood(st, op);
      UndoSame(st, op, 0);
      SetState(Undo(st, op, 0));
    }

    /** There is room for it, so if the index has to grow for it, it is not too large to. */
    ghost method GoOn(op: Op)
      requires Linked() && Sound() && st.prod == PCheck(op) && Upcoming(op) <= Needed(st, op)
      requires (Upcoming(op) + 1) * BLOCK_SIZE - st.head < HALF
      modifies this`st
      ensures Linked() && Sound() && SameData(old(st), st) && st.prod == PTest(op)
      ensures DoTest(st, op).prod.PGrow? ==> logCapacity < 59
    {
      hide Own;
      hide Shared;
      hide Shape;
      CapacityIs();
      hide Linked;
      CheckGood(st, op);
      SetState(DoCheck(st, op));
      if DoTest(st, op).prod.PGrow? {
        GrowBound(st, op, logCapacity);
      }
    }

    lemma CapacityIs()
      requires Linked()
      ensures st.headers != [] && Cur(st).capacity == Pow2(logCapacity)
    {
    }

    /** Both enqueue and enqueue_bulk begin a new block like this. */
    method StartBlock(currentTailIndex: nat, memory: Memory, ghost op: Op)
      returns (newBlock: ElementBlock?, ghost k: nat)
      requires Linked() && Sound() && st.prod == PCheck(op) && Upcoming(op) <= Needed(st, op)
      requires currentTailIndex == Wrap(Upcoming(op) * BLOCK_SIZE) && headIndex == Wrap(st.head)
      requires st.head <= Upcoming(op) * BLOCK_SIZE && Room(st.head, Upcoming(op), maxSubqueueSize)
      requires maxSubqueueSize == NO_LIMIT || (0 <= maxSubqueueSize && maxSubqueueSize % BLOCK_SIZE == 0)
      modifies this`blockIndex, this`nextBlockIndexCapacity, this`pool, repr
      modifies this`st, this`ents, this`blks, this`nextId, this`logCapacity, this`repr
      ensures Linked() && Sound() && fresh(repr - old(repr))
      ensures st.published == old(st).published && st.head == old(st).head
      ensures newBlock == null ==>
                && SameData(old(st), st) && st.prod == Undo(old(st), op, 0).prod
                && blks == old(blks) && pool == old(pool)
      ensures newBlock != null ==>
                && st.prod == PCheck(op.(news := op.news + [k])) && st.live == old(st).live[Upcoming(op) := k]
                && k !in old(blks) && blks == old(blks)[k := newBlock]
                && (if old(pool) != [] then pool + [newBlock] == old(pool) else pool == [] && fresh(newBlock) && !memory.CannotAlloc?)
                && Room(st.head, Upcoming(op) + 1, maxSubqueueSize)
      ensures !Room(st.head, Upcoming(op) + 1, maxSubqueueSize) ==> newBlock == null
      ensures forall l :: l in old(blks) ==> blks[l].next == old(blks[l].next)
      ensures memory.Plenty? ==> (newBlock != null <==> Room(st.head, Upcoming(op) + 1, maxSubqueueSize))
    {
      hide Good;
      hide Linked;
      hide Undo;
      hide Needed;
      InReprFacts();
      newBlock, k := null, 0;
      var full := IsFull(currentTailIndex, st.head, Upcoming(op));
      assert !full ==> (Upcoming(op) + 1) * BLOCK_SIZE - st.head < HALF;
      hide Room;
      UndoProd(op, st);
      if full {
        GiveUp(op);
      } else {
        GoOn(op);
        UndoProd(op, st);
        newBlock, k := InsertBlock(currentTailIndex, memory, op);
      }
    }

    // -----------------------------------------------------------------
    // Elements
    // -----------------------------------------------------------------

    /** Element j of the enqueue under way is constructed in its slot. */
    method Construct(block: ElementBlock, currentTailIndex: nat, x: Elem, ghost op: Op, ghost j: nat)
      requires Linked() && Sound() && st.prod == PWrite(op, j) && j < |op.xs| && x == op.xs[j]
      requires currentTailIndex == Wrap(|st.published| + j)
      requires var b := (|st.published| + j) / BLOCK_SIZE; b in st.live && st.live[b] in blks && block == blks[st.live[b]]
      modifies block.elements, this`st
      ensures Linked() && Sound() && st.prod == (if j + 1 < |op.xs| then PWrite(op, j + 1) else PPublish(op))
      ensures st.published == old(st).published && st.head == old(st).head && st.live == old(st).live
    {
      hide Own;
      hide Shared;
      hide Shape;
      hide Linked;
      WriteGood(st, op, j);
      WriteTargetLive(st, op, j);
      BaseWord(|st.published| + j, BLOCK_SIZE);
      BlockAt(st.live[(|st.published| + j) / BLOCK_SIZE]);
      PutSlot(block, currentTailIndex % BLOCK_SIZE, Slot.Full(x), st.live[(|st.published| + j) / BLOCK_SIZE], DoWrite(st, op, j));
    }

    // -----------------------------------------------------------------
    // Between calls
    // -----------------------------------------------------------------

    ghost predicate Counters()
      reads this
    {
      && tailIndex == Wrap(|st.published|) && headIndex == Wrap(st.head)
      && dequeueOptimisticCount == Wrap(st.head + dequeueOvercommit)
    }

    /** If the last block has room left, the tail block is it. */
    ghost predicate TailLinked()
      reads this
    {
      var b := |st.published| / BLOCK_SIZE;
      |st.published| % BLOCK_SIZE != 0 ==> b in st.live && st.live[b] in blks && tailBlock == blks[st.live[b]]
    }

    ghost predicate LimitOk() {
      maxSubqueueSize == NO_LIMIT || (0 <= maxSubqueueSize && maxSubqueueSize % BLOCK_SIZE == 0)
    }

    /** A producer with no call under way. Without an index, because memory ran out at its creation, it stays empty. */
    ghost predicate Valid()
      reads this, repr
    {
      && LimitOk() && Sound() && st.prod.PIdle? && Counters() && TailLinked()
      && st.head <= |st.published| && Room(st.head, Ceil(|st.published|), maxSubqueueSize)
      && (if blockIndex == null then InRepr() && st.published == [] else Linked())
    }

    /** The elements in the queue, oldest first. */
    ghost function Contents(): seq<Elem>
      reads this, repr
      requires Valid()
    {
      st.published[st.head..]
    }

    /** A producer at its creation. */
    ghost predicate Blank()
      reads this`st, this`tailIndex, this`headIndex, this`dequeueOptimisticCount, this`dequeueOvercommit
    {
      && LimitOk() && Good(st) && st.cons == [CIdle] && st.prod == PIdle && st.published == [] && st.head == 0
      && tailIndex == headIndex == dequeueOptimisticCount == dequeueOvercommit == 0
    }

    /** The ghost side of the first new_block_index. */
    ghost method AdoptFirst(more: seq<BlockIndexEntry>, made: set<object>)
      requires blockIndex != null && 0 < |more| == blockIndex.capacity == blockIndex.index.Length && blockIndex.tail == |more| - 1
      requires |more| == Pow2(5) && nextBlockIndexCapacity == Pow2(6)
      requires NewEntries(blockIndex.index, 0, more, made)
      requires blockIndex in made && blockIndex.index in made
      requires this !in made && blks == map[] && pool == [] && Blank()
      modifies this`st, this`ents, this`repr, this`nextId, this`logCapacity
      ensures Linked() && Blank() && repr == made
    {
      hide Good;
      hide FirstState;
      hide HeaderLinked;
      hide EntriesLinked;
      hide BlocksLinked;
      hide Separate;
      FirstGood(|more|, Junk(more));
      FirstFields(|more|, Junk(more));
      FirstLinked(blockIndex, more, made);
      st := FirstState(|more|, Junk(more));
      ents, repr, nextId, logCapacity := more, made, 1, 5;
    }

    lemma EmptyValid()
      requires Blank() && blockIndex != null && Linked()
      ensures Valid() && Contents() == []
    {
      hide Good;
      hide Linked;
    }

    lemma NoIndexValid()
      requires Blank() && blockIndex == null && ents == [] && blks == map[] && pool == [] && repr == {}
      ensures Valid() && Contents() == []
    {
      hide Good;
    }

    /** What the constructor does once the fields are set. */
    method BuildIndex()
      requires Blank() && blockIndex == null && nextBlockIndexCapacity == IMPLICIT_INITIAL_INDEX_SIZE
      requires ents == [] && blks == map[] && pool == [] && repr == {}
      modifies this`blockIndex, this`nextBlockIndexCapacity, this`st, this`ents, this`repr, this`nextId, this`logCapacity
      ensures Valid() && fresh(repr) && Contents() == []
    {
      hide Good;
      hide Linked;
      hide Blank;
      hide Pow2;
      hide NewEntries;
      hide Valid;
      InitialCapacity();
      var ok: bool;
      ghost var more: seq<BlockIndexEntry>;
      ghost var made: set<object>;
      ok, more, made := NewBlockIndex(MayFail);
      if ok {
        AdoptFirst(more, made);
        EmptyValid();
      } else {
        NoIndexValid();
      }
    }

    constructor (maxSize: nat)
      requires maxSize < WORD
      ensures Valid() && fresh(repr) && Contents() == [] && maxSubqueueSize == RoundedLimit(maxSize)
    {
      tailIndex, headIndex, dequeueOptimisticCount, dequeueOvercommit := 0, 0, 0, 0;
      tailBlock, blockIndex := null, null;
      nextBlockIndexCapacity := IMPLICIT_INITIAL_INDEX_SIZE;
      pool := [];
      maxSubqueueSize := RoundedLimit(maxSize);
      st := FirstState(1, [Null]);
      ents, blks, repr := [], map[], {};
      new;
      hide Good;
      hide FirstState;
      hide Valid;
      FirstGood(1, [Null]);
      FirstFields(1, [Null]);
      BuildIndex();
    }

    // -----------------------------------------------------------------
    // enqueue
    // -----------------------------------------------------------------

    ghost method Begin(xs: seq<Elem>) returns (op: Op)
      requires Linked() && Sound() && st.prod.PIdle? && xs != []
      modifies this`st
      ensures Linked() && Sound() && st.prod == PCheck(op)
      ensures op.xs == xs && op.first == Ceil(|st.published|) && op.news == []
      ensures st.published == old(st).published && st.head == old(st).head && st.live == old(st).live
    {
      hide Own;
      hide Shared;
      hide Shape;
      hide Linked;
      StartGood(st, xs);
      SetState(DoStart(st, xs));
      op := st.prod.op;
    }

    /** All blocks are there: the elements can be written. */
    ghost method BeginWriting(op: Op)
      requires Linked() && Sound() && st.prod == PCheck(op) && Upcoming(op) > Needed(st, op)
      modifies this`st
      ensures Linked() && Sound() && st.prod == PWrite(op, 0)
      ensures st.published == old(st).published && st.head == old(st).head && st.live == old(st).live
    {
      hide Own;
      hide Shared;
      hide Shape;
      hide Linked;
      CheckGood(st, op);
      SetState(DoCheck(st, op));
    }

    method Publish(newTailIndex: nat, ghost op: Op)
      requires Linked() && Sound() && st.prod == PPublish(op)
      modifies this`st, this`tailIndex
      ensures Linked() && Sound() && st.prod == PIdle && tailIndex == newTailIndex
      ensures st.published == old(st).published + op.xs && st.head == old(st).head && st.live == old(st).live
    {
      hide Own;
      hide Shared;
      hide Shape;
      hide Linked;
      PublishGood(st, op);
      InReprFacts();
      tailIndex := newTailIndex;
      SetState(DoPublish(st, op));
    }

    /** Another element fits in the last block. */
    ghost predicate BlockHasRoom()
      reads this
    {
      |st.published| % BLOCK_SIZE != 0
    }

    lemma InReprFacts()
      requires Linked()
      ensures this !in repr && blockIndex != null && blockIndex in repr
      ensures blks.Keys == st.blocks.Keys && |ents| == |st.entries|
    {
    }

    lemma EntryInRepr(e: nat)
      requires Linked() && e < |ents|
      ensures ents[e] in repr
    {
    }

    lemma EntriesInRepr()
      requires Linked()
      ensures forall e :: 0 <= e < |ents| ==> ents[e] in repr
    {
    }

    lemma BlockInRepr(k: nat)
      requires Linked() && k in blks
      ensures blks[k] in repr && blks[k].elements in repr
    {
    }

    lemma BlockIn(b: nat)
      requires Linked() && Sound() && b in st.live
      ensures st.live[b] in blks
    {
      hide Own;
      hide ConsumerInv;
      hide Held;
      hide Nulling;
      hide Sum;
      assert LifeInv(st, b);
    }

    /** The block that element number |st.published| goes to is the tail block. */
    ghost predicate AtTailBlock()
      reads this
    {
      var b := |st.published| / BLOCK_SIZE; b in st.live && st.live[b] in blks && tailBlock == blks[st.live[b]]
    }

    /** The block that enqueue has got is the tail block, and all it needs. */
    method MakeTail(newBlock: ElementBlock, ghost op: Op, ghost k: nat) returns (ghost op': Op)
      requires Linked() && Sound() && st.prod == PCheck(op.(news := [k])) && |op.xs| == 1
      requires |st.published| % BLOCK_SIZE == 0 && op.first == |st.published| / BLOCK_SIZE
      requires op.first in st.live && st.live[op.first] == k && k in blks && blks[k] == newBlock
      modifies this`tailBlock, this`st
      ensures Linked() && Sound() && st.published == old(st).published && st.head == old(st).head
      ensures op'.xs == op.xs && st.prod == PWrite(op', 0) && AtTailBlock()
    {
      hide Good;
      hide Linked;
      InReprFacts();
      tailBlock := newBlock;
      op' := op.(news := [k]);
      BeginWriting(op');
    }

    /** enqueue, when it has reached the end of a block: a new one is the tail block. */
    method NextBlock(currentTailIndex: nat, memory: Memory, ghost op: Op) returns (ok: bool, ghost op': Op)
      requires Linked() && Sound() && st.prod == PCheck(op) && |op.xs| == 1 && op.news == []
      requires op.first == Ceil(|st.published|) && |st.published| % BLOCK_SIZE == 0 && LimitOk()
      requires currentTailIndex == Wrap(|st.published|) && headIndex == Wrap(st.head)
      requires st.head <= |st.published| && Room(st.head, Ceil(|st.published|), maxSubqueueSize)
      modifies this`blockIndex, this`nextBlockIndexCapacity, this`pool, this`tailBlock, repr
      modifies this`st, this`ents, this`blks, this`nextId, this`logCapacity, this`repr
      ensures Linked() && Sound() && fresh(repr - old(repr))
      ensures st.published == old(st).published && st.head == old(st).head && op'.xs == op.xs
      ensures ok ==> st.prod == PWrite(op', 0) && AtTailBlock() && Room(st.head, Ceil(|st.published| + 1), maxSubqueueSize)
      ensures !ok ==> st.prod == PIdle && tailBlock == old(tailBlock) && blks == old(blks) && pool == old(pool)
      ensures old(BlocksOf(pool, blks)) <= BlocksOf(pool, blks)
      ensures memory.Plenty? ==> (ok <==> Room(st.head, Ceil(|st.published| + 1), maxSubqueueSize))
    {
      hide BlocksOf;
      hide Good;
      hide Linked;
      hide Wrap;
      hide Undo;
      hide Room;
      hide Sound;
      InReprFacts();
      OneBlock(st, op);
      UndoProd(op, st);
      op' := op;
      var newBlock;
      ghost var k;
      ghost var pool0, blks0 := pool, blks;
      newBlock, k := StartBlock(currentTailIndex, memory, op);
      ok := newBlock != null;
      InReprFacts();
      if ok {
        NoneLostInUse(pool0, pool, blks0, k, newBlock);
        op' := MakeTail(newBlock, op, k);
      }
    }

    lemma ValidWithin(b: nat)
      requires LimitOk() && Sound() && st.prod.PIdle? && Counters() && Linked()
      requires st.head <= |st.published| && Room(st.head, Ceil(|st.published|), maxSubqueueSize)
      requires |st.published| % BLOCK_SIZE != 0 ==>
                 b == |st.published| / BLOCK_SIZE && b in st.live && st.live[b] in blks && tailBlock == blks[st.live[b]]
      ensures Valid()
    {
      hide Good;
      hide Linked;
      InReprFacts();
    }

    /** The element goes into the tail block and is published. */
    method Append(x: Elem, currentTailIndex: nat, ghost op: Op)
      requires Linked() && Sound() && st.prod == PWrite(op, 0) && op.xs == [x] && LimitOk() && Counters()
      requires AtTailBlock() && currentTailIndex == tailIndex
      requires st.head <= |st.published| && Room(st.head, Ceil(|st.published| + 1), maxSubqueueSize)
      modifies tailBlock.elements, this`st, this`tailIndex
      ensures Valid() && st.published == old(st).published + [x] && st.head == old(st).head
    {
      hide Good;
      hide Linked;
      InReprFacts();
      Construct(tailBlock, currentTailIndex, x, op, 0);
      WrapSum(|st.published|, 1);
      Publish(Wrap(1 + currentTailIndex), op);
      ValidWithin((|st.published| - 1) / BLOCK_SIZE);
    }

    /** enqueue up to the construction of the element. */
    method FindBlock(currentTailIndex: nat, memory: Memory, ghost op: Op) returns (ok: bool, ghost op': Op)
      requires Linked() && Sound() && st.prod == PCheck(op) && |op.xs| == 1 && op.news == []
      requires op.first == Ceil(|st.published|) && LimitOk() && TailLinked()
      requires currentTailIndex == Wrap(|st.published|) && headIndex == Wrap(st.head)
      requires st.head <= |st.published| && Room(st.head, Ceil(|st.published|), maxSubqueueSize)
      modifies this`blockIndex, this`nextBlockIndexCapacity, this`pool, this`tailBlock, repr
      modifies this`st, this`ents, this`blks, this`nextId, this`logCapacity, this`repr
      ensures Linked() && Sound() && fresh(repr - old(repr))
      ensures st.published == old(st).published && st.head == old(st).head && op'.xs == op.xs
      ensures ok ==> st.prod == PWrite(op', 0) && AtTailBlock() && Room(st.head, Ceil(|st.published| + 1), maxSubqueueSize)
      ensures !ok ==> st.prod == PIdle && tailBlock == old(tailBlock) && blks == old(blks) && pool == old(pool)
      ensures |st.published| % BLOCK_SIZE != 0 ==> ok
      ensures old(BlocksOf(pool, blks)) <= BlocksOf(pool, blks)
      ensures memory.Plenty? ==> (ok <==> Room(st.head, Ceil(|st.published| + 1), maxSubqueueSize))
    {
      hide BlocksOf;
      hide Good;
      hide Linked;
      InReprFacts();
      BaseWord(|st.published|, BLOCK_SIZE);
      if currentTailIndex % BLOCK_SIZE == 0 {
        ok, op' := NextBlock(currentTailIndex, memory, op);
      } else {
        ok, op' := true, op;
        BeginWriting(op);
      }
    }

    /**
     Appends x, or changes nothing. Without a new block it succeeds; a new block needs room within half the
     index range and within the limit, and memory. With memory, it succeeds exactly if there is room.
    */
    method Enqueue(x: Elem, memory: Memory) returns (ok: bool)
      requires Valid()
      modifies this, repr
      ensures Valid() && fresh(repr - old(repr))
      ensures Contents() == old(Contents()) + (if ok then [x] else [])
      ensures old(BlockHasRoom()) ==> ok
      ensures ok ==> Room(old(st).head, Ceil(|old(st).published| + 1), maxSubqueueSize)
      ensures !ok ==> tailBlock == old(tailBlock) && blks == old(blks) && pool == old(pool)
      ensures old(BlocksOf(pool, blks)) <= BlocksOf(pool, blks)
      ensures memory.Plenty? && old(blockIndex) != null ==> (ok <==> Room(old(st).head, Ceil(|old(st).published| + 1), maxSubqueueSize))
    {
      hide BlocksOf;
      hide HeaderLinked;
      hide BlocksLinked;
      hide Good;
      hide Linked;
      hide Room;
      hide Wrap;
      if blockIndex == null {
        return false;
      }
      InReprFacts();
      var currentTailIndex := tailIndex;
      ghost var op := Begin([x]);
      ok, op := FindBlock(currentTailIndex, memory, op);
      InReprFacts();
      if ok {
        BlockInRepr(st.live[|st.published| / BLOCK_SIZE]);
        Append(x, currentTailIndex, op);
      }
    }

    // -----------------------------------------------------------------
    // Taking elements out
    // -----------------------------------------------------------------

    /** get_block_index_index_for_index, for the first index just claimed. */
    method LookUp(index: nat, ghost i: nat, ghost j: nat) returns (idx: nat)
      requires Linked() && Solo(st) && st.cons[0] == CHeader(i, j) && st.prod.PIdle?
      requires index == Wrap(i) && Ceil(|st.published|) * BLOCK_SIZE - i < HALF
      modifies this`st
      ensures Linked() && Solo(st) && st == old(st).(cons := st.cons)
      ensures st.headers != [] && st.cons[0] == CEntry(i, j, |st.headers| - 1, idx)
    {
      hide Good;
      hide HeaderLinked;
      hide EntriesLinked;
      hide BlocksLinked;
      hide Separate;
      LookUpGood(st, i, j);
      BaseWord(i, BLOCK_SIZE);
      assert Good(st) by { SoloGood(st); }
      idx := GetBlockIndexIndexForIndex(index, i / BLOCK_SIZE, Inserted(st) - 1);
      st := LookedUp(st, i, j);
    }

    /** The entry at a position and the block it points to. */
    method ReadEntry(idx: nat, ghost i: nat, ghost j: nat)
      returns (entry: BlockIndexEntry, block: ElementBlock, ghost e: nat, ghost k: nat)
      requires Linked() && Solo(st) && st.cons[0] == CEntry(i, j, |st.headers| - 1, idx)
      modifies this`st
      ensures Linked() && Solo(st) && st == old(st).(cons := st.cons)
      ensures st.cons[0] == CMove(i, j, |st.headers| - 1, idx, e, k, i)
      ensures e < |ents| && entry == ents[e] && k in blks && block == blks[k]
    {
      hide Good;
      hide KeyWord;
      hide Separate;
      EntryGood(st, i, j, |st.headers| - 1, idx);
      entry := blockIndex.index[idx];
      block := entry.value;
      e, k := Cur(st).index[idx], st.live[i / BLOCK_SIZE];
      st := Go(st, 0, CMove(i, j, |st.headers| - 1, idx, e, k, i));
    }

    /** An element is moved out and destroyed. */
    method MoveOut(block: ElementBlock, index: nat, ghost i: nat, ghost j: nat, ghost idx: nat, ghost e: nat,
                   ghost k: nat, ghost from: nat)
      returns (v: Elem)
      requires Linked() && Solo(st) && st.cons[0] == CMove(i, j, |st.headers| - 1, idx, e, k, from)
      requires k in blks && block == blks[k] && index == Wrap(i)
      modifies block.elements, this`st
      ensures Linked() && Solo(st) && st == old(st).(cons := st.cons, blocks := st.blocks, out := st.out)
      ensures i < |st.published| && v == st.published[i]
      ensures st.cons[0] ==
                if i + 1 < Integers.Min(j, (from / BLOCK_SIZE + 1) * BLOCK_SIZE)
                then CMove(i + 1, j, |st.headers| - 1, idx, e, k, from)
                else CCount(i + 1, j, |st.headers| - 1, idx, e, k, from)
    {
      hide Linked;
      hide Good;
      MoveGood(st, i, j, |st.headers| - 1, idx, e, k, from);
      assert Shape(st) by { SoloGood(st); }
      BaseWord(i, BLOCK_SIZE);
      BlockAt(k);
      v := block.elements[index % BLOCK_SIZE].v;
      PutSlot(block, index % BLOCK_SIZE, Slot.Empty, k, DoMove(st, 0, i, j, |st.headers| - 1, idx, e, k, from));
    }

    /** set_many_empty */
    method SetManyEmpty(block: ElementBlock, count: nat, ghost i: nat, ghost j: nat, ghost idx: nat, ghost e: nat,
                        ghost k: nat, ghost from: nat)
      returns (full: bool)
      requires Linked() && Solo(st) && st.cons[0] == CCount(i, j, |st.headers| - 1, idx, e, k, from)
      requires k in blks && block == blks[k] && count == i - from
      modifies block`dequeued, this`st
      ensures Linked() && Solo(st) && st == old(st).(cons := st.cons, blocks := st.blocks)
      ensures Shape(st) && st.cons[0] ==
                if full then CNull(i, j, |st.headers| - 1, idx, e, k) else Onward(st, i, j, |st.headers| - 1, idx)
    {
      hide Linked;
      hide Good;
      hide Shape;
      CountGood(st, i, j, |st.headers| - 1, idx, e, k, from);
      assert Shape(st) by { SoloGood(st); }
      BlockAt(k);
      var prevVal := block.dequeued;
      assert prevVal + count <= BLOCK_SIZE;
      full := prevVal + count == BLOCK_SIZE;
      PutCount(block, prevVal + count, k, DoCount(st, 0, i, j, |st.headers| - 1, idx, e, k, from));
      assert Shape(st) by { SoloGood(st); }
    }

    /** The entry of an emptied block is cleared. */
    method ClearEntry(entry: BlockIndexEntry, ghost i: nat, ghost j: nat, ghost idx: nat, ghost e: nat, ghost k: nat)
      requires Linked() && Solo(st) && st.cons[0] == CNull(i, j, |st.headers| - 1, idx, e, k)
      requires e < |ents| && entry == ents[e]
      modifies entry`value, this`st
      ensures Linked() && Solo(st) && st == old(st).(cons := st.cons, entries := st.entries, live := st.live)
      ensures st.cons[0] == CFree(i, j, |st.headers| - 1, idx, k)
      ensures forall b :: b in st.live ==> b in old(st).live && st.live[b] == old(st).live[b]
    {
      hide Good;
      hide Linked;
      NullGood(st, i, j, |st.headers| - 1, idx, e, k);
      InReprFacts();
      ClearValue(entry, e, DoNull(st, 0, i, j, |st.headers| - 1, idx, e, k));
    }

    /** add_block_to_free_list */
    method AddBlockToFreeList(block: ElementBlock, ghost i: nat, ghost j: nat, ghost idx: nat, ghost k: nat)
      requires Linked() && Solo(st) && st.cons[0] == CFree(i, j, |st.headers| - 1, idx, k) && k in blks && block == blks[k]
      modifies this`pool, this`st, this`blks
      ensures Linked() && Solo(st) && st == old(st).(cons := st.cons, blocks := st.blocks)
      ensures Shape(st) && st.cons[0] == Onward(st, i, j, |st.headers| - 1, idx)
      ensures pool == old(pool) + [block] && blks == old(blks) - {k}
      ensures old(BlocksOf(pool, blks)) <= BlocksOf(pool, blks)
    {
      hide BlocksOf;
      hide Linked;
      hide Good;
      hide Shape;
      FreeGood(st, i, j, |st.headers| - 1, idx, k);
      assert Shape(st) by { SoloGood(st); }
      NoneLostInPool(pool, blks, k);
      DropBlock(block, k, DoFree(st, 0, i, j, |st.headers| - 1, idx, k));
      assert Shape(st) by { SoloGood(st); }
    }

    /** All that is in the block up to endIndex is moved out, in order. */
    method MoveBlock(block: ElementBlock, blockStartIndex: nat, endIndex: nat, ghost i: nat, ghost j: nat, ghost idx: nat,
                     ghost e: nat, ghost k: nat, ghost end: nat)
      returns (items: seq<Elem>)
      requires Linked() && Solo(st) && st.cons[0] == CMove(i, j, |st.headers| - 1, idx, e, k, i)
      requires k in blks && block == blks[k] && i < end == Integers.Min(j, (i / BLOCK_SIZE + 1) * BLOCK_SIZE)
      requires blockStartIndex == Wrap(i) && endIndex == Wrap(end) && j <= |st.published|
      modifies block.elements, this`st
      ensures Linked() && Solo(st) && st == old(st).(cons := st.cons, blocks := st.blocks, out := st.out)
      ensures st.cons[0] == CCount(end, j, |st.headers| - 1, idx, e, k, i)
      ensures end <= |st.published| && items == st.published[i..end]
    {
      hide Good;
      hide Linked;
      var index := blockStartIndex;
      ghost var x := i;
      items := [];
      while index != endIndex
        invariant Linked() && Solo(st) && st == old(st).(cons := st.cons, blocks := st.blocks, out := st.out)
        invariant i <= x <= end && index == Wrap(x)
        invariant st.cons[0] == if x < end then CMove(x, j, |st.headers| - 1, idx, e, k, i)
                                else CCount(end, j, |st.headers| - 1, idx, e, k, i)
        invariant x <= |st.published| && items == st.published[i..x]
        decreases end - x
      {
        assert x < end;
        var v := MoveOut(block, index, x, j, idx, e, k, i);
        items := items + [v];
        WrapSum(x, 1);
        index := Wrap(index + 1);
        x := x + 1;
      }
      if x < end {
        Integers.Apart(x, end, WORD);
      }
    }

    /** The elements moved out of the block are counted, and a block without elements is released. */
    method FinishBlock(entry: BlockIndexEntry, block: ElementBlock, count: nat, ghost i: nat, ghost j: nat, ghost idx: nat,
                       ghost e: nat, ghost k: nat, ghost from: nat)
      requires Linked() && Solo(st) && st.cons[0] == CCount(i, j, |st.headers| - 1, idx, e, k, from)
      requires e < |ents| && entry == ents[e] && k in blks && block == blks[k] && count == i - from
      modifies block`dequeued, entry`value, this`pool, this`st, this`blks
      ensures Linked() && Solo(st) && Shape(st) && st.cons[0] == Onward(st, i, j, |st.headers| - 1, idx)
      ensures TookOnly(old(st), old(blks), st, blks)
      ensures old(BlocksOf(pool, blks)) <= BlocksOf(pool, blks)
    {
      hide BlocksOf;
      hide Good;
      hide Linked;
      hide Shape;
      var full := SetManyEmpty(block, count, i, j, idx, e, k, from);
      if full {
        ClearEntry(entry, i, j, idx, e, k);
        AddBlockToFreeList(block, i, j, idx, k);
      }
    }

    // -----------------------------------------------------------------
    // dequeue
    // -----------------------------------------------------------------

    /** The indices from the head on become the consumer's. */
    ghost method Claim(n: nat)
      requires Linked() && Sound() && st.prod.PIdle? && 0 < n <= |st.published| - st.head
      modifies this`st
      ensures Linked() && Solo(st) && st == old(st).(cons := st.cons, head := st.head)
      ensures st.head == old(st).head + n && st.cons[0] == CHeader(old(st).head, st.head)
    {
      hide Good;
      hide Linked;
      ClaimGood(st, n);
      SetState(DoClaim(st, 0, n));
    }

    /** One element of a block, just claimed. */
    method TakeOne(index: nat) returns (v: Elem)
      requires Linked() && Sound() && st.prod.PIdle? && st.head < |st.published| && index == Wrap(st.head)
      requires Ceil(|st.published|) * BLOCK_SIZE - st.head < HALF
      modifies this`st, this`pool, this`blks, repr
      ensures Linked() && Sound() && v == old(st.published[st.head])
      ensures st.head == old(st).head + 1 && TookOnly(old(st).(head := st.head), old(blks), st, blks)
      ensures old(BlocksOf(pool, blks)) <= BlocksOf(pool, blks)
    {
      hide BlocksOf;
      hide InRepr;
      hide Good;
      hide Linked;
      InReprFacts();
      ghost var i := st.head;
      Claim(1);
      var idx := LookUp(index, i, i + 1);
      var entry, block;
      ghost var e, k;
      entry, block, e, k := ReadEntry(idx, i, i + 1);
      EntryInRepr(e);
      BlockInRepr(k);
      v := MoveOut(block, index, i, i + 1, idx, e, k, i);
      FinishBlock(entry, block, 1, i + 1, i + 1, idx, e, k, i);
      SoloIdle(st);
    }

    lemma Tail()
      requires Linked() && Sound() && st.prod.PIdle?
      ensures var b := |st.published| / BLOCK_SIZE;
              |st.published| % BLOCK_SIZE != 0 ==> b in st.live && st.live[b] in blks
    {
      hide Shared;
      hide Shape;
      hide RingInv;
      hide NewsInv;
      var b := |st.published| / BLOCK_SIZE;
      if |st.published| % BLOCK_SIZE != 0 {
        BlockIn(b);
      }
    }

    /** Taking elements out leaves the tail block where it is. */
    lemma TookValid(s: State, bs: map<nat, ElementBlock>)
      requires Linked() && Sound() && LimitOk() && st.prod.PIdle? && Counters() && TookOnly(s.(head := st.head), bs, st, blks)
      requires s.head <= st.head <= |st.published| && Room(s.head, Ceil(|st.published|), maxSubqueueSize)
      requires var b := |s.published| / BLOCK_SIZE;
               |s.published| % BLOCK_SIZE != 0 ==> b in s.live && s.live[b] in bs && tailBlock == bs[s.live[b]]
      ensures Valid()
    {
      hide Good;
      hide Linked;
      InReprFacts();
      Tail();
    }

    /** Removes the oldest element, if there is one. */
    method Dequeue() returns (r: Option<Elem>)
      requires Valid()
      modifies this`dequeueOptimisticCount, this`dequeueOvercommit, this`headIndex, this`st, this`pool, this`blks, repr
      ensures Valid() && tailBlock == old(tailBlock)
      ensures old(Contents()) == [] ==> r == None && Contents() == []
      ensures old(Contents()) != [] ==> r == Some(old(Contents())[0]) && Contents() == old(Contents())[1..]
      ensures old(BlocksOf(pool, blks)) <= BlocksOf(pool, blks)
    {
      hide BlocksOf;
      hide Good;
      hide Linked;
      hide LessThan;
      hide Wrap;
      r := None;
      var tail := tailIndex;
      var overcommit: int := dequeueOvercommit;
      ClaimExactly(st.head, |st.published|, overcommit);
      if LessThan(dequeueOptimisticCount - overcommit, tail) {
        InReprFacts();
        var myDequeueCount: int := dequeueOptimisticCount;
        dequeueOptimisticCount := Wrap(dequeueOptimisticCount + 1);
        tail := tailIndex;
        var backed := LessThan(myDequeueCount - overcommit, tail);
        dequeueOvercommit := if backed then dequeueOvercommit else Wrap(dequeueOvercommit + 1);
        if backed {
          var index := headIndex;
          headIndex := Wrap(headIndex + 1);
          ghost var s, bs := st, blks;
          WrapSum(s.head, 1);
          WrapSum(s.head + overcommit, 1);
          var v := TakeOne(index);
          TookValid(s, bs);
          r := Some(v);
        }
      }
    }

    // -----------------------------------------------------------------
    // dequeue_bulk
    // -----------------------------------------------------------------

    /** The part of the claimed elements that lies in one block. */
    method TakePart(index: nat, stopIndex: nat, indexIndex: nat, ghost i: nat, ghost j: nat)
      returns (items: seq<Elem>, endIndex: nat, nextIndexIndex: nat, ghost end: nat)
      requires Linked() && Solo(st) && st.cons[0] == CEntry(i, j, |st.headers| - 1, indexIndex)
      requires i < j <= |st.published| && j - i < HALF && index == Wrap(i) && stopIndex == Wrap(j)
      modifies this`st, this`pool, this`blks, repr
      ensures Linked() && Solo(st) && TookOnly(old(st), old(blks), st, blks)
      ensures i < end <= j && endIndex == Wrap(end) && items == old(st.published)[i..end]
      ensures st.headers != [] && st.cons[0] ==
                if end < j then CEntry(end, j, |st.headers| - 1, nextIndexIndex) else CIdle
      ensures old(BlocksOf(pool, blks)) <= BlocksOf(pool, blks)
    {
      hide Cur;
      hide Needed;
      hide BlocksOf;
      hide Good;
      hide Linked;
      hide Wrap;
      hide LessThan;
      InReprFacts();
      end := Integers.Min(j, (i / BLOCK_SIZE + 1) * BLOCK_SIZE);
      endIndex := Wrap(index - index % BLOCK_SIZE + BLOCK_SIZE);
      endIndex := if LessThan(stopIndex, endIndex) then stopIndex else endIndex;
      EndIndex(i, j);
      var entry, block;
      ghost var e, k;
      entry, block, e, k := ReadEntry(indexIndex, i, j);
      EntryInRepr(e);
      BlockInRepr(k);
      items := MoveBlock(block, index, endIndex, i, j, indexIndex, e, k, end);
      FinishBlock(entry, block, Wrap(endIndex - index), end, j, indexIndex, e, k, i);
      nextIndexIndex := NextPosition(indexIndex, end, j);
    }

    method NextPosition(indexIndex: nat, ghost end: nat, ghost j: nat) returns (next: nat)
      requires Linked() && Solo(st) && Shape(st)
      ensures st.headers != [] && 0 < st.headers[|st.headers| - 1].capacity
      ensures Onward(st, end, j, |st.headers| - 1, indexIndex) ==
                if end < j then CEntry(end, j, |st.headers| - 1, next) else CIdle
    {
      next := (indexIndex + 1) % blockIndex.capacity;
    }

    /** The n elements from firstIndex on, block by block. */
    method TakeMany(firstIndex: nat, n: nat) returns (items: seq<Elem>)
      requires Linked() && Sound() && st.prod.PIdle? && 0 < n <= |st.published| - st.head && firstIndex == Wrap(st.head)
      requires Ceil(|st.published|) * BLOCK_SIZE - st.head < HALF
      modifies this`st, this`pool, this`blks, repr
      ensures Linked() && Sound() && items == old(st.published[st.head..st.head + n])
      ensures st.head == old(st).head + n && TookOnly(old(st).(head := st.head), old(blks), st, blks)
      ensures old(BlocksOf(pool, blks)) <= BlocksOf(pool, blks)
    {
      hide BlocksOf;
      hide Good;
      hide Linked;
      hide Wrap;
      InReprFacts();
      ghost var i, j := st.head, st.head + n;
      ghost var x := i;
      Claim(n);
      var index := firstIndex;
      var stopIndex := Wrap(firstIndex + n);
      WrapSum(i, n);
      var indexIndex := LookUp(index, i, j);
      items := [];
      while true
        invariant Linked() && Solo(st) && TookOnly(old(st).(head := st.head), old(blks), st, blks)
        invariant st.head == j && i <= x < j && index == Wrap(x)
        invariant st.cons[0] == CEntry(x, j, |st.headers| - 1, indexIndex)
        invariant items == old(st).published[i..x]
        invariant old(BlocksOf(pool, blks)) <= BlocksOf(pool, blks)
        decreases j - x
      {
        var part;
        ghost var end;
        part, index, indexIndex, end := TakePart(index, stopIndex, indexIndex, x, j);
        items := items + part;
        x := end;
        WordsDiffer(x, j);
        if index == stopIndex {
          break;
        }
      }
      SoloIdle(st);
    }

    /** The head is moved over n elements that are there, and they are taken. */
    method ClaimMany(n: nat) returns (items: seq<Elem>)
      requires Linked() && Sound() && st.prod.PIdle? && LimitOk() && TailLinked()
      requires 0 < n <= |st.published| - st.head && Room(st.head, Ceil(|st.published|), maxSubqueueSize)
      requires tailIndex == Wrap(|st.published|) && headIndex == Wrap(st.head)
      requires dequeueOptimisticCount == Wrap(st.head + n + dequeueOvercommit)
      modifies this`headIndex, this`st, this`pool, this`blks, repr
      ensures Valid() && items == old(st.published[st.head..st.head + n])
      ensures st.published == old(st).published && st.head == old(st).head + n
      ensures old(BlocksOf(pool, blks)) <= BlocksOf(pool, blks)
    {
      hide BlocksOf;
      hide Good;
      hide Linked;
      hide Wrap;
      InReprFacts();
      var firstIndex := headIndex;
      WrapSum(st.head, n);
      headIndex := Wrap(headIndex + n);
      ghost var s, bs := st, blks;
      items := TakeMany(firstIndex, n);
      TookValid(s, bs);
    }

    /**
     Removes up to max of the oldest elements: with no dequeue beside it, exactly as many as there are.
    */
    method DequeueBulk(max: nat) returns (items: seq<Elem>)
      requires Valid()
      modifies this`dequeueOptimisticCount, this`dequeueOvercommit, this`headIndex, this`st, this`pool, this`blks, repr
      ensures Valid() && tailBlock == old(tailBlock)
      ensures items == old(Contents())[..Integers.Min(max, |old(Contents())|)]
      ensures old(Contents()) == items + Contents()
      ensures old(BlocksOf(pool, blks)) <= BlocksOf(pool, blks)
    {
      hide BlocksOf;
      hide Good;
      hide Linked;
      hide LessThan;
      hide Wrap;
      items := [];
      var tail := tailIndex;
      var overcommit: int := dequeueOvercommit;
      ClaimExactly(st.head, |st.published|, overcommit);
      CountPositive(|st.published| - st.head);
      var desiredCount := Wrap(tail - (dequeueOptimisticCount - overcommit));
      if LessThan(0, desiredCount) && max > 0 {
        InReprFacts();
        desiredCount := if desiredCount < max then desiredCount else max;
        var myDequeueCount: int := dequeueOptimisticCount;
        dequeueOptimisticCount := Wrap(dequeueOptimisticCount + desiredCount);
        tail := tailIndex;
        var actualCount := Wrap(tail - (myDequeueCount - overcommit));
        var backed := LessThan(0, actualCount);
        actualCount := if desiredCount < actualCount then desiredCount else actualCount;
        dequeueOvercommit := if !backed then Wrap(dequeueOvercommit + desiredCount)
                             else if actualCount < desiredCount then Wrap(dequeueOvercommit + desiredCount - actualCount)
                             else dequeueOvercommit;
        if backed {
          WrapSum(st.head + overcommit, actualCount);
          items := ClaimMany(actualCount);
        }
      }
    }

    // -----------------------------------------------------------------
    // enqueue_bulk
    // -----------------------------------------------------------------

    /** Links between blocks are nobody's business but those who follow them. */
    method SetNext(block: ElementBlock, next: ElementBlock?)
      requires Linked() && block in repr
      modifies block`next
      ensures Linked() && block.next == next
    {
      hide HeaderLinked;
      hide EntriesLinked;
      hide Separate;
      block.next := next;
    }

    /** The new block becomes the tail block and the last of the chain. */
    method ChainBlock(newBlock: ElementBlock, linkTail: bool, ghost chain: seq<ElementBlock>)
      requires Linked() && newBlock in repr && Chain(chain) && newBlock !in chain && (linkTail ==> tailBlock != newBlock)
      requires if chain == [] then linkTail ==> tailBlock != null else linkTail && tailBlock == chain[|chain| - 1]
      requires tailBlock != null && linkTail ==> tailBlock in repr
      modifies newBlock`next, repr, this`tailBlock
      ensures Linked() && Chain(chain + [newBlock]) && tailBlock == newBlock
      ensures old(tailBlock) != null && linkTail ==> old(tailBlock).next == newBlock
      ensures forall p: ElementBlock :: p in repr && p != newBlock && p != old(tailBlock) ==> p.next == old(p.next)
    {
      hide Linked;
      InReprFacts();
      ghost var all := chain + [newBlock];
      SetNext(newBlock, null);
      if linkTail {
        SetNext(tailBlock, newBlock);
      }
      InReprFacts();
      tailBlock := newBlock;
    }

    lemma BlocksApart()
      requires Linked()
      ensures forall k, l :: k in blks && l in blks && k != l ==> blks[k] != blks[l]
    {
      hide HeaderLinked;
      hide EntriesLinked;
      hide BlocksLinked;
    }

    twostate lemma ChainKept(chain: seq<ElementBlock>)
      requires old(Chain(chain)) && forall i :: 0 <= i < |chain| ==> chain[i].next == old(chain[i].next)
      ensures Chain(chain)
    {
    }

    /** The chain with one more block. */
    method ExtendChain(newBlock: ElementBlock, linkTail: bool, ghost k: nat, ghost news: seq<nat>, ghost chain: seq<ElementBlock>,
                       ghost s0: State, ghost blks1: map<nat, ElementBlock>, ghost blks0: map<nat, ElementBlock>,
                       ghost startBlock: ElementBlock?)
      requires Linked() && Added(blks1, blks0, news, chain) && k !in blks1 && blks == blks1[k := newBlock]
      requires Chain(chain) && StartOk(s0, blks0, startBlock, chain) && tailBlock == LastOf(startBlock, chain)
      requires linkTail <==> |s0.published| % BLOCK_SIZE != 0 || chain != []
      modifies repr, this`tailBlock
      ensures Linked() && Added(blks, blks0, news + [k], chain + [newBlock]) && Chain(chain + [newBlock])
      ensures StartOk(s0, blks0, startBlock, chain + [newBlock]) && tailBlock == newBlock
    {
      hide Linked;
      hide Chain;
      hide Added;
      ghost var b0 := |s0.published| / BLOCK_SIZE;
      ghost var chain' := chain + [newBlock];
      InReprFacts();
      ChainInUse(blks1, blks0, news, chain, startBlock, s0);
      AddedMore(blks1, blks0, news, chain, k, newBlock);
      BlocksApart();
      ChainApart(blks, blks0, news + [k], chain', if b0 in s0.live then s0.live[b0] else 0);
      assert newBlock == blks[k] && newBlock == chain'[|chain|];
      assert forall i :: 0 <= i < |chain| ==> chain[i] == chain'[i];
      assert chain != [] ==> blks[news[|chain| - 1]] == tailBlock;
      assert chain == [] && linkTail ==> blks[s0.live[b0]] == tailBlock;
      BlockInRepr(k);
      if chain != [] {
        BlockInRepr(news[|chain| - 1]);
      } else if linkTail {
        BlockInRepr(s0.live[b0]);
      }
      ChainBlock(newBlock, linkTail, chain);
    }

    /** The new block itself, not yet linked to the others. */
    method StartNext(currentTailIndex: nat, memory: Memory, ghost op: Op, ghost s0: State, ghost blks0: map<nat, ElementBlock>,
                     ghost startBlock: ElementBlock?, ghost chain: seq<ElementBlock>)
      returns (newBlock: ElementBlock?, ghost k: nat)
      requires Linked() && Sound() && st.prod == PCheck(op) && Upcoming(op) <= Needed(st, op) && LimitOk()
      requires Since0(st, s0, op) && Room(st.head, Upcoming(op), maxSubqueueSize)
      requires Added(blks, blks0, op.news, chain) && Chain(chain) && StartOk(s0, blks0, startBlock, chain)
      requires currentTailIndex == Wrap(Upcoming(op) * BLOCK_SIZE) && headIndex == Wrap(st.head)
      modifies this`blockIndex, this`nextBlockIndexCapacity, this`pool, repr
      modifies this`st, this`ents, this`blks, this`nextId, this`logCapacity, this`repr
      ensures Linked() && Sound() && fresh(repr - old(repr)) && Since0(st, s0, op)
      ensures Chain(chain) && StartOk(s0, blks0, startBlock, chain)
      ensures newBlock == null ==> blks == old(blks) && st.prod == Undo(st, op, 0).prod
      ensures newBlock != null ==>
                && st.prod == PCheck(op.(news := op.news + [k])) && k !in old(blks) && blks == old(blks)[k := newBlock]
                && Room(st.head, Upcoming(op) + 1, maxSubqueueSize)
      ensures old(BlocksOf(pool, blks)) <= BlocksOf(pool, blks)
      ensures memory.Plenty? && newBlock == null ==> !Room(st.head, Upcoming(op) + 1, maxSubqueueSize)
    {
      hide BlocksOf;
      hide Good;
      hide Linked;
      hide Chain;
      hide Added;
      hide Undo;
      hide Wrap;
      hide Needed;
      hide Room;
      InReprFacts();
      ChainInUse(blks, blks0, op.news, chain, startBlock, s0);
      UndoProd(op, st);
      ghost var pool0, blks1 := pool, blks;
      newBlock, k := StartBlock(currentTailIndex, memory, op);
      if newBlock != null {
        NoneLostInUse(pool0, pool, blks1, k, newBlock);
      }
      ChainKept(chain);
      UndoProd(op, st);
    }

    /** One more block for an enqueue_bulk that started in state s0 with the blocks blks0 in use. */
    method AllocateOne(currentTailIndex: nat, memory: Memory, linkTail: bool, ghost op: Op, ghost s0: State,
                       ghost blks0: map<nat, ElementBlock>, ghost startBlock: ElementBlock?, ghost chain: seq<ElementBlock>)
      returns (newBlock: ElementBlock?, ghost op': Op, ghost chain': seq<ElementBlock>)
      requires Linked() && Sound() && st.prod == PCheck(op) && Upcoming(op) <= Needed(st, op) && LimitOk()
      requires Since0(st, s0, op) && Room(st.head, Upcoming(op), maxSubqueueSize)
      requires Added(blks, blks0, op.news, chain) && Chain(chain) && StartOk(s0, blks0, startBlock, chain)
      requires tailBlock == LastOf(startBlock, chain)
      requires currentTailIndex == Wrap(Upcoming(op) * BLOCK_SIZE) && headIndex == Wrap(st.head)
      requires linkTail <==> |st.published| % BLOCK_SIZE != 0 || chain != []
      modifies this`blockIndex, this`nextBlockIndexCapacity, this`pool, this`tailBlock, repr
      modifies this`st, this`ents, this`blks, this`nextId, this`logCapacity, this`repr
      ensures Linked() && Sound() && fresh(repr - old(repr))
      ensures Since0(st, s0, op') && Room(st.head, Upcoming(op'), maxSubqueueSize)
      ensures Added(blks, blks0, op'.news, chain') && Chain(chain') && StartOk(s0, blks0, startBlock, chain')
      ensures tailBlock == LastOf(startBlock, chain')
      ensures newBlock == null ==> op' == op && chain' == chain && st.prod == Undo(st, op, 0).prod
      ensures newBlock != null ==>
                && chain' == chain + [newBlock] && st.prod == PCheck(op') && op'.xs == op.xs && op'.first == op.first
      ensures old(BlocksOf(pool, blks)) <= BlocksOf(pool, blks)
      ensures memory.Plenty? && newBlock == null ==> !Room(st.head, Upcoming(op) + 1, maxSubqueueSize)
    {
      hide BlocksOf;
      hide Good;
      hide Linked;
      hide Chain;
      hide Added;
      hide Undo;
      hide StartOk;
      hide Needed;
      hide Room;
      InReprFacts();
      op', chain' := op, chain;
      ghost var k;
      ghost var blks1 := blks;
      newBlock, k := StartNext(currentTailIndex, memory, op, s0, blks0, startBlock, chain);
      InReprFacts();
      if newBlock != null {
        op', chain' := op.(news := op.news + [k]), chain + [newBlock];
        ExtendChain(newBlock, linkTail, k, op.news, chain, s0, blks1, blks0, startBlock);
      }
    }

    /** The blocks an enqueue_bulk needs, until the first that cannot be had. */
    method AllocateBlocks(startTailIndex: nat, blockBase: nat, baseDiff: nat, memory: Memory, ghost op0: Op, ghost s0: State,
                          ghost blks0: map<nat, ElementBlock>, ghost startBlock: ElementBlock?)
      returns (ok: bool, firstAllocatedBlock: ElementBlock?, endBlock: ElementBlock?, ghost op: Op, ghost chain: seq<ElementBlock>)
      requires Linked() && Sound() && st.prod == PCheck(op0) && op0.news == [] && op0.xs != [] && LimitOk()
      requires Since0(st, s0, op0) && Room(st.head, Upcoming(op0), maxSubqueueSize)
      requires blks == blks0 && tailBlock == startBlock && StartOk(s0, blks0, startBlock, [])
      requires startTailIndex == Wrap(|st.published|) && headIndex == Wrap(st.head)
      requires blockBase == Wrap((op0.first - 1) * BLOCK_SIZE)
      requires baseDiff == (Needed(st, op0) + 1 - op0.first) * BLOCK_SIZE
      modifies this`blockIndex, this`nextBlockIndexCapacity, this`pool, this`tailBlock, repr
      modifies this`st, this`ents, this`blks, this`nextId, this`logCapacity, this`repr
      ensures Linked() && Sound() && fresh(repr - old(repr)) && op.xs == op0.xs && op.first == op0.first
      ensures Since0(st, s0, op) && Room(st.head, Upcoming(op), maxSubqueueSize)
      ensures Added(blks, blks0, op.news, chain) && Chain(chain) && StartOk(s0, blks0, startBlock, chain)
      ensures tailBlock == LastOf(startBlock, chain) && (firstAllocatedBlock == if chain == [] then null else chain[0])
      ensures ok ==> st.prod == PCheck(op) && Upcoming(op) == Needed(st, op) + 1 && endBlock == tailBlock
      ensures !ok ==> st.prod == Undo(st, op, 0).prod && baseDiff > 0
      ensures old(BlocksOf(pool, blks)) <= BlocksOf(pool, blks)
      ensures memory.Plenty? && !ok ==> !Room(st.head, Needed(st, op) + 1, maxSubqueueSize)
    {
      hide BlocksLinked;
      hide Ceil;
      hide Separate;
      hide LimitOk;
      hide BlocksOf;
      hide Good;
      hide Linked;
      hide Added;
      hide Chain;
      hide StartOk;
      hide Room;
      hide Undo;
      hide Wrap;
      ok, firstAllocatedBlock, endBlock, op, chain := true, null, tailBlock, op0, [];
      NothingAdded(blks0);
      InReprFacts();
      BaseWord(|st.published|, BLOCK_SIZE);
      var blockBaseDiff := baseDiff;
      var currentTailIndex := blockBase;
      while blockBaseDiff > 0
        invariant Linked() && Sound() && fresh(repr - old(repr)) && st.prod == PCheck(op)
        invariant op.xs == op0.xs && op.first == op0.first
        invariant Since0(st, s0, op) && Room(st.head, Upcoming(op), maxSubqueueSize)
        invariant Added(blks, blks0, op.news, chain) && |op.news| == |chain| && Chain(chain)
        invariant StartOk(s0, blks0, startBlock, chain)
        invariant tailBlock == LastOf(startBlock, chain) && (firstAllocatedBlock == if chain == [] then null else chain[0])
        invariant endBlock == tailBlock
        invariant currentTailIndex == Wrap((Upcoming(op) - 1) * BLOCK_SIZE)
        invariant 0 <= blockBaseDiff == (Needed(st, op) + 1 - Upcoming(op)) * BLOCK_SIZE
        invariant headIndex == Wrap(st.head)
        invariant old(BlocksOf(pool, blks)) <= BlocksOf(pool, blks)
      {
        blockBaseDiff := blockBaseDiff - BLOCK_SIZE;
        WrapSum((Upcoming(op) - 1) * BLOCK_SIZE, BLOCK_SIZE);
        currentTailIndex := Wrap(currentTailIndex + BLOCK_SIZE);
        InReprFacts();
        var newBlock;
        newBlock, op, chain := AllocateOne(currentTailIndex, memory,
          startTailIndex % BLOCK_SIZE != 0 || firstAllocatedBlock != null, op, s0, blks0, startBlock, chain);
        if newBlock == null {
          RoomLess(st.head, Upcoming(op) + 1, Needed(st, op) + 1, maxSubqueueSize);
          return false, firstAllocatedBlock, endBlock, op, chain;
        }
        endBlock := newBlock;
        firstAllocatedBlock := if firstAllocatedBlock == null then newBlock else firstAllocatedBlock;
        AddedLength(blks, blks0, op.news, chain);
      }
    }

    /** get_block_index_entry_for_index, for new block j. */
    method FindNewEntry(currentTailIndex: nat, ghost op: Op, ghost j: nat) returns (idxEntry: BlockIndexEntry)
      requires Linked() && Sound() && st.prod == PUndoValue(op, j) && currentTailIndex == Wrap((op.first + j) * BLOCK_SIZE)
      requires st.head <= op.first * BLOCK_SIZE && Upcoming(op) * BLOCK_SIZE - st.head < HALF
      ensures LookupNow(st, op.first + j) < |ents| == |st.entries| && idxEntry == ents[LookupNow(st, op.first + j)]
    {
      hide Own;
      hide Shared;
      hide KeyWord;
      hide Separate;
      hide BlocksLinked;
      hide LookupAt;
      HeaderFacts(st);
      UndoValueGood(st, op, j);
      BlockTheorems.UndoReady(st, op, j);
      BaseWord((op.first + j) * BLOCK_SIZE, BLOCK_SIZE);
      var idx := GetBlockIndexIndexForIndex(currentTailIndex, op.first + j, Inserted(st) - 1);
      idxEntry := blockIndex.index[idx];
    }

    /** The entry of new block j is looked up, from a tail that may have been moved back already, and cleared. */
    method UndoEntry(currentTailIndex: nat, ghost op: Op, ghost j: nat)
      requires Linked() && Sound() && st.prod == PUndoValue(op, j) && currentTailIndex == Wrap((op.first + j) * BLOCK_SIZE)
      requires st.head <= op.first * BLOCK_SIZE && Upcoming(op) * BLOCK_SIZE - st.head < HALF
      modifies ents`value, this`st
      ensures Linked() && Sound() && st.prod == PUndoTail(op, j)
      ensures st.published == old(st).published && st.head == old(st).head && KeptBelow(old(st).live, st.live, op.first)
    {
      hide Own;
      hide Shared;
      hide Linked;
      hide LookupAt;
      hide LookupNow;
      HeaderFacts(st);
      UndoValueGood(st, op, j);
      InReprFacts();
      var idxEntry := FindNewEntry(currentTailIndex, op, j);
      ClearValue(idxEntry, LookupNow(st, op.first + j), DoUndoValue(st, op, j));
    }

    method UndoTail(ghost op: Op, ghost j: nat)
      requires Linked() && Sound() && st.prod == PUndoTail(op, j)
      modifies blockIndex`tail, this`st
      ensures Linked() && Sound()
      ensures st.prod == if j + 1 < |op.news| then PUndoValue(op, j + 1) else PGiveBack(op, 0)
      ensures st.published == old(st).published && st.head == old(st).head && st.live == old(st).live
    {
      hide Own;
      hide Shared;
      hide Shape;
      hide Linked;
      HeaderFacts(st);
      UndoTailGood(st, op, j);
      InReprFacts();
      RewindBlockIndexTail(DoUndoTail(st, op, j));
    }

    method GiveBackBlock(block: ElementBlock, ghost op: Op, ghost j: nat)
      requires Linked() && Sound() && st.prod == PGiveBack(op, j) && j < |op.news|
      requires op.news[j] in blks && block == blks[op.news[j]]
      modifies this`pool, this`blks, this`st
      ensures Linked() && Sound() && pool == old(pool) + [block] && blks == old(blks) - {op.news[j]}
      ensures st.prod == if j + 1 < |op.news| then PGiveBack(op, j + 1) else PIdle
      ensures st.published == old(st).published && st.head == old(st).head && st.live == old(st).live
      ensures old(BlocksOf(pool, blks)) <= BlocksOf(pool, blks)
    {
      hide BlocksOf;
      hide Own;
      hide Shared;
      hide Shape;
      hide Linked;
      GiveBackGood(st, op, j);
      NoneLostInPool(pool, blks, op.news[j]);
      DropBlock(block, op.news[j], DoGiveBack(st, op, j));
    }

    /** The new blocks leave the index, in the order in which they entered it. */
    method UndoBlocks(blockBase: nat, firstAllocatedBlock: ElementBlock?, ghost op: Op, ghost chain: seq<ElementBlock>)
      requires Linked() && Sound() && st.prod == Undo(st, op, 0).prod && |chain| == |op.news| && Chain(chain)
      requires firstAllocatedBlock == if chain == [] then null else chain[0]
      requires blockBase == Wrap((op.first - 1) * BLOCK_SIZE)
      requires st.head <= op.first * BLOCK_SIZE && Upcoming(op) * BLOCK_SIZE - st.head < HALF
      modifies ents`value, blockIndex`tail, this`st
      ensures Linked() && Sound() && st.prod == if op.news == [] then PIdle else PGiveBack(op, 0)
      ensures st.published == old(st).published && st.head == old(st).head && Chain(chain)
      ensures KeptBelow(old(st).live, st.live, op.first)
    {
      hide Sound;
      hide Good;
      hide Linked;
      hide Undo;
      hide Wrap;
      UndoProd(op, st);
      var currentTailIndex := blockBase;
      var block := firstAllocatedBlock;
      ghost var j := 0;
      while block != null
        invariant 0 <= j <= |chain| && (block == if j < |chain| then chain[j] else null)
        invariant Linked() && Sound() && Chain(chain)
        invariant st.prod == if op.news == [] then PIdle else if j < |op.news| then PUndoValue(op, j) else PGiveBack(op, 0)
        invariant st.published == old(st).published && st.head == old(st).head && KeptBelow(old(st).live, st.live, op.first)
        invariant currentTailIndex == Wrap((op.first + j - 1) * BLOCK_SIZE)
        decreases |chain| - j
      {
        WrapSum((op.first + j - 1) * BLOCK_SIZE, BLOCK_SIZE);
        currentTailIndex := Wrap(currentTailIndex + BLOCK_SIZE);
        UndoEntry(currentTailIndex, op, j);
        UndoTail(op, j);
        block := block.next;
        j := j + 1;
      }
    }

    /** add_blocks_to_free_list */
    method AddBlocksToFreeList(firstAllocatedBlock: ElementBlock?, ghost op: Op, ghost chain: seq<ElementBlock>,
                               ghost blks0: map<nat, ElementBlock>)
      requires Linked() && Sound() && st.prod == (if op.news == [] then PIdle else PGiveBack(op, 0))
      requires Chain(chain) && Added(blks, blks0, op.news, chain)
      requires firstAllocatedBlock == if chain == [] then null else chain[0]
      modifies this`pool, this`blks, this`st
      ensures Linked() && Sound() && st.prod == PIdle
      ensures st.published == old(st).published && st.head == old(st).head && st.live == old(st).live
      ensures pool == old(pool) + chain && blks == blks0
      ensures old(BlocksOf(pool, blks)) <= BlocksOf(pool, blks)
    {
      hide BlocksOf;
      hide Good;
      hide Linked;
      hide Added;
      hide Chain;
      AddedLength(blks, blks0, op.news, chain);
      assert op.news[0..] == op.news && chain[0..] == chain;
      var block := firstAllocatedBlock;
      ghost var j := 0;
      while block != null
        invariant 0 <= j <= |chain| && (block == if j < |chain| then chain[j] else null)
        invariant Linked() && Sound() && Chain(chain)
        invariant st.prod == if j < |op.news| then PGiveBack(op, j) else PIdle
        invariant st.published == old(st).published && st.head == old(st).head && st.live == old(st).live
        invariant pool == old(pool) + chain[..j]
        invariant Added(blks, blks0, op.news[j..], chain[j..])
        invariant old(BlocksOf(pool, blks)) <= BlocksOf(pool, blks)
        decreases |chain| - j
      {
        AddedFrom(blks, blks0, op.news, chain, j);
        ChainNext(chain, j);
        var next := block.next;
        GiveBackBlock(block, op, j);
        block := next;
        j := j + 1;
      }
      assert op.news[j..] == [] && chain[j..] == [];
      AddedNone(blks, blks0);
    }

    /** An enqueue_bulk that could not get all its blocks leaves nothing behind. */
    method RollBack(blockBase: nat, firstAllocatedBlock: ElementBlock?, startBlock: ElementBlock?, ghost op: Op,
                    ghost s0: State, ghost blks0: map<nat, ElementBlock>, ghost chain: seq<ElementBlock>)
      requires Linked() && Sound() && st.prod == Undo(st, op, 0).prod
      requires Since0(st, s0, op) && Room(st.head, Upcoming(op), maxSubqueueSize)
      requires Chain(chain) && Added(blks, blks0, op.news, chain)
      requires firstAllocatedBlock == if chain == [] then null else chain[0]
      requires blockBase == Wrap((op.first - 1) * BLOCK_SIZE)
      modifies ents`value, blockIndex`tail, this`pool, this`blks, this`st, this`tailBlock
      ensures Linked() && Sound() && st.prod == PIdle
      ensures st.published == s0.published && st.head == s0.head && KeptBelow(s0.live, st.live, op.first)
      ensures pool == old(pool) + chain && blks == blks0 && tailBlock == startBlock
      ensures old(BlocksOf(pool, blks)) <= BlocksOf(pool, blks)
    {
      hide BlocksOf;
      hide Good;
      hide Linked;
      hide Undo;
      hide Added;
      hide Chain;
      AddedLength(blks, blks0, op.news, chain);
      InReprFacts();
      UndoBlocks(blockBase, firstAllocatedBlock, op, chain);
      AddBlocksToFreeList(firstAllocatedBlock, op, chain, blks0);
      InReprFacts();
      tailBlock := startBlock;
    }

    /** The block that element j of an enqueue_bulk goes to. */
    lemma BlockOf(op: Op, j: nat, s0: State, blks0: map<nat, ElementBlock>, startBlock: ElementBlock?, chain: seq<ElementBlock>)
      requires Linked() && Sound() && st.prod == PWrite(op, j) && Since0(st, s0, op)
      requires Added(blks, blks0, op.news, chain) && StartOk(s0, blks0, startBlock, chain)
      ensures var b := (|st.published| + j) / BLOCK_SIZE; var m := b - op.first;
              && -1 <= m < |chain| && b in st.live && st.live[b] in blks
              && blks[st.live[b]] == if m < 0 then startBlock else chain[m]
      ensures var b := (|st.published| + j) / BLOCK_SIZE;
              b - op.first == |chain| - 1 <==> |st.published| + |op.xs| <= (b + 1) * BLOCK_SIZE
    {
      hide Good;
      hide Linked;
      WriteTargetLive(st, op, j);
      WriteRange(st, op, j);
      AddedLength(blks, blks0, op.news, chain);
      BlockIn((|st.published| + j) / BLOCK_SIZE);
    }

    /** The elements that go into one block. */
    method ConstructRun(block: ElementBlock, startIndex: nat, stopIndex: nat, xs: seq<Elem>, itemFirst: nat, ghost op: Op, ghost end: nat)
      requires Linked() && Sound() && st.prod == PWrite(op, itemFirst) && op.xs == xs && itemFirst < end <= |xs|
      requires startIndex == Wrap(|st.published| + itemFirst) && stopIndex == Wrap(|st.published| + end)
      requires var b := (|st.published| + itemFirst) / BLOCK_SIZE;
               && |st.published| + end <= (b + 1) * BLOCK_SIZE
               && b in st.live && st.live[b] in blks && block == blks[st.live[b]]
      modifies block.elements, this`st
      ensures Linked() && Sound() && st.prod == (if end < |xs| then PWrite(op, end) else PPublish(op))
      ensures st.published == old(st).published && st.head == old(st).head && st.live == old(st).live
    {
      hide Good;
      hide Linked;
      hide Wrap;
      var currentTailIndex := startIndex;
      var item := itemFirst;
      ghost var b := (|st.published| + itemFirst) / BLOCK_SIZE;
      WordsDiffer(|st.published| + item, |st.published| + end);
      while currentTailIndex != stopIndex
        invariant itemFirst <= item <= end && currentTailIndex == Wrap(|st.published| + item)
        invariant Linked() && Sound() && st.prod == (if item < |xs| then PWrite(op, item) else PPublish(op))
        invariant st.published == old(st).published && st.head == old(st).head && st.live == old(st).live
        invariant currentTailIndex == stopIndex <==> item == end
        decreases end - item
      {
        Construct(block, currentTailIndex, xs[item], op, item);
        WrapSum(|st.published| + item, 1);
        currentTailIndex := Wrap(currentTailIndex + 1);
        item := item + 1;
        WordsDiffer(|st.published| + item, |st.published| + end);
      }
    }

    /** As many of the elements as the block takes. */
    method WriteBlock(block: ElementBlock, currentTailIndex: nat, newTailIndex: nat, xs: seq<Elem>, itemFirst: nat, ghost op: Op)
      returns (stopIndex: nat, next: nat)
      requires Linked() && Sound() && st.prod == PWrite(op, itemFirst) && op.xs == xs && itemFirst < |xs| < HALF
      requires currentTailIndex == Wrap(|st.published| + itemFirst) && newTailIndex == Wrap(|st.published| + |xs|)
      requires var b := (|st.published| + itemFirst) / BLOCK_SIZE; b in st.live && st.live[b] in blks && block == blks[st.live[b]]
      modifies block.elements, this`st
      ensures Linked() && Sound() && st.prod == (if next < |xs| then PWrite(op, next) else PPublish(op))
      ensures st.published == old(st).published && st.head == old(st).head && st.live == old(st).live
      ensures |st.published| + next == Integers.Min(|st.published| + |xs|, ((|st.published| + itemFirst) / BLOCK_SIZE + 1) * BLOCK_SIZE)
      ensures itemFirst < next && stopIndex == Wrap(|st.published| + next)
    {
      hide Good;
      hide Linked;
      hide Wrap;
      hide LessThan;
      ghost var n := |st.published|;
      ghost var end := Integers.Min(n + |xs|, ((n + itemFirst) / BLOCK_SIZE + 1) * BLOCK_SIZE) - n;
      EndIndex(n + itemFirst, n + |xs|);
      stopIndex := Wrap(currentTailIndex - currentTailIndex % BLOCK_SIZE + BLOCK_SIZE);
      if LessThan(newTailIndex, stopIndex) {
        stopIndex := newTailIndex;
      }
      ConstructRun(block, currentTailIndex, stopIndex, xs, itemFirst, op, end);
      next := itemFirst + Wrap(stopIndex - currentTailIndex);
    }

    /** The block that takes element j of an enqueue_bulk is the tail block. */
    ghost predicate AtBlock(j: nat, op: Op, startBlock: ElementBlock?, chain: seq<ElementBlock>)
      reads this`st, this`tailBlock
    {
      var m := (|st.published| + j) / BLOCK_SIZE - op.first;
      -1 <= m < |chain| && tailBlock == if m < 0 then startBlock else chain[m]
    }

    /** What an enqueue_bulk that has all its blocks relies on while it constructs the elements. */
    ghost predicate Ready(op: Op, s0: State, blks0: map<nat, ElementBlock>, startBlock: ElementBlock?, chain: seq<ElementBlock>)
      reads this`st, this`blks, chain, startBlock
    {
      Since0(st, s0, op) && Added(blks, blks0, op.news, chain) && Chain(chain) && StartOk(s0, blks0, startBlock, chain)
    }

    /** The tail block moves on to the block of the next element, if it is not the last of the chain. */
    method NextTail(ghost itemFirst: nat, ghost next: nat, endBlock: ElementBlock?, ghost startBlock: ElementBlock?, ghost op: Op,
                    ghost s0: State, ghost blks0: map<nat, ElementBlock>, ghost chain: seq<ElementBlock>)
      returns (last: bool)
      requires Linked() && Ready(op, s0, blks0, startBlock, chain) && AtBlock(itemFirst, op, startBlock, chain)
      requires endBlock == LastOf(startBlock, chain) && tailBlock != null && itemFirst < next
      requires var n := |st.published|; var b := (n + itemFirst) / BLOCK_SIZE;
               && n + next == Integers.Min(n + |op.xs|, (b + 1) * BLOCK_SIZE)
               && (b - op.first == |chain| - 1 <==> n + |op.xs| <= (b + 1) * BLOCK_SIZE)
      modifies this`tailBlock
      ensures last <==> next == |op.xs|
      ensures if last then tailBlock == old(tailBlock) else AtBlock(next, op, startBlock, chain) && next < |op.xs|
    {
      hide Linked;
      hide Added;
      hide Chain;
      hide StartOk;
      ghost var m := (|st.published| + itemFirst) / BLOCK_SIZE - op.first;
      LastTest(m, startBlock, endBlock, op, s0, blks0, chain);
      last := tailBlock == endBlock;
      if !last {
        NextLink(m, startBlock, s0, blks0, chain);
        tailBlock := tailBlock.next;
      }
    }

    /** One block's elements are constructed, and the tail block moves on. */
    method WriteNext(currentTailIndex: nat, newTailIndex: nat, xs: seq<Elem>, itemFirst: nat, endBlock: ElementBlock?,
                     ghost startBlock: ElementBlock?, ghost op: Op, ghost s0: State, ghost blks0: map<nat, ElementBlock>,
                     ghost chain: seq<ElementBlock>)
      returns (stopIndex: nat, next: nat, last: bool)
      requires Linked() && Sound() && st.prod == PWrite(op, itemFirst) && op.xs == xs && itemFirst < |xs| < HALF
      requires Ready(op, s0, blks0, startBlock, chain) && AtBlock(itemFirst, op, startBlock, chain)
      requires endBlock == LastOf(startBlock, chain)
      requires currentTailIndex == Wrap(|st.published| + itemFirst) && newTailIndex == Wrap(|st.published| + |xs|)
      modifies this`st, this`tailBlock, repr
      ensures Linked() && Sound() && Ready(op, s0, blks0, startBlock, chain) && st.published == old(st).published
      ensures itemFirst < next && stopIndex == Wrap(|st.published| + next)
      ensures last <==> next == |xs|
      ensures !last ==> next < |xs| && st.prod == PWrite(op, next) && AtBlock(next, op, startBlock, chain)
      ensures last ==> st.prod == PPublish(op) && stopIndex == newTailIndex
      ensures last ==> var b := (|st.published| + |xs| - 1) / BLOCK_SIZE;
                       b in st.live && st.live[b] in blks && tailBlock == blks[st.live[b]]
    {
      hide Target;
      hide Needed;
      hide InRepr;
      hide Good;
      hide Linked;
      hide Wrap;
      hide Added;
      hide Chain;
      hide StartOk;
      InReprFacts();
      BlockOf(op, itemFirst, s0, blks0, startBlock, chain);
      BlockInRepr(st.live[(|st.published| + itemFirst) / BLOCK_SIZE]);
      stopIndex, next := WriteBlock(tailBlock, currentTailIndex, newTailIndex, xs, itemFirst, op);
      last := NextTail(itemFirst, next, endBlock, startBlock, op, s0, blks0, chain);
    }

    /** The block of the first element becomes the tail block. */
    method FirstTail(startTailIndex: nat, startBlock: ElementBlock?, firstAllocatedBlock: ElementBlock?, ghost op: Op, ghost s0: State,
                     ghost blks0: map<nat, ElementBlock>, ghost chain: seq<ElementBlock>)
      requires Linked() && Sound() && st.prod == PWrite(op, 0) && Ready(op, s0, blks0, startBlock, chain)
      requires firstAllocatedBlock == (if chain == [] then null else chain[0])
      requires startTailIndex == Wrap(|st.published|)
      modifies this`tailBlock
      ensures AtBlock(0, op, startBlock, chain)
    {
      hide Good;
      hide Linked;
      hide Wrap;
      hide Added;
      hide Chain;
      hide StartOk;
      BaseWord(|st.published|, BLOCK_SIZE);
      BlockOf(op, 0, s0, blks0, startBlock, chain);
      tailBlock := startBlock;
      if startTailIndex % BLOCK_SIZE == 0 && firstAllocatedBlock != null {
        tailBlock := firstAllocatedBlock;
      }
    }

    /** All blocks are there: the elements are constructed, one block at a time, and published. */
    method WriteAll(startTailIndex: nat, xs: seq<Elem>, startBlock: ElementBlock?, firstAllocatedBlock: ElementBlock?,
                    endBlock: ElementBlock?, ghost op: Op, ghost s0: State, ghost blks0: map<nat, ElementBlock>,
                    ghost chain: seq<ElementBlock>)
      requires Linked() && Sound() && st.prod == PWrite(op, 0) && op.xs == xs && xs != []
      requires Ready(op, s0, blks0, startBlock, chain)
      requires firstAllocatedBlock == (if chain == [] then null else chain[0]) && endBlock == LastOf(startBlock, chain)
      requires startTailIndex == Wrap(|st.published|) && |xs| < HALF
      modifies this`st, this`tailBlock, this`tailIndex, repr
      ensures Linked() && Sound() && st.prod == PIdle && tailIndex == Wrap(|st.published|)
      ensures st.published == s0.published + xs && st.head == s0.head
      ensures var b := (|st.published| - 1) / BLOCK_SIZE; b in st.live && st.live[b] in blks && tailBlock == blks[st.live[b]]
    {
      hide Separate;
      hide HeaderLinked;
      hide Sound;
      hide InRepr;
      hide Good;
      hide Linked;
      hide Wrap;
      hide Added;
      hide Chain;
      hide StartOk;
      InReprFacts();
      var newTailIndex := Wrap(startTailIndex + |xs|);
      WrapSum(|st.published|, |xs|);
      var currentTailIndex := startTailIndex;
      FirstTail(startTailIndex, startBlock, firstAllocatedBlock, op, s0, blks0, chain);
      var itemFirst := 0;
      var last := false;
      while !last
        invariant Linked() && Sound() && Ready(op, s0, blks0, startBlock, chain) && 0 <= itemFirst <= |xs|
        invariant currentTailIndex == Wrap(|st.published| + itemFirst)
        invariant !last ==> itemFirst < |xs| && st.prod == PWrite(op, itemFirst) && AtBlock(itemFirst, op, startBlock, chain)
        invariant last ==> st.prod == PPublish(op) && currentTailIndex == newTailIndex
        invariant last ==> var b := (|st.published| + |xs| - 1) / BLOCK_SIZE;
                           b in st.live && st.live[b] in blks && tailBlock == blks[st.live[b]]
        invariant newTailIndex == Wrap(|st.published| + |xs|)
        decreases |xs| - itemFirst, !last
      {
        InReprFacts();
        currentTailIndex, itemFirst, last :=
          WriteNext(currentTailIndex, newTailIndex, xs, itemFirst, endBlock, startBlock, op, s0, blks0, chain);
      }
      Publish(newTailIndex, op);
    }

    /** The comparison with the last block tells when it has been reached. */
    lemma LastTest(m: int, startBlock: ElementBlock?, endBlock: ElementBlock?, op: Op, s0: State,
                   blks0: map<nat, ElementBlock>, chain: seq<ElementBlock>)
      requires Linked() && Chain(chain) && Added(blks, blks0, op.news, chain) && StartOk(s0, blks0, startBlock, chain)
      requires -1 <= m < |chain| && endBlock == LastOf(startBlock, chain)
      requires m == -1 && chain != [] ==> |s0.published| % BLOCK_SIZE != 0
      ensures (if m < 0 then startBlock else chain[m]) == endBlock <==> m == |chain| - 1
    {
      hide Linked;
      BlocksApart();
      var b0 := |s0.published| / BLOCK_SIZE;
      ChainApart(blks, blks0, op.news, chain, if b0 in s0.live then s0.live[b0] else 0);
    }

    lemma NextLink(m: int, startBlock: ElementBlock?, s0: State, blks0: map<nat, ElementBlock>, chain: seq<ElementBlock>)
      requires Chain(chain) && StartOk(s0, blks0, startBlock, chain) && -1 <= m < |chain| - 1
      requires m == -1 ==> |s0.published| % BLOCK_SIZE != 0
      ensures m == -1 ==> startBlock != null && startBlock.next == chain[0]
      ensures m >= 0 ==> chain[m].next == chain[m + 1]
    {
    }

    /** All the blocks an enqueue_bulk needs, or none. */
    method ReserveBlocks(startTailIndex: nat, blockBase: nat, blockBaseDiff: nat, memory: Memory, ghost op0: Op, ghost s0: State,
                         ghost blks0: map<nat, ElementBlock>, startBlock: ElementBlock?)
      returns (ok: bool, firstAllocatedBlock: ElementBlock?, endBlock: ElementBlock?, ghost op: Op, ghost chain: seq<ElementBlock>)
      requires Linked() && Sound() && st.prod == PCheck(op0) && op0.news == [] && op0.xs != [] && LimitOk()
      requires Since0(st, s0, op0) && Room(st.head, Upcoming(op0), maxSubqueueSize)
      requires blks == blks0 && tailBlock == startBlock && StartOk(s0, blks0, startBlock, [])
      requires startTailIndex == Wrap(|st.published|) && headIndex == Wrap(st.head)
      requires blockBase == Wrap((op0.first - 1) * BLOCK_SIZE)
      requires blockBaseDiff == (Needed(st, op0) + 1 - op0.first) * BLOCK_SIZE
      modifies this`blockIndex, this`nextBlockIndexCapacity, this`pool, this`tailBlock, repr
      modifies this`st, this`ents, this`blks, this`nextId, this`logCapacity, this`repr
      ensures Linked() && Sound() && fresh(repr - old(repr))
      ensures ok ==>
                && st.prod == PWrite(op, 0) && op.xs == op0.xs && Ready(op, s0, blks0, startBlock, chain)
                && firstAllocatedBlock == (if chain == [] then null else chain[0]) && endBlock == LastOf(startBlock, chain)
                && Room(st.head, Needed(st, op) + 1, maxSubqueueSize)
      ensures !ok ==>
                && st.prod == PIdle && st.published == s0.published && st.head == s0.head
                && KeptBelow(s0.live, st.live, op0.first) && blks == blks0 && tailBlock == startBlock
      ensures !ok ==> blockBaseDiff > 0
      ensures old(BlocksOf(pool, blks)) <= BlocksOf(pool, blks)
      ensures memory.Plenty? && !ok ==> !Room(s0.head, Needed(s0, op0) + 1, maxSubqueueSize)
    {
      hide BlocksOf;
      hide Good;
      hide Linked;
      hide Wrap;
      hide Room;
      hide Added;
      hide Chain;
      hide StartOk;
      hide Undo;
      hide Since0;
      ok, firstAllocatedBlock, endBlock, op, chain :=
        AllocateBlocks(startTailIndex, blockBase, blockBaseDiff, memory, op0, s0, blks0, startBlock);
      InReprFacts();
      Since0Same(st, s0, op);
      if ok {
        Since0Kept(st, s0, op);
        BeginWriting(op);
      } else {
        EntriesInRepr();
        RollBack(blockBase, firstAllocatedBlock, startBlock, op, s0, blks0, chain);
      }
    }

    /** What an enqueue_bulk of xs does. */
    twostate predicate AllOrNothing(xs: seq<Elem>, ok: bool)
      reads this
    {
      && st.head == old(st).head && st.published == old(st).published + (if ok then xs else [])
      && (!ok ==> tailIndex == old(tailIndex) && tailBlock == old(tailBlock) && blks == old(blks))
      && (ok && xs != [] ==> Room(st.head, Ceil(|old(st).published| + |xs|), maxSubqueueSize))
    }

    /** The elements are constructed in the blocks reserved for them, or the producer is as it was. */
    method FinishBulk(ok: bool, startTailIndex: nat, xs: seq<Elem>, startBlock: ElementBlock?, firstAllocatedBlock: ElementBlock?,
                      endBlock: ElementBlock?, ghost op: Op, ghost s0: State, ghost blks0: map<nat, ElementBlock>,
                      ghost chain: seq<ElementBlock>)
      requires Linked() && Sound() && LimitOk() && Counters() && s0.head <= |s0.published| && xs != []
      requires ok ==>
                 && st.prod == PWrite(op, 0) && op.xs == xs && Ready(op, s0, blks0, startBlock, chain)
                 && firstAllocatedBlock == (if chain == [] then null else chain[0]) && endBlock == LastOf(startBlock, chain)
                 && startTailIndex == Wrap(|st.published|) && Room(st.head, Needed(st, op) + 1, maxSubqueueSize)
      requires !ok ==>
                 && st.prod == PIdle && st.published == s0.published && st.head == s0.head
                 && KeptBelow(s0.live, st.live, Ceil(|s0.published|)) && blks == blks0 && tailBlock == startBlock
                 && Room(s0.head, Ceil(|s0.published|), maxSubqueueSize) && StartOk(s0, blks0, startBlock, [])
      modifies this`st, this`tailBlock, this`tailIndex, repr
      ensures Valid() && st.head == s0.head && st.published == s0.published + (if ok then xs else [])
      ensures !ok ==> tailIndex == old(tailIndex) && tailBlock == startBlock
      ensures ok ==> Room(st.head, Ceil(|s0.published| + |xs|), maxSubqueueSize)
    {
      hide Good;
      hide Linked;
      hide Wrap;
      InReprFacts();
      if ok {
        RoomFits(s0.head, |s0.published|, |xs|, maxSubqueueSize);
        WriteAll(startTailIndex, xs, startBlock, firstAllocatedBlock, endBlock, op, s0, blks0, chain);
        InReprFacts();
      }
      ValidWithin(|st.published| / BLOCK_SIZE);
    }

    /** What an enqueue_bulk that has just begun relies on. */
    lemma BulkBegun(op: Op)
      requires Sound() && st.prod == PCheck(op) && op.news == [] && op.first == Ceil(|st.published|)
      requires st.head <= |st.published| && TailLinked()
      ensures Since0(st, st, op) && StartOk(st, blks, tailBlock, [])
    {
      hide Own;
      hide Shared;
      StartFacts(st);
    }

    /** An enqueue_bulk that has just begun. */
    method RunBulk(xs: seq<Elem>, startTailIndex: nat, blockBase: nat, blockBaseDiff: nat, memory: Memory, ghost op0: Op)
      returns (ok: bool)
      requires Linked() && Sound() && st.prod == PCheck(op0) && op0.news == [] && op0.xs == xs != []
      requires op0.first == Ceil(|st.published|) && LimitOk() && Counters() && TailLinked()
      requires st.head <= |st.published| && Room(st.head, Ceil(|st.published|), maxSubqueueSize)
      requires startTailIndex == Wrap(|st.published|) && headIndex == Wrap(st.head)
      requires blockBase == Wrap((op0.first - 1) * BLOCK_SIZE)
      requires blockBaseDiff == (Needed(st, op0) + 1 - op0.first) * BLOCK_SIZE
      modifies this, repr
      ensures Valid() && fresh(repr - old(repr))
      ensures st.head == old(st).head && st.published == old(st).published + (if ok then xs else [])
      ensures !ok ==> tailIndex == old(tailIndex) && tailBlock == old(tailBlock) && blks == old(blks)
      ensures !ok ==> blockBaseDiff > 0
      ensures ok ==> Room(st.head, Ceil(|old(st).published| + |xs|), maxSubqueueSize)
      ensures old(BlocksOf(pool, blks)) <= BlocksOf(pool, blks)
      ensures memory.Plenty? && !ok ==> !Room(old(st).head, Needed(old(st), op0) + 1, maxSubqueueSize)
    {
      hide BlocksOf;
      hide InRepr;
      hide Good;
      hide Linked;
      hide Wrap;
      hide Room;
      hide Valid;
      InReprFacts();
      var startBlock := tailBlock;
      ghost var s0, blks0 := st, blks;
      BulkBegun(op0);
      hide Since0;
      hide StartOk;
      var firstAllocatedBlock, endBlock;
      ghost var op, chain;
      ok, firstAllocatedBlock, endBlock, op, chain :=
        ReserveBlocks(startTailIndex, blockBase, blockBaseDiff, memory, op0, s0, blks0, startBlock);
      InReprFacts();
      FinishBulk(ok, startTailIndex, xs, startBlock, firstAllocatedBlock, endBlock, op, s0, blks0, chain);
    }

    /** enqueue_bulk of at least one element, once it has worked out the block bases. */
    method BulkFrom(xs: seq<Elem>, startTailIndex: nat, blockBase: nat, blockBaseDiff: nat, memory: Memory) returns (ok: bool)
      requires Valid() && blockIndex != null && xs != [] && startTailIndex == tailIndex
      requires blockBase == Wrap((Ceil(|st.published|) - 1) * BLOCK_SIZE)
      requires blockBaseDiff == ((|st.published| + |xs| - 1) / BLOCK_SIZE + 1 - Ceil(|st.published|)) * BLOCK_SIZE
      modifies this, repr
      ensures Valid() && fresh(repr - old(repr)) && AllOrNothing(xs, ok)
      ensures !ok ==> blockBaseDiff > 0
      ensures old(BlocksOf(pool, blks)) <= BlocksOf(pool, blks)
      ensures memory.Plenty? && !ok ==> !Room(old(st).head, (|old(st).published| + |xs| - 1) / BLOCK_SIZE + 1, maxSubqueueSize)
    {
      hide BlocksOf;
      hide InRepr;
      hide Good;
      hide Linked;
      hide Wrap;
      hide Room;
      InReprFacts();
      ghost var op0 := Begin(xs);
      InReprFacts();
      ok := RunBulk(xs, startTailIndex, blockBase, blockBaseDiff, memory, op0);
    }

    /**
     Appends all of xs, or changes nothing, whatever was the block for which there was no room or no memory; the
     blocks it had taken from the pool by then are there again. With memory, it succeeds exactly if there is
     room for all. The new blocks must fit in the index range, or their number comes out wrong.
    */
    method EnqueueBulk(xs: seq<Elem>, memory: Memory) returns (ok: bool)
      requires Valid() && BlocksFit(|st.published|, |xs|)
      modifies this, repr
      ensures Valid() && fresh(repr - old(repr))
      ensures Contents() == old(Contents()) + (if ok then xs else [])
      ensures !ok ==> tailIndex == old(tailIndex) && tailBlock == old(tailBlock) && blks == old(blks)
      ensures ok && xs != [] ==> Room(old(st).head, Ceil(|old(st).published| + |xs|), maxSubqueueSize)
      ensures old(blockIndex) != null && |old(st).published| + |xs| <= Ceil(|old(st).published|) * BLOCK_SIZE ==> ok
      ensures old(BlocksOf(pool, blks)) <= BlocksOf(pool, blks)
      ensures memory.Plenty? && old(blockIndex) != null && xs != [] ==>
                (ok <==> Room(old(st).head, Ceil(|old(st).published| + |xs|), maxSubqueueSize))
    {
      hide BlocksOf;
      hide Good;
      hide Linked;
      hide Wrap;
      hide Room;
      if xs == [] {
        return true;
      }
      if blockIndex == null {
        return false;
      }
      var startTailIndex := tailIndex;
      var blockBase := Floor(Wrap(startTailIndex - 1));
      var blockBaseDiff := Wrap(Floor(Wrap(startTailIndex + |xs| - 1)) - blockBase);
      BaseDiffExactly(|st.published|, |xs|);
      ok := BulkFrom(xs, startTailIndex, blockBase, blockBaseDiff, memory);
    }

    // -----------------------------------------------------------------
    // The contents are what is in memory
    // -----------------------------------------------------------------

    /** The entry a lookup of index x arrives at. */
    ghost function EntryFor(x: nat): BlockIndexEntry
      reads this, repr
      requires Valid() && blockIndex != null
    {
      HeaderFacts(st);
      ents[EntryOf(Cur(st), x / BLOCK_SIZE)]
    }

    /**
     Every element in the queue sits in the slot of its index, in the block that the index entry of its block
     points to, under the key of that block.
    */
    lemma InMemory(x: nat)
      requires Valid() && st.head <= x < |st.published|
      ensures blockIndex != null
      ensures var entry := EntryFor(x);
              && entry.key == Wrap(x / BLOCK_SIZE * BLOCK_SIZE) && entry.value != null && entry.value.elements.Length == BLOCK_SIZE
              && entry.value.elements[x % BLOCK_SIZE] == Full(Contents()[x - st.head])
    {
      hide Own;
      hide Shared;
      hide Shape;
      hide KeyWord;
      HeaderFacts(st);
      QueuedSlot(st, x);
      var b: nat := x / BLOCK_SIZE;
      var k := st.live[b];
      assert BlockLinked(blks[k], st.blocks[k]);
      assert KeyWord(Base(b)) == Wrap(b * BLOCK_SIZE) by { KeyWordBase(b); }
    }

    /** size_approx: with no operation beside it, exact. */
    method SizeApprox() returns (size: nat)
      requires Valid()
      ensures size == |Contents()|
    {
      hide Good;
      hide Linked;
      hide LessThan;
      hide Wrap;
      var tail: int := tailIndex;
      var head: int := headIndex;
      SizeExactly(st.head, |st.published|);
      size := if LessThan(head, tail) then Wrap(tail - head) else 0;
    }
  }
}
