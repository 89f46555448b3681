/**
 The objects of an implicit producer: blocks, entries of its block index, and the headers that
 order them in a ring; and what it means that they stand for a state of the block queue.
*/
module BlockObjects {
  import opened BlockQueue
  import opened BlockInv
  import opened BlockFacts
  import opened Circular

  // -------------------------------------------------------------------
  // Objects
  // -------------------------------------------------------------------

  const INVALID_BLOCK_BASE: nat := 1
  const IMPLICIT_INITIAL_INDEX_SIZE: nat := 32

  /** The allocation mode of a call, and the memory it meets: any allocation may fail, or none does. */
  datatype Memory = CannotAlloc | MayFail | Plenty

  class ElementBlock {
    const elements: array<Slot>
    var dequeued: nat
    var next: ElementBlock?

    /** A block as the allocator returns it, with whatever is in it. */
    constructor ()
      ensures elements.Length == BLOCK_SIZE && fresh(elements)
    {
      elements := new Slot[BLOCK_SIZE];
    }

    /** reset_empty */
    method ResetEmpty()
      modifies `dequeued
      ensures dequeued == 0
    {
      dequeued := 0;
    }
  }

  class BlockIndexEntry {
    var key: nat
    var value: ElementBlock?

    constructor ()
      ensures key == INVALID_BLOCK_BASE
    {
      key := INVALID_BLOCK_BASE;
    }
  }

  class BlockIndexHeader {
    const capacity: nat
    var tail: nat
    const index: array<BlockIndexEntry?>

    constructor (capacity: nat, tail: nat, index: array<BlockIndexEntry?>)
      ensures this.capacity == capacity && this.tail == tail && this.index == index
    {
      this.capacity := capacity;
      this.tail := tail;
      this.index := index;
    }
  }

  // -------------------------------------------------------------------
  // What the objects stand for
  // -------------------------------------------------------------------

  /** A key as a word. */
  ghost function KeyWord(k: Key): nat {
    match k
    case Invalid => INVALID_BLOCK_BASE
    case Base(b) => Wrap(b * BLOCK_SIZE)
  }

  lemma KeyWordBase(b: nat)
    ensures KeyWord(Base(b)) == Wrap(b * BLOCK_SIZE)
  {
  }

  /** No key of a block is the invalid one. */
  lemma KeyWordValid(k: Key)
    ensures KeyWord(k) == INVALID_BLOCK_BASE <==> k == Invalid
  {
    if k.Base? {
      BaseWord(k.b * BLOCK_SIZE, BLOCK_SIZE);
    }
  }

  /** A pointer and the block number it stands for; blocks that are not this producer's may be anything. */
  ghost predicate Points(v: Value, p: ElementBlock?, blks: map<nat, ElementBlock>) {
    (v.Null? <==> p == null) && (v.Ptr? && v.k in blks ==> p == blks[v.k])
  }

  ghost predicate HeaderLinked(h: BlockIndexHeader, cur: Header, ents: seq<BlockIndexEntry>)
    reads h, h.index
  {
    && h.capacity == cur.capacity == |cur.index| == h.index.Length
    && h.tail == cur.tail
    && forall i :: 0 <= i < |cur.index| ==> cur.index[i] < |ents| && h.index[i] == ents[cur.index[i]]
  }

  ghost predicate EntriesLinked(ents: seq<BlockIndexEntry>, entries: seq<Entry>, blks: map<nat, ElementBlock>, nextId: nat)
    reads ents
  {
    && |ents| == |entries|
    && (forall e, f :: 0 <= e < f < |ents| ==> ents[e] != ents[f])
    && (forall e :: 0 <= e < |ents| ==>
          && ents[e].key == KeyWord(entries[e].key) && Points(entries[e].value, ents[e].value, blks)
          && (entries[e].value.Ptr? ==> entries[e].value.k < nextId))
  }

  ghost predicate BlockLinked(p: ElementBlock, b: Block)
    reads p, p.elements
  {
    p.elements[..] == b.slots && p.dequeued == b.dequeued
  }

  ghost predicate BlocksLinked(blks: map<nat, ElementBlock>, blocks: map<nat, Block>)
    reads set k | k in blks :: blks[k], set k | k in blks :: blks[k].elements
  {
    && blks.Keys == blocks.Keys
    && forall k :: k in blks ==> BlockLinked(blks[k], blocks[k])
  }

  /** Blocks are distinct objects, in use or in the pool, and so are their buffers. */
  ghost predicate Separate(blks: map<nat, ElementBlock>, pool: seq<ElementBlock>) {
    && (forall k :: k in blks ==> blks[k].elements.Length == BLOCK_SIZE)
    && (forall i :: 0 <= i < |pool| ==> pool[i].elements.Length == BLOCK_SIZE)
    && (forall k, l :: k in blks && l in blks && k != l ==> blks[k] != blks[l] && blks[k].elements != blks[l].elements)
    && (forall i, j :: 0 <= i < j < |pool| ==> pool[i] != pool[j] && pool[i].elements != pool[j].elements)
    && (forall k, i :: k in blks && 0 <= i < |pool| ==> blks[k] != pool[i] && blks[k].elements != pool[i].elements)
  }

  // -------------------------------------------------------------------
  // A new block index
  // -------------------------------------------------------------------

  /** What an unset pointer of a new entry stands for: nothing, or a block of somebody else. */
  ghost function Junk(more: seq<BlockIndexEntry>): (junk: seq<Value>)
    reads more
    ensures |junk| == |more|
  {
    seq(|more|, i requires 0 <= i < |more| reads more => if more[i].value == null then Null else Ptr(0))
  }

  /** The ring `index` begins with the entries of `prev` in their order, oldest first. */
  ghost predicate RingCopied(prev: BlockIndexHeader, tail: nat, capacity: nat, index: array<BlockIndexEntry?>)
    requires capacity <= prev.index.Length && capacity <= index.Length
    reads prev.index, index
  {
    forall i :: 0 <= i < capacity ==> index[i] == prev.index[Following(tail, i, capacity)]
  }

  /** From position `from` on, the ring is new entries, without keys. */
  ghost predicate NewEntries(index: array<BlockIndexEntry?>, from: nat, more: seq<BlockIndexEntry>, made: set<object>)
    reads index, more
  {
    && index.Length == from + |more|
    && (forall i :: 0 <= i < |more| ==>
          index[from + i] == more[i] && more[i].key == INVALID_BLOCK_BASE && more[i] in made)
    && (forall i, j :: 0 <= i < j < |more| ==> more[i] != more[j])
  }

  /** A new header over the old entries and some more. */
  lemma HeaderGrown(prev: BlockIndexHeader, h: BlockIndexHeader, cur: Header, g: Header,
                    ents: seq<BlockIndexEntry>, more: seq<BlockIndexEntry>)
    requires HeaderLinked(prev, cur, ents) && |more| == cur.capacity && cur.tail < cur.capacity
    requires h.capacity == h.index.Length == g.capacity == |g.index| == 2 * cur.capacity && h.tail == g.tail
    requires RingCopied(prev, cur.tail, cur.capacity, h.index)
    requires forall i :: 0 <= i < |more| ==> h.index[cur.capacity + i] == more[i]
    requires forall i :: 0 <= i < cur.capacity ==> g.index[i] == cur.index[Following(cur.tail, i, cur.capacity)]
    requires forall i :: cur.capacity <= i < 2 * cur.capacity ==> g.index[i] == |ents| + i - cur.capacity
    ensures HeaderLinked(h, g, ents + more)
  {
    hide Following;
    forall i | 0 <= i < |g.index| ensures g.index[i] < |ents + more| && h.index[i] == (ents + more)[g.index[i]] {
      if i >= cur.capacity {
        assert h.index[cur.capacity + (i - cur.capacity)] == more[i - cur.capacity];
      }
    }
  }

  lemma EntriesGrown(ents: seq<BlockIndexEntry>, entries: seq<Entry>, more: seq<BlockIndexEntry>, junk: seq<Value>,
                     blks: map<nat, ElementBlock>, nextId: nat)
    requires EntriesLinked(ents, entries, blks, nextId) && 0 !in blks && 0 < nextId && junk == Junk(more)
    requires forall i, j :: 0 <= i < j < |more| ==> more[i] != more[j]
    requires forall i :: 0 <= i < |more| ==> more[i] !in ents && more[i].key == INVALID_BLOCK_BASE
    ensures EntriesLinked(ents + more, entries + seq(|junk|, i requires 0 <= i < |junk| => Entry(Invalid, junk[i])), blks, nextId)
  {
  }

  lemma InitialCapacity()
    ensures Pow2(5) == IMPLICIT_INITIAL_INDEX_SIZE && Pow2(6) == 2 * IMPLICIT_INITIAL_INDEX_SIZE
  {
    assert Pow2(4) == 16;
  }

  lemma FirstLinked(h: BlockIndexHeader, more: seq<BlockIndexEntry>, made: set<object>)
    requires 0 < |more| == h.capacity == h.index.Length && h.tail == |more| - 1 && NewEntries(h.index, 0, more, made)
    ensures var s := FirstState(|more|, Junk(more));
            && HeaderLinked(h, Cur(s), more) && EntriesLinked(more, s.entries, map[], 1)
            && BlocksLinked(map[], s.blocks) && Separate(map[], [])
  {
  }

  // -------------------------------------------------------------------
  // Blocks coming and going
  // -------------------------------------------------------------------

  lemma SeparateAdd(blks: map<nat, ElementBlock>, pool: seq<ElementBlock>, p: ElementBlock, k: nat)
    requires Separate(blks, pool + [p]) && k !in blks
    ensures Separate(blks[k := p], pool) && p.elements.Length == BLOCK_SIZE
  {
    var all := pool + [p];
    assert all[|pool|] == p;
    assert forall i :: 0 <= i < |pool| ==> all[i] == pool[i];
  }

  /** A block that leaves the producer goes to the pool. */
  lemma SeparateRemove(blks: map<nat, ElementBlock>, pool: seq<ElementBlock>, k: nat)
    requires Separate(blks, pool) && k in blks
    ensures Separate(blks - {k}, pool + [blks[k]])
  {
  }

  lemma BlocksAdd(blks: map<nat, ElementBlock>, blocks: map<nat, Block>, k: nat, p: ElementBlock, b: Block)
    requires BlocksLinked(blks, blocks) && k !in blks && BlockLinked(p, b)
    ensures BlocksLinked(blks[k := p], blocks[k := b])
  {
  }

  lemma BlocksRemove(blks: map<nat, ElementBlock>, blocks: map<nat, Block>, k: nat)
    requires BlocksLinked(blks, blocks)
    ensures BlocksLinked(blks - {k}, blocks - {k})
  {
  }

  lemma EntriesWider(ents: seq<BlockIndexEntry>, entries: seq<Entry>, blks: map<nat, ElementBlock>, nextId: nat, p: ElementBlock)
    requires EntriesLinked(ents, entries, blks, nextId)
    ensures EntriesLinked(ents, entries, blks[nextId := p], nextId + 1)
  {
  }

  lemma EntriesNarrower(ents: seq<BlockIndexEntry>, entries: seq<Entry>, blks: map<nat, ElementBlock>, nextId: nat, k: nat)
    requires EntriesLinked(ents, entries, blks, nextId)
    ensures EntriesLinked(ents, entries, blks - {k}, nextId)
  {
  }

  /** A consumer's work so far: nothing enqueued, no block in use or in the index that was not before. */
  ghost predicate TookOnly(s: State, blks: map<nat, ElementBlock>, s': State, blks': map<nat, ElementBlock>) {
    && s'.published == s.published && s'.head == s.head && s'.prod == s.prod && s'.headers == s.headers
    && (forall b :: b in s'.live ==> b in s.live && s'.live[b] == s.live[b])
    && (forall k :: k in blks' ==> k in blks && blks'[k] == blks[k])
  }

  // -------------------------------------------------------------------
  // The blocks of a bulk enqueue
  // -------------------------------------------------------------------

  /** Blocks linked in a row. */
  ghost predicate Chain(chain: seq<ElementBlock>)
    reads chain
  {
    && (forall i, j :: 0 <= i < j < |chain| ==> chain[i] != chain[j])
    && (forall i :: 0 <= i < |chain| - 1 ==> chain[i].next == chain[i + 1])
    && (chain != [] ==> chain[|chain| - 1].next == null)
  }

  lemma ChainNext(chain: seq<ElementBlock>, j: nat)
    requires Chain(chain) && j < |chain|
    ensures chain[j].next == if j + 1 < |chain| then chain[j + 1] else null
  {
  }

  /** The new blocks, numbered `news`, have been added to those in use. */
  ghost predicate Added(blks: map<nat, ElementBlock>, blks0: map<nat, ElementBlock>, news: seq<nat>, chain: seq<ElementBlock>) {
    && |chain| == |news| && Distinct(news)
    && (forall k :: k in blks0 ==> k in blks && blks[k] == blks0[k])
    && (forall k :: k in blks ==> k in blks0 || k in news)
    && (forall i :: 0 <= i < |news| ==> news[i] in blks && news[i] !in blks0 && blks[news[i]] == chain[i])
  }

  lemma NothingAdded(blks: map<nat, ElementBlock>)
    ensures Added(blks, blks, [], []) && Chain([])
  {
  }

  lemma AddedLength(blks: map<nat, ElementBlock>, blks0: map<nat, ElementBlock>, news: seq<nat>, chain: seq<ElementBlock>)
    requires Added(blks, blks0, news, chain)
    ensures |news| == |chain|
  {
  }

  lemma AddedMore(blks: map<nat, ElementBlock>, blks0: map<nat, ElementBlock>, news: seq<nat>, chain: seq<ElementBlock>,
                  k: nat, p: ElementBlock)
    requires Added(blks, blks0, news, chain) && k !in blks
    ensures Added(blks[k := p], blks0, news + [k], chain + [p])
    ensures |chain| == |news|
    ensures forall i :: 0 <= i < |chain| ==> news[i] in blks && news[i] != k && chain[i] == blks[news[i]]
  {
  }

  /** The new blocks from the j-th on, without the first of them. */
  lemma AddedFrom(blks: map<nat, ElementBlock>, blks0: map<nat, ElementBlock>, news: seq<nat>, chain: seq<ElementBlock>, j: nat)
    requires |news| == |chain| && j < |news| && Added(blks, blks0, news[j..], chain[j..])
    ensures news[j] in blks && blks[news[j]] == chain[j]
    ensures Added(blks - {news[j]}, blks0, news[j + 1..], chain[j + 1..])
  {
    assert news[j..][0] == news[j] && chain[j..][0] == chain[j];
    assert news[j..][1..] == news[j + 1..] && chain[j..][1..] == chain[j + 1..];
  }

  lemma AddedNone(blks: map<nat, ElementBlock>, blks0: map<nat, ElementBlock>)
    requires Added(blks, blks0, [], [])
    ensures blks == blks0
  {
  }

  /** The block an enqueue starts from: if it has room it is in use, and leads on to the first new one. */
  ghost predicate StartOk(s0: State, blks0: map<nat, ElementBlock>, startBlock: ElementBlock?, chain: seq<ElementBlock>)
    reads startBlock
  {
    var b := |s0.published| / BLOCK_SIZE;
    |s0.published| % BLOCK_SIZE != 0 ==>
      && b in s0.live && s0.live[b] in blks0 && startBlock == blks0[s0.live[b]]
      && (chain != [] ==> startBlock.next == chain[0])
  }

  ghost function LastOf(startBlock: ElementBlock?, chain: seq<ElementBlock>): ElementBlock? {
    if chain == [] then startBlock else chain[|chain| - 1]
  }

  /** The blocks an enqueue works with are in use. */
  lemma ChainInUse(blks: map<nat, ElementBlock>, blks0: map<nat, ElementBlock>, news: seq<nat>, chain: seq<ElementBlock>,
                   startBlock: ElementBlock?, s0: State)
    requires Added(blks, blks0, news, chain) && StartOk(s0, blks0, startBlock, chain)
    ensures |chain| == |news| && forall i :: 0 <= i < |chain| ==> news[i] in blks && blks[news[i]] == chain[i]
    ensures |s0.published| % BLOCK_SIZE != 0 ==>
              var k0 := s0.live[|s0.published| / BLOCK_SIZE]; k0 in blks && blks[k0] == startBlock
  {
  }

  /** They are distinct, and distinct from the one it starts from. */
  lemma ChainApart(blks: map<nat, ElementBlock>, blks0: map<nat, ElementBlock>, news: seq<nat>, chain: seq<ElementBlock>, k0: nat)
    requires Added(blks, blks0, news, chain)
    requires forall k, l :: k in blks && l in blks && k != l ==> blks[k] != blks[l]
    ensures forall i, j :: 0 <= i < j < |chain| ==> chain[i] != chain[j]
    ensures k0 in blks0 ==> blks0[k0] !in chain
  {
    forall i, j | 0 <= i < j < |chain| ensures chain[i] != chain[j] {
      assert blks[news[i]] != blks[news[j]];
    }
  }

  // -------------------------------------------------------------------
  // Where blocks are
  // -------------------------------------------------------------------

  /** The blocks in the pool and those in use. */
  ghost function BlocksOf(pool: seq<ElementBlock>, blks: map<nat, ElementBlock>): set<ElementBlock> {
    (set i | 0 <= i < |pool| :: pool[i]) + blks.Values
  }

  /** A block that goes from the pool, or from the allocator, into use is not lost, nor is any other. */
  lemma NoneLostInUse(pool: seq<ElementBlock>, pool': seq<ElementBlock>, blks: map<nat, ElementBlock>, k: nat, block: ElementBlock)
    requires k !in blks && (if pool != [] then pool' + [block] == pool else pool' == [])
    ensures BlocksOf(pool, blks) <= BlocksOf(pool', blks[k := block])
  {
    forall b | b in BlocksOf(pool, blks) ensures b in BlocksOf(pool', blks[k := block]) {
      if b in blks.Values {
        var l :| l in blks && blks[l] == b;
        assert blks[k := block][l] == b;
      } else {
        var i :| 0 <= i < |pool| && pool[i] == b;
        if i == |pool| - 1 {
          assert blks[k := block][k] == b;
        } else {
          assert pool'[i] == b;
        }
      }
    }
  }

  /** Nor one that goes back to the pool. */
  lemma NoneLostInPool(pool: seq<ElementBlock>, blks: map<nat, ElementBlock>, k: nat)
    requires k in blks
    ensures BlocksOf(pool, blks) <= BlocksOf(pool + [blks[k]], blks - {k})
  {
    var pool' := pool + [blks[k]];
    forall b | b in BlocksOf(pool, blks) ensures b in BlocksOf(pool', blks - {k}) {
      if b in blks.Values {
        var l :| l in blks && blks[l] == b;
        if l == k {
          assert pool'[|pool|] == b;
        } else {
          assert (blks - {k})[l] == b;
        }
      } else {
        var i :| 0 <= i < |pool| && pool[i] == b;
        assert pool'[i] == b;
      }
    }
  }
}
