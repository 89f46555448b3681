/**
 One implicit producer and any number of consumers on its blocks, one atomic operation per
 step: the producer enqueues one or many elements, inserts blocks into the circular block
 index, grows the index, and rolls a failed enqueue back; consumers look their block up in
 the index while that happens, move their elements out, and release a block when its last
 element has gone. Indices are unbounded here, and a block index key is kept as the number
 of its block, that is, its base index divided by BLOCK_SIZE. A claim of indices is one step,
 which is what module Claims justifies.
*/
module BlockQueue {
  import opened Sums
  import Integers

  const BLOCK_SIZE: nat := 32

  type Elem = int

  // -------------------------------------------------------------------
  // State
  // -------------------------------------------------------------------

  datatype Key = Invalid | Base(b: nat)

  datatype Value = Null | Ptr(k: nat)

  datatype Entry = Entry(key: Key, value: Value)

  /**
   A block index header. `off` and `top` are history: the ring position of block b is
   (b + off) % capacity, and `top` is the number of blocks inserted when the header was superseded.
  */
  datatype Header = Header(capacity: nat, tail: nat, index: seq<nat>, off: nat, top: nat)

  datatype Slot = Empty | Full(v: Elem)

  datatype Block = Block(slots: seq<Slot>, dequeued: nat)

  /** The locals of an enqueue: the elements, the number of its first new block, the tail block it started from, its new blocks. */
  datatype Op = Op(xs: seq<Elem>, first: nat, start: Value, news: seq<nat>)

  /** What the producer does next. */
  datatype Producer =
    | PIdle
    | PCheck(op: Op)               // another block needed? room for it?
    | PTest(op: Op)                // insert_block_index_entry: is the next entry free?
    | PGrow(op: Op)                //   new_block_index
    | PStoreKey(op: Op)            //   idxEntry->key.store
    | PStoreTail(op: Op)           //   localBlockIndex->tail.store
    | PRequisition(op: Op)         // requisition_block, reset_empty
    | PStoreValue(op: Op, k: nat)  // idxEntry->value.store(newBlock)
    | PRewind(op: Op)              // no block: rewind_block_index_tail
    | PClear(op: Op)               //   idxEntry->value.store(nullptr)
    | PUndoValue(op: Op, j: nat)   // roll back new block j: look its entry up, value.store(nullptr)
    | PUndoTail(op: Op, j: nat)    //   rewind_block_index_tail
    | PGiveBack(op: Op, j: nat)    // add_blocks_to_free_list
    | PWrite(op: Op, j: nat)       // construct element j in place
    | PPublish(op: Op)             // tailIndex.store

  /** What a consumer of the indices i .. j does next; `from` is where its part of the current block began. */
  datatype Consumer =
    | CIdle
    | CHeader(i: nat, j: nat)                                   // blockIndex.load
    | CTail(i: nat, j: nat, h: nat)                             // tail.load
    | CKey(i: nat, j: nat, h: nat, t: nat, tb: nat)             // index[tail]->key.load
    | CEntry(i: nat, j: nat, h: nat, idx: nat)                  // entry->value.load
    | CMove(i: nat, j: nat, h: nat, idx: nat, e: nat, k: nat, from: nat)   // move element i out
    | CCount(i: nat, j: nat, h: nat, idx: nat, e: nat, k: nat, from: nat)  // set_many_empty
    | CNull(i: nat, j: nat, h: nat, idx: nat, e: nat, k: nat)              // entry->value.store(nullptr)
    | CFree(i: nat, j: nat, h: nat, idx: nat, k: nat)                      // add_block_to_free_list

  /**
   `blocks` holds the blocks that belong to this producer; all others are in the pool or with other
   producers. tailIndex is |published|. Histories: every element published, every element moved out by
   index, the block of every block number in the index, and the numbers lo .. hi whose keys the ring still holds.
  */
  datatype State = State(headers: seq<Header>, entries: seq<Entry>, blocks: map<nat, Block>, tailBlock: Value,
                         published: seq<Elem>, head: nat, prod: Producer, cons: seq<Consumer>,
                         out: map<nat, Elem>, live: map<nat, nat>, lo: nat, hi: nat)

  datatype Action =
    | Start(xs: seq<Elem>)                 // an idle producer is asked to enqueue xs
    | Produce                              // the producer's operation, where it cannot fail or does not
    | Fail                                 // no room, or no memory
    | Alloc(k: nat, garbage: Block)        // requisition_block returns block k, with whatever is in it
    | AllocIndex(junk: seq<Value>)      // new_block_index gets memory, with whatever values are in it
    | Consume(t: nat, n: nat)              // consumer t moves; an idle one claims n indices

  // -------------------------------------------------------------------
  // Steps
  // -------------------------------------------------------------------

  function Cur(s: State): Header
    requires s.headers != []
  {
    s.headers[|s.headers| - 1]
  }

  predicate HeaderShape(h: Header, entries: nat) {
    && 0 < h.capacity == |h.index| && h.tail < h.capacity
    && forall i :: 0 <= i < |h.index| ==> h.index[i] < entries
  }

  predicate ConsumerShape(c: Consumer, headers: seq<Header>, entries: nat) {
    && (!c.CIdle? ==> c.i <= c.j)
    && (c.CTail? || c.CKey? || c.CEntry? || c.CMove? || c.CCount? || c.CNull? || c.CFree? ==> c.h < |headers|)
    && (c.CKey? ==> c.t < headers[c.h].capacity)
    && (c.CEntry? || c.CMove? || c.CCount? || c.CNull? || c.CFree? ==> c.idx < headers[c.h].capacity)
    && (c.CMove? || c.CCount? || c.CNull? ==> c.e < entries)
    && (c.CMove? || c.CCount? ==> c.from <= c.i)
    && (c.CNull? ==> 0 < c.i)
  }

  /** Array bounds. */
  predicate Shape(s: State) {
    && s.headers != []
    && (forall h :: 0 <= h < |s.headers| ==> HeaderShape(s.headers[h], |s.entries|))
    && (forall t :: 0 <= t < |s.cons| ==> ConsumerShape(s.cons[t], s.headers, |s.entries|))
    && (forall k :: k in s.blocks ==> |s.blocks[k].slots| == BLOCK_SIZE)
  }

  /** The number of the block an enqueue inserts next, and of the last one it needs. */
  function Upcoming(op: Op): nat { op.first + |op.news| }

  function Needed(s: State, op: Op): int { (|s.published| + |op.xs| - 1) / BLOCK_SIZE }

  /** The block element number b is written to: the old tail block, or one of the new blocks in order. */
  function Target(op: Op, b: nat): Value {
    if b < op.first then op.start
    else if b - op.first < |op.news| then Ptr(op.news[b - op.first])
    else Null
  }

  /** The ring position for block b, from the tail position t whose entry has the key `tailKey`. */
  function LookupAt(h: Header, t: nat, tailKey: nat, b: nat): (idx: nat)
    requires 0 < h.capacity
    ensures idx < h.capacity
  {
    (t + (b - tailKey)) % h.capacity
  }

  /** The entry get_block_index_entry_for_index finds for block b when nothing else moves. */
  function LookupNow(s: State, b: nat): (e: nat)
    requires Shape(s)
    ensures e < |s.entries|
  {
    var h := Cur(s);
    var key := s.entries[h.index[h.tail]].key;
    h.index[LookupAt(h, h.tail, if key.Base? then key.b else 0, b)]
  }

  /** The index position after, and before, the tail. */
  function After(h: Header): (p: nat)
    requires 0 < h.capacity
    ensures p < h.capacity
  {
    (h.tail + 1) % h.capacity
  }

  function Before(h: Header): (p: nat)
    requires 0 < h.capacity
    ensures p < h.capacity
  {
    (h.tail - 1) % h.capacity
  }

  predicate ProducerEnabled(s: State, a: Action)
    requires Shape(s)
  {
    match s.prod
    case PIdle => a.Start? && a.xs != []
    case PCheck(op) => a.Produce? || (a.Fail? && Upcoming(op) <= Needed(s, op))
    case PGrow(_) => a.Fail? || (a.AllocIndex? && |a.junk| == Cur(s).capacity)
    case PRequisition(_) => a.Fail? || (a.Alloc? && a.k !in s.blocks && |a.garbage.slots| == BLOCK_SIZE)
    case PUndoValue(op, j) => a.Produce? && j < |op.news| && s.entries[Cur(s).index[Cur(s).tail]].key.Base?
    case PUndoTail(op, j) => a.Produce? && j < |op.news|
    case PGiveBack(op, j) => a.Produce? && j < |op.news|
    case PWrite(op, j) =>
      && a.Produce? && j < |op.xs|
      && var to := Target(op, (|s.published| + j) / BLOCK_SIZE);
         to.Ptr? && to.k in s.blocks
    case _ => a.Produce?
  }

  predicate ConsumerEnabled(s: State, t: nat, n: nat)
    requires Shape(s) && t < |s.cons|
  {
    match s.cons[t]
    case CIdle => 0 < n <= |s.published| - s.head
    case CKey(_, _, h, tl, _) => s.entries[s.headers[h].index[tl]].key.Base?
    case CEntry(i, j, h, idx) => i < j && s.entries[s.headers[h].index[idx]].value.Ptr?
    case CMove(i, j, _, _, _, k, _) => i < j && k in s.blocks && s.blocks[k].slots[i % BLOCK_SIZE].Full?
    case CCount(i, _, _, _, _, k, from) => 0 < i && k in s.blocks && s.blocks[k].dequeued + (i - from) <= BLOCK_SIZE
    case _ => true
  }

  /** The action can be taken, and every pointer it follows is valid. */
  predicate Enabled(s: State, a: Action) {
    && Shape(s)
    && if a.Consume? then a.t < |s.cons| && ConsumerEnabled(s, a.t, a.n) else ProducerEnabled(s, a)
  }

  function SetTail(s: State, t: nat): State
    requires Shape(s) && t < Cur(s).capacity
  {
    s.(headers := s.headers[|s.headers| - 1 := Cur(s).(tail := t)])
  }

  /** Roll back new block j and those after it. */
  function Undo(s: State, op: Op, j: nat): State {
    if j < |op.news| then s.(prod := PUndoValue(op, j)) else GiveBack(s, op, 0)
  }

  function GiveBack(s: State, op: Op, j: nat): State {
    if j < |op.news| then s.(prod := PGiveBack(op, j)) else s.(prod := PIdle, tailBlock := op.start)
  }

  /** new_block_index: twice the capacity, the old ring in order from its oldest entry, then fresh entries. */
  function Grown(h: Header, entries: nat, b: nat): Header
    requires HeaderShape(h, entries)
  {
    Header(2 * h.capacity, h.capacity - 1,
           seq(2 * h.capacity, i requires 0 <= i < 2 * h.capacity =>
             if i < h.capacity then h.index[(h.tail + 1 + i) % h.capacity] else entries + i - h.capacity),
           (h.capacity - b) % (2 * h.capacity), 0)
  }

  function DoStart(s: State, xs: seq<Elem>): State {
    s.(prod := PCheck(Op(xs, (|s.published| + BLOCK_SIZE - 1) / BLOCK_SIZE, s.tailBlock, [])))
  }

  function DoCheck(s: State, op: Op): State {
    s.(prod := if Upcoming(op) <= Needed(s, op) then PTest(op) else PWrite(op, 0))
  }

  function DoTest(s: State, op: Op): State
    requires Shape(s)
  {
    var entry := s.entries[Cur(s).index[After(Cur(s))]];
    s.(prod := if entry.key.Invalid? || entry.value.Null? then PStoreKey(op) else PGrow(op))
  }

  function DoGrow(s: State, op: Op, junk: seq<Value>): State
    requires Shape(s) && |junk| == Cur(s).capacity
  {
    var h := Cur(s);
    s.(headers := s.headers[|s.headers| - 1 := h.(top := Upcoming(op))] + [Grown(h, |s.entries|, Upcoming(op))],
       entries := s.entries + seq(|junk|, i requires 0 <= i < |junk| => Entry(Invalid, junk[i])),
       prod := PStoreKey(op))
  }

  function DoStoreKey(s: State, op: Op): State
    requires Shape(s)
  {
    var e := Cur(s).index[After(Cur(s))];
    var b := Upcoming(op);
    s.(entries := s.entries[e := s.entries[e].(key := Base(b))],
       prod := PStoreTail(op),
       hi := if b == s.hi then b + 1 else s.hi,
       lo := if b == s.hi && s.lo + Cur(s).capacity <= b then b + 1 - Cur(s).capacity else s.lo)
  }

  function DoStoreTail(s: State, op: Op): State
    requires Shape(s)
  {
    SetTail(s, After(Cur(s))).(prod := PRequisition(op))
  }

  function DoRequisition(s: State, op: Op, k: nat, garbage: Block): State {
    s.(blocks := s.blocks[k := garbage.(dequeued := 0)], prod := PStoreValue(op, k))
  }

  function DoStoreValue(s: State, op: Op, k: nat): State
    requires Shape(s)
  {
    var e := Cur(s).index[Cur(s).tail];
    s.(entries := s.entries[e := s.entries[e].(value := Ptr(k))],
       live := s.live[Upcoming(op) := k], tailBlock := Ptr(k), prod := PCheck(op.(news := op.news + [k])))
  }

  function DoRewind(s: State, op: Op): State
    requires Shape(s)
  {
    SetTail(s, Before(Cur(s))).(prod := PClear(op))
  }

  function DoClear(s: State, op: Op): State
    requires Shape(s)
  {
    var e := Cur(s).index[After(Cur(s))];
    Undo(s.(entries := s.entries[e := s.entries[e].(value := Null)]), op, 0)
  }

  function DoUndoValue(s: State, op: Op, j: nat): State
    requires Shape(s)
  {
    var e := LookupNow(s, op.first + j);
    s.(entries := s.entries[e := s.entries[e].(value := Null)], live := s.live - {op.first + j},
       prod := PUndoTail(op, j))
  }

  function DoUndoTail(s: State, op: Op, j: nat): State
    requires Shape(s)
  {
    Undo(SetTail(s, Before(Cur(s))), op, j + 1)
  }

  function DoGiveBack(s: State, op: Op, j: nat): State
    requires j < |op.news|
  {
    GiveBack(s.(blocks := s.blocks - {op.news[j]}), op, j + 1)
  }

  function DoWrite(s: State, op: Op, j: nat): State
    requires j < |op.xs| && Shape(s)
    requires var to := Target(op, (|s.published| + j) / BLOCK_SIZE); to.Ptr? && to.k in s.blocks
  {
    var x := |s.published| + j;
    var k := Target(op, x / BLOCK_SIZE).k;
    var bl := s.blocks[k];
    s.(blocks := s.blocks[k := bl.(slots := bl.slots[x % BLOCK_SIZE := Full(op.xs[j])])],
       prod := if j + 1 < |op.xs| then PWrite(op, j + 1) else PPublish(op))
  }

  function DoPublish(s: State, op: Op): State {
    s.(published := s.published + op.xs, prod := PIdle,
       tailBlock := if op.news == [] then op.start else Ptr(op.news[|op.news| - 1]))
  }

  function NextProducer(s: State, a: Action): State
    requires Shape(s) && ProducerEnabled(s, a)
  {
    match s.prod
    case PIdle => DoStart(s, a.xs)
    case PCheck(op) => if a.Fail? then Undo(s, op, 0) else DoCheck(s, op)
    case PTest(op) => DoTest(s, op)
    case PGrow(op) => if a.Fail? then Undo(s, op, 0) else DoGrow(s, op, a.junk)
    case PStoreKey(op) => DoStoreKey(s, op)
    case PStoreTail(op) => DoStoreTail(s, op)
    case PRequisition(op) => if a.Fail? then s.(prod := PRewind(op)) else DoRequisition(s, op, a.k, a.garbage)
    case PStoreValue(op, k) => DoStoreValue(s, op, k)
    case PRewind(op) => DoRewind(s, op)
    case PClear(op) => DoClear(s, op)
    case PUndoValue(op, j) => DoUndoValue(s, op, j)
    case PUndoTail(op, j) => DoUndoTail(s, op, j)
    case PGiveBack(op, j) => DoGiveBack(s, op, j)
    case PWrite(op, j) => DoWrite(s, op, j)
    case PPublish(op) => DoPublish(s, op)
  }

  /** The number of blocks in the index up to the tail of the current header. */
  function Inserted(s: State): int {
    match s.prod
    case PIdle => (|s.published| + BLOCK_SIZE - 1) / BLOCK_SIZE
    case PRequisition(op) => Upcoming(op) + 1
    case PStoreValue(op, _) => Upcoming(op) + 1
    case PRewind(op) => Upcoming(op) + 1
    case PUndoValue(op, j) => Upcoming(op) - j
    case PUndoTail(op, j) => Upcoming(op) - j
    case PGiveBack(op, _) => op.first
    case _ => Upcoming(s.prod.op)
  }

  /** A consumer's next block, or the end of its work. */
  function Onward(s: State, i: nat, j: nat, h: nat, idx: nat): Consumer
    requires Shape(s) && h < |s.headers|
  {
    if i < j then CEntry(i, j, h, (idx + 1) % s.headers[h].capacity) else CIdle
  }

  function Go(s: State, t: nat, c: Consumer): State
    requires t < |s.cons|
  {
    s.(cons := s.cons[t := c])
  }

  function DoClaim(s: State, t: nat, n: nat): State
    requires t < |s.cons|
  {
    Go(s.(head := s.head + n), t, CHeader(s.head, s.head + n))
  }

  function DoTail(s: State, t: nat, i: nat, j: nat, h: nat): State
    requires Shape(s) && t < |s.cons| && h < |s.headers|
  {
    var tb := if h == |s.headers| - 1 then Inserted(s) - 1 else s.headers[h].top - 1;
    Go(s, t, CKey(i, j, h, s.headers[h].tail, if tb < 0 then 0 else tb))
  }

  function DoKey(s: State, t: nat, i: nat, j: nat, h: nat, tl: nat): State
    requires Shape(s) && t < |s.cons| && h < |s.headers| && tl < s.headers[h].capacity
    requires s.entries[s.headers[h].index[tl]].key.Base?
  {
    var key := s.entries[s.headers[h].index[tl]].key;
    Go(s, t, CEntry(i, j, h, LookupAt(s.headers[h], tl, key.b, i / BLOCK_SIZE)))
  }

  function DoEntry(s: State, t: nat, i: nat, j: nat, h: nat, idx: nat): State
    requires Shape(s) && t < |s.cons| && h < |s.headers| && idx < s.headers[h].capacity
    requires s.entries[s.headers[h].index[idx]].value.Ptr?
  {
    var e := s.headers[h].index[idx];
    Go(s, t, CMove(i, j, h, idx, e, s.entries[e].value.k, i))
  }

  function DoMove(s: State, t: nat, i: nat, j: nat, h: nat, idx: nat, e: nat, k: nat, from: nat): State
    requires Shape(s) && t < |s.cons| && k in s.blocks && s.blocks[k].slots[i % BLOCK_SIZE].Full?
  {
    var bl := s.blocks[k];
    var end := Integers.Min(j, (from / BLOCK_SIZE + 1) * BLOCK_SIZE);
    Go(s.(blocks := s.blocks[k := bl.(slots := bl.slots[i % BLOCK_SIZE := Empty])],
          out := s.out[i := bl.slots[i % BLOCK_SIZE].v]),
       t, if i + 1 < end then CMove(i + 1, j, h, idx, e, k, from) else CCount(i + 1, j, h, idx, e, k, from))
  }

  function DoCount(s: State, t: nat, i: nat, j: nat, h: nat, idx: nat, e: nat, k: nat, from: nat): State
    requires Shape(s) && t < |s.cons| && h < |s.headers| && k in s.blocks && from <= i
  {
    var bl := s.blocks[k];
    var s1 := s.(blocks := s.blocks[k := bl.(dequeued := bl.dequeued + (i - from))]);
    Go(s1, t, if bl.dequeued + (i - from) == BLOCK_SIZE then CNull(i, j, h, idx, e, k) else Onward(s, i, j, h, idx))
  }

  function DoNull(s: State, t: nat, i: nat, j: nat, h: nat, idx: nat, e: nat, k: nat): State
    requires t < |s.cons| && e < |s.entries| && 0 < i
  {
    Go(s.(entries := s.entries[e := s.entries[e].(value := Null)], live := s.live - {(i - 1) / BLOCK_SIZE}),
       t, CFree(i, j, h, idx, k))
  }

  function DoFree(s: State, t: nat, i: nat, j: nat, h: nat, idx: nat, k: nat): State
    requires Shape(s) && t < |s.cons| && h < |s.headers|
  {
    Go(s.(blocks := s.blocks - {k}), t, Onward(s, i, j, h, idx))
  }

  function NextConsumer(s: State, t: nat, n: nat): State
    requires Shape(s) && t < |s.cons| && ConsumerEnabled(s, t, n)
  {
    match s.cons[t]
    case CIdle => DoClaim(s, t, n)
    case CHeader(i, j) => Go(s, t, CTail(i, j, |s.headers| - 1))
    case CTail(i, j, h) => DoTail(s, t, i, j, h)
    case CKey(i, j, h, tl, _) => DoKey(s, t, i, j, h, tl)
    case CEntry(i, j, h, idx) => DoEntry(s, t, i, j, h, idx)
    case CMove(i, j, h, idx, e, k, from) => DoMove(s, t, i, j, h, idx, e, k, from)
    case CCount(i, j, h, idx, e, k, from) => DoCount(s, t, i, j, h, idx, e, k, from)
    case CNull(i, j, h, idx, e, k) => DoNull(s, t, i, j, h, idx, e, k)
    case CFree(i, j, h, idx, k) => DoFree(s, t, i, j, h, idx, k)
  }

  function Next(s: State, a: Action): State
    requires Enabled(s, a)
  {
    if a.Consume? then NextConsumer(s, a.t, a.n) else NextProducer(s, a)
  }

  ghost predicate Step(s: State, s': State) {
    exists a: Action :: Enabled(s, a) && s' == Next(s, a)
  }

  /** A producer that has just built its first block index, of any capacity. */
  ghost predicate Init(s: State) {
    && |s.headers| == 1
    && (var h := s.headers[0];
        && 0 < h.capacity == |h.index| == |s.entries| && h.tail == h.capacity - 1 && h.off == 0
        && forall i :: 0 <= i < h.capacity ==> h.index[i] == i && s.entries[i].key == Invalid)
    && s.blocks == map[] && s.tailBlock == Null
    && s.published == [] && s.head == 0 && s.prod == PIdle
    && (forall t :: 0 <= t < |s.cons| ==> s.cons[t] == CIdle)
    && s.out == map[] && s.live == map[] && s.lo == 0 && s.hi == 0
  }

  ghost predicate IsRun(run: seq<State>) {
    && run != []
    && Init(run[0])
    && forall i :: 0 <= i < |run| - 1 ==> Step(run[i], run[i + 1])
  }
}
