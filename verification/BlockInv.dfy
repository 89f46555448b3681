/** The invariant of the block queue, in groups, and what it says of the block index under each change. */
module BlockInv {
  import opened Sums
  import opened BlockQueue
  import opened BlockRing
  import Integers

  // -------------------------------------------------------------------
  // The block index
  // -------------------------------------------------------------------

  ghost function LiveValue(live: map<nat, nat>, b: nat): Value { if b in live then Ptr(live[b]) else Null }

  /** The block whose index entry is being inserted and has no dependable value yet, or -1. */
  function Pending(p: Producer): int {
    if p.PStoreTail? || p.PRequisition? || p.PStoreValue? || p.PRewind? || p.PClear? then Upcoming(p.op) else -1
  }

  /**
   The current header h has `ins` blocks up to its tail; the entries of blocks lo .. hi hold their
   numbers, and the blocks that are live.
  */
  ghost predicate RingOk(h: Header, entries: seq<Entry>, live: map<nat, nat>, lo: nat, hi: nat, ins: int, pending: int) {
    && HeaderShape(h, |entries|) && Injective(h.index)
    && 0 <= ins <= hi && lo <= hi <= lo + h.capacity
    && After(h) == Pos(h, ins)
    && (forall b: nat :: lo <= b < hi ==> entries[EntryOf(h, b)].key == Base(b))
    && (forall b: nat :: lo <= b < hi && b != pending ==> entries[EntryOf(h, b)].value == LiveValue(live, b))
    && (forall b: nat :: b in live ==> lo <= b < hi && b != pending)
    && (forall b: nat :: hi <= b < lo + h.capacity ==> entries[EntryOf(h, b)].key == Invalid)
  }

  ghost predicate RingInv(s: State) {
    s.headers != [] && RingOk(Cur(s), s.entries, s.live, s.lo, s.hi, Inserted(s), Pending(s.prod))
  }

  /** Distinct blocks less than a ring apart have distinct entries. */
  lemma EntriesApart(h: Header, entries: nat, b: nat, c: nat)
    requires HeaderShape(h, entries) && Injective(h.index) && b < c < b + h.capacity
    ensures EntryOf(h, b) != EntryOf(h, c)
  {
    PosApart(h, b, c);
    var p, q := Pos(h, b), Pos(h, c);
    assert if p < q then h.index[p] != h.index[q] else h.index[q] != h.index[p];
  }

  /** In the window, an entry belongs to one block. */
  lemma EntryOwner(h: Header, entries: seq<Entry>, live: map<nat, nat>, lo: nat, hi: nat, ins: int, pending: int, b: nat)
    requires RingOk(h, entries, live, lo, hi, ins, pending) && lo <= b < hi
    ensures EntryOf(h, b) < |entries|
    ensures forall c: nat :: lo <= c < hi && c != b ==> EntryOf(h, c) != EntryOf(h, b)
  {
    forall c: nat | lo <= c < hi && c != b ensures EntryOf(h, c) != EntryOf(h, b) {
      if c < b {
        EntriesApart(h, |entries|, c, b);
      } else {
        EntriesApart(h, |entries|, b, c);
      }
    }
  }

  /** Storing the key of the next block in a free entry. */
  lemma RingStoreKey(h: Header, entries: seq<Entry>, live: map<nat, nat>, lo: nat, hi: nat, b: nat)
    requires RingOk(h, entries, live, lo, hi, b, -1) && b !in live && lo <= b
    requires b == hi && lo + h.capacity == hi ==> lo !in live
    ensures var e := h.index[After(h)];
            RingOk(h, entries[e := entries[e].(key := Base(b))], live,
                   if b == hi && lo + h.capacity <= b then b + 1 - h.capacity else lo,
                   if b == hi then b + 1 else hi, b, b)
  {
    hide EntryOf;
    hide Pos;
    hide Injective;
    var e := EntryOf(h, b);
    AfterEntry(h, b);
    var entries' := entries[e := entries[e].(key := Base(b))];
    var lo' := if b == hi && lo + h.capacity <= b then b + 1 - h.capacity else lo;
    var hi' := if b == hi then b + 1 else hi;
    forall c: nat | lo' <= c < lo' + h.capacity && c != b ensures EntryOf(h, c) != e {
      if c < b {
        EntriesApart(h, |entries|, c, b);
      } else {
        EntriesApart(h, |entries|, b, c);
      }
    }
    forall c: nat ensures EntryOf(h, c) < |entries| {
      EntryRange(h, |entries|, c);
    }
  }

  lemma AfterEntry(h: Header, b: nat)
    requires 0 < h.capacity == |h.index| && After(h) == Pos(h, b)
    ensures h.index[After(h)] == EntryOf(h, b)
  {
  }

  lemma EntryRange(h: Header, entries: nat, b: nat)
    requires HeaderShape(h, entries)
    ensures EntryOf(h, b) < entries
  {
  }

  /** Moving the tail over a block inserted, or back. */
  lemma RingSetTail(h: Header, entries: seq<Entry>, live: map<nat, nat>, lo: nat, hi: nat, ins: int, pending: int)
    requires RingOk(h, entries, live, lo, hi, ins, pending)
    ensures ins < hi ==> RingOk(h.(tail := After(h)), entries, live, lo, hi, ins + 1, pending)
    ensures ins > 0 ==> RingOk(h.(tail := Before(h)), entries, live, lo, hi, ins - 1, pending)
  {
    PosNext(h, ins);
    var f := h.(tail := After(h));
    assert forall b: nat :: EntryOf(f, b) == EntryOf(h, b);
    if ins > 0 {
      var g := h.(tail := Before(h));
      TailPos(h, ins - 1);
      AfterBefore(h);
      assert forall b: nat :: EntryOf(g, b) == EntryOf(h, b);
    }
  }

  /** Storing the value of the block just inserted: it becomes live. */
  lemma RingStoreValue(h: Header, entries: seq<Entry>, live: map<nat, nat>, lo: nat, hi: nat, ins: int, b: nat, k: nat)
    requires RingOk(h, entries, live, lo, hi, ins, b) && ins == b + 1 && lo <= b
    ensures var e := h.index[h.tail];
            RingOk(h, entries[e := entries[e].(value := Ptr(k))], live[b := k], lo, hi, ins, -1)
  {
    TailPos(h, b);
    EntryOwner(h, entries, live, lo, hi, ins, b, b);
  }

  /** Clearing the value of a block that was inserted and got no memory. */
  lemma RingClear(h: Header, entries: seq<Entry>, live: map<nat, nat>, lo: nat, hi: nat, b: nat)
    requires RingOk(h, entries, live, lo, hi, b, b) && lo <= b < hi
    ensures var e := h.index[After(h)];
            RingOk(h, entries[e := entries[e].(value := Null)], live, lo, hi, b, -1)
  {
    EntryOwner(h, entries, live, lo, hi, b, b, b);
  }

  /** Clearing the value of a live block: it is live no more. */
  lemma RingRelease(h: Header, entries: seq<Entry>, live: map<nat, nat>, lo: nat, hi: nat, ins: int, pending: int, b: nat)
    requires RingOk(h, entries, live, lo, hi, ins, pending) && b in live
    ensures var e := EntryOf(h, b);
            e < |entries| && RingOk(h, entries[e := entries[e].(value := Null)], live - {b}, lo, hi, ins, pending)
  {
    EntryOwner(h, entries, live, lo, hi, ins, pending, b);
  }

  /** Doubling the index, which happens only when the ring position of the next block is taken. */
  lemma RingGrow(h: Header, entries: seq<Entry>, live: map<nat, nat>, lo: nat, hi: nat, more: seq<Entry>)
    requires RingOk(h, entries, live, lo, hi, hi, -1) && |more| == h.capacity
    requires forall i :: 0 <= i < |more| ==> more[i].key == Invalid
    ensures RingOk(Grown(h, |entries|, hi), entries + more, live, lo, hi, hi, -1)
    ensures forall b: nat :: lo <= b < hi ==> EntryOf(Grown(h, |entries|, hi), b) == EntryOf(h, b)
  {
    hide Grown;
    var g := Grown(h, |entries|, hi);
    GrownInjective(h, |entries|, hi);
    GrownTail(h, |entries|, hi);
    GrownParts(h, |entries|, hi);
    forall b: nat | lo <= b < hi ensures EntryOf(g, b) == EntryOf(h, b) {
      GrownEntry(h, |entries|, hi, b);
    }
    forall b: nat | hi <= b < lo + g.capacity ensures (entries + more)[EntryOf(g, b)].key == Invalid {
      if b < hi + h.capacity {
        GrownFresh(h, |entries|, hi, b);
      } else {
        GrownFree(h, |entries|, hi, b);
      }
    }
  }

  lemma GrownParts(h: Header, entries: nat, nb: nat)
    requires HeaderShape(h, entries)
    ensures Grown(h, entries, nb).capacity == 2 * h.capacity == |Grown(h, entries, nb).index|
  {
  }

  /** The producer's own lookup of a live block, from a tail it may have moved back. */
  lemma RingLookup(s: State, b: nat)
    requires Shape(s) && RingInv(s) && s.lo <= Inserted(s) - 1
    ensures s.entries[Cur(s).index[Cur(s).tail]].key == Base(Inserted(s) - 1)
    ensures LookupNow(s, b) == EntryOf(Cur(s), b)
  {
    var tb := Inserted(s) - 1;
    TailPos(Cur(s), tb);
    assert s.entries[EntryOf(Cur(s), tb)].key == Base(tb);
    LookupPos(Cur(s), tb, b);
  }

  // -------------------------------------------------------------------
  // The producer
  // -------------------------------------------------------------------

  /** The number of blocks that n elements reach into. */
  function Ceil(n: nat): nat { (n + BLOCK_SIZE - 1) / BLOCK_SIZE }

  ghost predicate Distinct(ks: seq<nat>) {
    forall i, j :: 0 <= i < j < |ks| ==> ks[i] != ks[j]
  }

  /** If the last block is partly filled it is live, and v points to it. */
  ghost predicate TailOk(published: seq<Elem>, live: map<nat, nat>, v: Value) {
    |published| % BLOCK_SIZE != 0 ==>
      |published| / BLOCK_SIZE in live && v == Ptr(live[|published| / BLOCK_SIZE])
  }

  ghost predicate Working(s: State, op: Op) {
    op.xs != [] && op.first == Ceil(|s.published|) && TailOk(s.published, s.live, op.start) && Distinct(op.news)
  }

  ghost predicate PhaseInv(s: State) {
    && s.headers != []
    && s.head <= |s.published|
    && s.lo <= Ceil(|s.published|)
    && Pending(s.prod) < s.hi
    && match s.prod
       case PIdle => TailOk(s.published, s.live, s.tailBlock)
       case PCheck(op) => Working(s, op) && Upcoming(op) <= Needed(s, op) + 1
       case PTest(op) => Working(s, op) && Upcoming(op) <= Needed(s, op)
       case PGrow(op) => Working(s, op) && Upcoming(op) <= Needed(s, op) && Upcoming(op) == s.hi
       case PStoreKey(op) =>
         && Working(s, op) && Upcoming(op) <= Needed(s, op)
         && (Upcoming(op) == s.hi && s.lo + Cur(s).capacity == s.hi ==> s.lo !in s.live)
       case PUndoValue(op, j) => Working(s, op) && j < |op.news|
       case PUndoTail(op, j) => Working(s, op) && j < |op.news|
       case PGiveBack(op, j) => Working(s, op) && j < |op.news|
       case PWrite(op, j) => Working(s, op) && Upcoming(op) == Needed(s, op) + 1 && j < |op.xs|
       case PPublish(op) => Working(s, op) && Upcoming(op) == Needed(s, op) + 1
       case _ => Working(s, s.prod.op) && Upcoming(s.prod.op) <= Needed(s, s.prod.op)
  }

  /** How many of its new blocks a failed enqueue has taken out of the index again. */
  function Undone(p: Producer): nat {
    match p
    case PUndoValue(_, j) => j
    case PUndoTail(_, j) => j + 1
    case PGiveBack(op, _) => |op.news|
    case _ => 0
  }

  predicate IsNew(p: Producer, b: nat) {
    !p.PIdle? && p.op.first + Undone(p) <= b < p.op.first + |p.op.news|
  }

  /** The live blocks past the published elements are the new blocks of the enqueue under way. */
  ghost predicate NewsInv(published: seq<Elem>, live: map<nat, nat>, p: Producer) {
    && (forall b: nat :: b >= Ceil(|published|) ==> (b in live <==> IsNew(p, b)))
    && (forall b: nat :: b in live && b >= Ceil(|published|) ==>
          !p.PIdle? && p.op.first <= b < p.op.first + |p.op.news| && live[b] == p.op.news[b - p.op.first])
  }

  // -------------------------------------------------------------------
  // The consumers
  // -------------------------------------------------------------------

  /** How many of the indices i .. j lie in block b. */
  function Overlap(i: int, j: int, b: int): nat {
    var from := if i < b * BLOCK_SIZE then b * BLOCK_SIZE else i;
    var to := Integers.Min(j, b * BLOCK_SIZE + BLOCK_SIZE);
    if from < to then to - from else 0
  }

  /** The indices of block b a consumer has claimed and not yet counted in the block. */
  ghost function Held(b: nat): Consumer -> nat {
    (c: Consumer) =>
      if c.CIdle? then 0 else Overlap(if c.CMove? || c.CCount? then c.from else c.i, c.j, b)
  }

  /** Index x is claimed by this consumer and its element not moved out yet. */
  ghost function Has(x: nat): Consumer -> nat {
    (c: Consumer) => if !c.CIdle? && c.i <= x < c.j then 1 else 0
  }

  /** This consumer is taking block b out of the index. */
  ghost function Nulling(b: nat): Consumer -> nat {
    (c: Consumer) => if c.CNull? && c.i > 0 && (c.i - 1) / BLOCK_SIZE == b then 1 else 0
  }

  /** This consumer is about to return block k to the pool. */
  ghost function Freeing(k: nat): Consumer -> nat {
    (c: Consumer) => if c.CFree? && c.k == k then 1 else 0
  }

  /** Blocks b0 .. b1 have the same entries in header h as in the current one. */
  ghost predicate SameEntries(s: State, h: nat, b0: nat, b1: nat)
    requires Shape(s) && h < |s.headers|
  {
    forall b: nat :: b0 <= b <= b1 ==> EntryOf(s.headers[h], b) == EntryOf(Cur(s), b)
  }

  /** Block tb, at or after block b, is still in the window of keys and has the same entry in header h. */
  ghost predicate Anchor(s: State, h: nat, tb: int, b: nat)
    requires Shape(s) && h < |s.headers|
  {
    b <= tb < s.hi && EntryOf(s.headers[h], tb) == EntryOf(Cur(s), tb)
  }

  /** The consumer works on block b, at its entry e in the current header and position idx of header h. */
  ghost predicate OnBlock(s: State, c: Consumer, b: nat)
    requires Shape(s) && (c.CMove? || c.CCount? || c.CNull?) && c.h < |s.headers|
  {
    && c.idx == Pos(s.headers[c.h], b)
    && c.e == EntryOf(Cur(s), b)
    && b in s.live && c.k == s.live[b]
  }

  ghost predicate ConsumerInv(s: State, c: Consumer)
    requires Shape(s) && ConsumerShape(c, s.headers, |s.entries|)
  {
    match c
    case CIdle => true
    case CHeader(i, j) => i < j <= s.head
    case CTail(i, j, h) =>
      && i < j <= s.head && SameEntries(s, h, i / BLOCK_SIZE, (j - 1) / BLOCK_SIZE)
      && (h < |s.headers| - 1 ==>
            && s.headers[h].top > 0
            && Anchor(s, h, s.headers[h].top - 1, i / BLOCK_SIZE)
            && s.headers[h].tail == Pos(s.headers[h], s.headers[h].top - 1))
    case CKey(i, j, h, t, tb) =>
      && i < j <= s.head && SameEntries(s, h, i / BLOCK_SIZE, (j - 1) / BLOCK_SIZE)
      && Anchor(s, h, tb, i / BLOCK_SIZE) && t == Pos(s.headers[h], tb)
    case CEntry(i, j, h, idx) =>
      && i < j <= s.head && SameEntries(s, h, i / BLOCK_SIZE, (j - 1) / BLOCK_SIZE)
      && idx == Pos(s.headers[h], i / BLOCK_SIZE)
    case CMove(i, j, h, idx, e, k, from) =>
      && from <= i < j <= s.head && i / BLOCK_SIZE == from / BLOCK_SIZE
      && SameEntries(s, h, from / BLOCK_SIZE, (j - 1) / BLOCK_SIZE)
      && OnBlock(s, c, from / BLOCK_SIZE)
    case CCount(i, j, h, idx, e, k, from) =>
      && from < i <= j <= s.head && (i - 1) / BLOCK_SIZE == from / BLOCK_SIZE
      && (i < j ==> i % BLOCK_SIZE == 0)
      && SameEntries(s, h, from / BLOCK_SIZE, (j - 1) / BLOCK_SIZE)
      && OnBlock(s, c, from / BLOCK_SIZE)
    case CNull(i, j, h, idx, e, k) =>
      && 0 < i <= j <= s.head && (i < j ==> i % BLOCK_SIZE == 0)
      && SameEntries(s, h, (i - 1) / BLOCK_SIZE, (j - 1) / BLOCK_SIZE)
      && OnBlock(s, c, (i - 1) / BLOCK_SIZE)
    case CFree(i, j, h, idx, k) =>
      && 0 < i <= j <= s.head && (i < j ==> i % BLOCK_SIZE == 0)
      && (i < j ==> SameEntries(s, h, i / BLOCK_SIZE, (j - 1) / BLOCK_SIZE))
      && idx == Pos(s.headers[h], (i - 1) / BLOCK_SIZE)
      && k in s.blocks
  }

  // -------------------------------------------------------------------
  // Indices, blocks and elements
  // -------------------------------------------------------------------

  /** Every index of a live block is unclaimed, held by a consumer, or counted; a full count has one consumer releasing it. */
  ghost predicate LifeInv(s: State, b: nat) {
    b in s.live ==>
      && s.live[b] in s.blocks
      && s.blocks[s.live[b]].dequeued + Sum(s.cons, Held(b)) == Overlap(0, s.head, b)
      && Sum(s.cons, Nulling(b)) == (if s.blocks[s.live[b]].dequeued == BLOCK_SIZE then 1 else 0)
  }

  /** An index below the head has been moved out, or is held by exactly one consumer. */
  ghost predicate OutInv(s: State, x: nat) {
    && Sum(s.cons, Has(x)) + (if x in s.out then 1 else 0) == (if x < s.head then 1 else 0)
    && (x in s.out ==> x < |s.published| && s.out[x] == s.published[x])
    && (x < |s.published| && x !in s.out ==> x / BLOCK_SIZE in s.live)
  }

  /** The elements published, and those already in place. */
  ghost function Written(s: State): seq<Elem> {
    if s.prod.PWrite? && s.prod.j <= |s.prod.op.xs| then s.published + s.prod.op.xs[..s.prod.j]
    else if s.prod.PPublish? then s.published + s.prod.op.xs
    else s.published
  }

  /** An element in place and not moved out sits in its slot. */
  ghost predicate SlotInv(s: State, x: nat) {
    x < |Written(s)| && x !in s.out && x / BLOCK_SIZE in s.live && s.live[x / BLOCK_SIZE] in s.blocks
    && |s.blocks[s.live[x / BLOCK_SIZE]].slots| == BLOCK_SIZE ==>
      s.blocks[s.live[x / BLOCK_SIZE]].slots[x % BLOCK_SIZE] == Full(Written(s)[x])
  }

  /** A block just requisitioned has an empty count. */
  ghost predicate HandInv(s: State) {
    s.prod.PStoreValue? ==> s.prod.k in s.blocks && s.blocks[s.prod.k].dequeued == 0
  }

  ghost predicate IsLive(live: map<nat, nat>, k: nat) { exists b: nat :: b in live && live[b] == k }

  /** The producer has block k in its hands: not in the index yet, or not any more. */
  ghost predicate InHand(p: Producer, k: nat) {
    || (p.PStoreValue? && p.k == k)
    || (p.PUndoValue? && exists x :: 0 <= x < p.j && x < |p.op.news| && p.op.news[x] == k)
    || (p.PUndoTail? && exists x :: 0 <= x <= p.j && x < |p.op.news| && p.op.news[x] == k)
    || (p.PGiveBack? && exists x :: p.j <= x < |p.op.news| && p.op.news[x] == k)
  }

  /** A block of this producer is in exactly one place: live, in the producer's hands, or in one consumer's. */
  ghost predicate PlaceInv(s: State, k: nat) {
    (if IsLive(s.live, k) then 1 else 0) + (if InHand(s.prod, k) then 1 else 0) + Sum(s.cons, Freeing(k))
      == (if k in s.blocks then 1 else 0)
  }

  ghost predicate LiveInjective(live: map<nat, nat>) {
    forall b: nat, c: nat :: b in live && c in live && b != c ==> live[b] != live[c]
  }
}
