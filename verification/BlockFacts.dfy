/** What the states of the block queue offer to calls that run one at a time. */
module BlockFacts {
  import opened Sums
  import opened BlockQueue
  import opened BlockRing
  import opened BlockInv
  import opened BlockProducer
  import opened BlockShared
  import opened BlockSteps
  import opened BlockWords
  import opened Circular
  import BlockProducerSteps
  import BlockTheorems

  lemma SoloGood(s: State)
    requires Solo(s)
    ensures Good(s) && Shape(s)
  {
  }

  lemma SoloIdle(s: State)
    requires Solo(s) && s.cons[0] == CIdle
    ensures Good(s) && s.cons == [CIdle]
  {
    hide Good;
  }

  /** The state of a producer that has just built its first index. */
  ghost function FirstState(capacity: nat, junk: seq<Value>): (s: State)
    requires |junk| == capacity > 0
    ensures BlockQueue.Init(s) && Cur(s).capacity == capacity && s.cons == [CIdle]
  {
    State([Header(capacity, capacity - 1, seq(capacity, i requires 0 <= i < capacity => i), 0, 0)],
          seq(capacity, i requires 0 <= i < capacity => Entry(Invalid, junk[i])),
          map[], Null, [], 0, PIdle, [CIdle], map[], map[], 0, 0)
  }

  lemma FirstGood(capacity: nat, junk: seq<Value>)
    requires |junk| == capacity > 0
    ensures Good(FirstState(capacity, junk))
  {
    hide Own;
    hide Shared;
    hide Shape;
    hide FirstState;
    var s := FirstState(capacity, junk);
    BlockTheorems.InitOwn(s);
    BlockTheorems.InitShared(s);
    ShapeOf(s);
  }

  lemma FirstFields(capacity: nat, junk: seq<Value>)
    requires |junk| == capacity > 0
    ensures var s := FirstState(capacity, junk);
            && s.headers != [] && Cur(s).capacity == capacity && s.cons == [CIdle] && s.prod == PIdle
            && s.published == [] && s.head == 0
  {
  }

  /** Between dequeues a live block has an index not yet dequeued, or not yet enqueued. */
  lemma LiveHead(s: State, b: nat)
    requires Good(s) && s.cons == [CIdle] && b in s.live
    ensures s.head < b * BLOCK_SIZE + BLOCK_SIZE
  {
    hide Shape;
    hide Own;
    hide ConsumerInv;
    hide OutInv;
    hide SlotInv;
    hide PlaceInv;
    hide Held;
    hide Nulling;
    hide Sum;
    assert LifeInv(s, b);
    BlockTheorems.HeldIdle(b);
    BlockTheorems.IdleSum(s, Held(b));
    BlockTheorems.IdleSum(s, Nulling(b));
  }

  lemma GrowFull(s: State, op: Op)
    requires Good(s) && s.prod == PTest(op) && DoTest(s, op).prod.PGrow?
    ensures Upcoming(op) == s.hi == s.lo + Cur(s).capacity && s.lo in s.live
  {
    hide Shape;
    hide Shared;
    hide NewsInv;
    hide Working;
    TestFacts(s, op);
    var h := Cur(s);
    FreeKey(s);
    if s.hi == s.lo + h.capacity {
      PosPeriod(h, s.lo);
      assert s.entries[EntryOf(h, s.lo)].value == LiveValue(s.live, s.lo);
    }
  }

  lemma FreeKey(s: State)
    requires Shape(s) && RingInv(s)
    ensures s.hi < s.lo + Cur(s).capacity ==> s.entries[EntryOf(Cur(s), s.hi)].key == Invalid
  {
    hide Shape;
  }

  /** The index doubles only when the producer's live blocks fill it, so it never gets too large for its words. */
  lemma GrowBound(s: State, op: Op, log: nat)
    requires Good(s) && s.prod == PTest(op) && s.cons == [CIdle] && DoTest(s, op).prod.PGrow?
    requires Cur(s).capacity == Pow2(log) && (Upcoming(op) + 1) * BLOCK_SIZE - s.head < HALF
    ensures log < 58
  {
    hide Shape;
    hide Own;
    hide Shared;
    hide Sum;
    GrowFull(s, op);
    LiveHead(s, s.lo);
    if log >= 58 {
      Pow2AtLeast(log);
    }
  }

  /** The i-th ring position after the tail: the oldest entry is the first. */
  ghost function Following(tail: nat, i: nat, capacity: nat): (p: nat)
    requires 0 < capacity
    ensures p < capacity
  {
    (tail + 1 + i) % capacity
  }

  lemma GrownFacts(h: Header, entries: nat, b: nat)
    requires HeaderShape(h, entries)
    ensures var g := Grown(h, entries, b);
            && g.capacity == |g.index| == 2 * h.capacity && g.tail == h.capacity - 1
            && (forall i :: 0 <= i < h.capacity ==> g.index[i] == h.index[Following(h.tail, i, h.capacity)])
            && (forall i :: h.capacity <= i < 2 * h.capacity ==> g.index[i] == entries + i - h.capacity)
  {
  }

  lemma DoGrowFields(s: State, op: Op, junk: seq<Value>)
    requires Shape(s) && |junk| == Cur(s).capacity
    ensures var s' := DoGrow(s, op, junk);
            && s'.headers != [] && Cur(s') == Grown(Cur(s), |s.entries|, Upcoming(op))
            && s'.entries == s.entries + seq(|junk|, i requires 0 <= i < |junk| => Entry(Invalid, junk[i]))
            && SameData(s, s') && s'.prod == PStoreKey(op)
  {
    hide Grown;
    hide HeaderShape;
  }

  lemma GrowWindow(s: State, op: Op, junk: seq<Value>)
    requires Good(s) && s.prod == PGrow(op) && |junk| == Cur(s).capacity
    ensures var s' := DoGrow(s, op, junk);
            && s'.headers != [] && s'.lo == s.lo && s'.hi == s.hi == Inserted(s') == Upcoming(op)
            && Cur(s').capacity == 2 * Cur(s).capacity && s.hi <= s.lo + Cur(s).capacity && Cur(s).capacity > 0
  {
    hide Shape;
    hide Shared;
    hide NewsInv;
    hide Working;
  }

  /** After doubling, the entry after the tail is one of the new ones. */
  lemma GrownNextFree(s: State, op: Op, junk: seq<Value>)
    requires Good(s) && s.prod == PGrow(op) && |junk| == Cur(s).capacity && Good(DoGrow(s, op, junk))
    ensures var s' := DoGrow(s, op, junk); s'.entries[Cur(s').index[After(Cur(s'))]].key == Invalid
  {
    hide Shape;
    hide Shared;
    hide Grown;
    hide DoGrow;
    hide NewsInv;
    hide Working;
    var s' := DoGrow(s, op, junk);
    DoGrowFields(s, op, junk);
    GrowWindow(s, op, junk);
    assert s'.entries[EntryOf(Cur(s'), s.hi)].key == Invalid;
  }

  lemma WriteTargetLive(s: State, op: Op, j: nat)
    requires Good(s) && s.prod == PWrite(op, j)
    ensures var b := (|s.published| + j) / BLOCK_SIZE; b in s.live && Target(op, b) == Ptr(s.live[b])
  {
    hide Own;
    hide Shared;
    hide Shape;
    BlockProducerSteps.WriteTarget(s, op, j) by { Lives(s); }
  }

  lemma WriteRange(s: State, op: Op, j: nat)
    requires Good(s) && s.prod == PWrite(op, j)
    ensures op.first == Ceil(|s.published|) && j < |op.xs|
    ensures op.first - 1 <= (|s.published| + j) / BLOCK_SIZE <= Needed(s, op) == op.first + |op.news| - 1
  {
    hide Shared;
    hide Shape;
    hide RingInv;
    hide NewsInv;
  }

  lemma StartFacts(s: State)
    requires Good(s) && s.prod.PCheck? && s.prod.op.news == []
    ensures forall b :: b in s.live ==> b < Ceil(|s.published|)
  {
    hide Shape;
    hide Shared;
    hide RingInv;
  }

  /** Blocks below number n that were in the index still are. */
  ghost predicate KeptBelow(live: map<nat, nat>, live': map<nat, nat>, n: nat) {
    forall b: nat :: b in live && b < n ==> b in live' && live'[b] == live[b]
  }

  /** An enqueue under way in s began in s0; elements published before are where they were. */
  ghost predicate Since0(s: State, s0: State, op: Op) {
    && s.published == s0.published && s.head == s0.head <= |s.published| && op.first == Ceil(|s.published|)
    && (forall b :: b in s0.live ==> b < op.first && b in s.live && s.live[b] == s0.live[b])
  }

  lemma Since0Same(s: State, s0: State, op: Op)
    requires Since0(s, s0, op)
    ensures s.published == s0.published && s.head == s0.head
  {
  }

  lemma Since0Kept(s: State, s0: State, op: Op)
    requires Since0(s, s0, op)
    ensures forall s': State :: s'.published == s.published && s'.head == s.head && s'.live == s.live ==> Since0(s', s0, op)
  {
  }

  lemma LiveEntry(s: State, b: nat)
    requires Good(s) && s.prod.PIdle? && b in s.live
    ensures s.headers != [] && HeaderShape(Cur(s), |s.entries|)
    ensures EntryOf(Cur(s), b) < |s.entries| && s.entries[EntryOf(Cur(s), b)] == Entry(Base(b), Ptr(s.live[b]))
  {
    hide Shared;
    hide Shape;
    hide PhaseInv;
    hide NewsInv;
  }

  /** Between calls, an element not yet dequeued is in its slot and its block in the index. */
  lemma QueuedSlot(s: State, x: nat)
    requires Good(s) && s.cons == [CIdle] && s.prod.PIdle? && s.head <= x < |s.published|
    ensures s.headers != [] && HeaderShape(Cur(s), |s.entries|)
    ensures var b := x / BLOCK_SIZE; var e := EntryOf(Cur(s), b);
            && e < |s.entries| && b in s.live && s.live[b] in s.blocks && s.entries[e] == Entry(Base(b), Ptr(s.live[b]))
            && |s.blocks[s.live[b]].slots| == BLOCK_SIZE
            && s.blocks[s.live[b]].slots[x % BLOCK_SIZE] == Full(s.published[x])
  {
    hide Own;
    hide ConsumerInv;
    hide PlaceInv;
    hide Held;
    hide Nulling;
    hide Has;
    hide Sum;
    hide HeaderShape;
    HeaderFacts(s);
    assert OutInv(s, x);
    BlockTheorems.HasIdle(x);
    BlockTheorems.IdleSum(s, Has(x));
    assert LifeInv(s, x / BLOCK_SIZE);
    assert SlotInv(s, x);
    LiveEntry(s, x / BLOCK_SIZE);
  }

  /** One element that begins a block. */
  lemma OneBlock(s: State, op: Op)
    requires |op.xs| == 1 && op.news == [] && op.first == Ceil(|s.published|) && |s.published| % BLOCK_SIZE == 0
    ensures Upcoming(op) * BLOCK_SIZE == |s.published| && Upcoming(op) == Needed(s, op) == |s.published| / BLOCK_SIZE
    ensures Ceil(|s.published| + 1) == Upcoming(op) + 1
  {
  }
}
