/** What holds in every run of the block queue. */
module BlockTheorems {
  import opened Sums
  import opened BlockQueue
  import opened BlockRing
  import opened BlockInv
  import opened BlockProducer
  import opened BlockShared
  import opened BlockProducerSteps
  import opened BlockConsumer

  // -------------------------------------------------------------------
  // Every reachable state satisfies the invariant
  // -------------------------------------------------------------------

  lemma InitOwn(s: State)
    requires Init(s)
    ensures Own(s)
  {
    Integers.Small(0, Cur(s).capacity);
    Integers.Period(0, Cur(s).capacity);
  }

  lemma InitSums(s: State, f: Consumer -> nat)
    requires Init(s) && f(CIdle) == 0
    ensures Sum(s.cons, f) == 0
  {
    SumZero(s.cons, f);
  }

  lemma InitShared(s: State)
    requires Init(s)
    ensures Shared(s)
  {
    hide Sum;
    forall b: nat ensures LifeInv(s, b) { }
    forall x: nat ensures OutInv(s, x) { InitSums(s, Has(x)); }
    forall k: nat ensures PlaceInv(s, k) { InitSums(s, Freeing(k)); }
  }

  /** The whole invariant is inductive, whoever moves. */
  lemma StepInv(s: State, s': State)
    requires Own(s) && Shared(s) && Step(s, s')
    ensures Own(s') && Shared(s')
  {
    hide Own;
    hide Shared;
    hide Shape;
    hide NextConsumer;
    hide NextProducer;
    hide ConsumerEnabled;
    hide ProducerEnabled;
    var a: Action :| Enabled(s, a) && s' == Next(s, a);
    if a.Consume? {
      ConsumerStep(s, a.t, a.n);
    } else {
      ProducerOwn(s, a);
      ProducerShared(s, a);
    }
  }

  lemma {:induction false} RunInv(run: seq<State>, i: nat)
    requires IsRun(run) && i < |run|
    ensures Own(run[i]) && Shared(run[i])
  {
    hide Own;
    hide Shared;
    hide Step;
    if i == 0 {
      InitOwn(run[0]);
      InitShared(run[0]);
    } else {
      RunInv(run, i - 1);
      assert Step(run[i - 1], run[i - 1 + 1]);
      StepInv(run[i - 1], run[i]);
    }
  }

  // -------------------------------------------------------------------
  // The lookup finds the right block, and nobody follows a bad pointer
  // -------------------------------------------------------------------

  /**
   A consumer that has read header, tail and tail key in separate steps, while the producer inserts,
   rewinds and doubles the index, arrives at the entry whose key is the number of its block and whose
   value is the block itself.
  */
  lemma LookupFindsBlock(run: seq<State>, i: nat, t: nat)
    requires IsRun(run) && i < |run| && t < |run[i].cons| && run[i].cons[t].CEntry?
    ensures var s := run[i]; var c := s.cons[t]; var b := c.i / BLOCK_SIZE;
            && Shape(s) && b in s.live && s.live[b] in s.blocks
            && s.entries[s.headers[c.h].index[c.idx]] == Entry(Base(b), Ptr(s.live[b]))
  {
    hide *;
    RunInv(run, i);
    SharedConsumer(run[i], t);
    EntryFound(run[i], t);
  }

  /** A consumer at work can always move: every pointer it follows is valid, whatever the others have done. */
  lemma ConsumerNeverStuck(run: seq<State>, i: nat, t: nat, n: nat)
    requires IsRun(run) && i < |run| && t < |run[i].cons| && !run[i].cons[t].CIdle?
    ensures Enabled(run[i], Consume(t, n))
  {
    hide Own;
    hide Shared;
    hide HeaderShape;
    hide ConsumerInv;
    RunInv(run, i);
    var s := run[i];
    SharedConsumer(s, t);
    if s.cons[t].CKey? {
      KeyFound(s, t);
    } else if s.cons[t].CEntry? {
      EntryFound(s, t);
      EntryClaim(s, s.cons[t]);
    } else if s.cons[t].CMove? {
      ElementFound(s, t);
    } else if s.cons[t].CCount? {
      CountFits(s, t);
    }
  }

  lemma EntryClaim(s: State, c: Consumer)
    requires Shape(s) && ConsumerShape(c, s.headers, |s.entries|) && c.CEntry? && ConsumerInv(s, c)
    ensures c.i < c.j
  {
  }

  /** So can the producer: whatever memory allocation yields, and even when it fails. */
  lemma ProducerNeverStuck(run: seq<State>, i: nat, a: Action)
    requires IsRun(run) && i < |run| && !run[i].prod.PIdle?
    requires run[i].prod.PGrow? ==> a.Fail? || (a.AllocIndex? && run[i].headers != [] && |a.junk| == Cur(run[i]).capacity)
    requires run[i].prod.PRequisition? ==> a.Fail? || (a.Alloc? && a.k !in run[i].blocks && |a.garbage.slots| == BLOCK_SIZE)
    requires !run[i].prod.PGrow? && !run[i].prod.PRequisition? ==> a.Produce?
    ensures Enabled(run[i], a)
  {
    hide Own;
    hide Shared;
    hide Shape;
    RunInv(run, i);
    var s := run[i];
    SharedShape(s);
    match s.prod
    case PUndoValue(op, j) => UndoReady(s, op, j);
    case PUndoTail(op, j) => PhaseReady(s);
    case PGiveBack(op, j) => PhaseReady(s);
    case PWrite(op, j) => PhaseReady(s); WriteReady(s, op, j);
    case _ =>
  }

  lemma PhaseReady(s: State)
    requires Own(s)
    ensures PhaseInv(s)
  {
  }

  lemma UndoReady(s: State, op: Op, j: nat)
    requires Own(s) && s.prod == PUndoValue(op, j)
    ensures j < |op.news| && s.entries[Cur(s).index[Cur(s).tail]].key == Base(Inserted(s) - 1)
  {
    hide RingOk;
    assert IsNew(s.prod, op.first + j);
    UndoWindow(s, op, j);
    RingLookup(s, op.first + j);
  }

  lemma UndoWindow(s: State, op: Op, j: nat)
    requires Own(s) && s.prod == PUndoValue(op, j) && IsNew(s.prod, op.first + j)
    ensures s.lo <= Inserted(s) - 1
  {
    hide Shape;
    hide RingInv;
  }

  lemma WriteReady(s: State, op: Op, j: nat)
    requires Own(s) && Shared(s) && s.prod == PWrite(op, j)
    ensures var to := Target(op, (|s.published| + j) / BLOCK_SIZE); to.Ptr? && to.k in s.blocks
  {
    hide Own;
    WriteTarget(s, op, j);
  }

  // -------------------------------------------------------------------
  // Every element is delivered once, and unchanged
  // -------------------------------------------------------------------

  /**
   What has been moved out at an index is the element published there. An index below the head has been
   moved out, or one consumer is on its way to it.
  */
  lemma Delivered(run: seq<State>, i: nat, x: nat)
    requires IsRun(run) && i < |run|
    ensures var s := run[i];
            && (x in s.out ==> x < s.head && x < |s.published| && s.out[x] == s.published[x])
            && Sum(s.cons, Has(x)) == (if x < s.head && x !in s.out then 1 else 0)
  {
    hide Own;
    hide Has;
    RunInv(run, i);
    assert OutInv(run[i], x);
  }

  /** When no dequeue is under way, exactly the indices below the head have been moved out. */
  lemma IdleDelivered(run: seq<State>, i: nat, x: nat)
    requires IsRun(run) && i < |run| && (forall t :: 0 <= t < |run[i].cons| ==> run[i].cons[t].CIdle?)
    ensures x in run[i].out <==> x < run[i].head
  {
    hide *;
    hide IsRun;
    Delivered(run, i, x);
    IdleSum(run[i], Has(x)) by { HasIdle(x); }
  }

  lemma HasIdle(x: nat)
    ensures Has(x)(CIdle) == 0
  {
  }

  lemma IdleSum(s: State, f: Consumer -> nat)
    requires (forall t :: 0 <= t < |s.cons| ==> s.cons[t].CIdle?) && f(CIdle) == 0
    ensures Sum(s.cons, f) == 0
  {
    SumZero(s.cons, f);
  }

  /** A consumer about to move an element out finds it in the slot, and nobody has taken it before. */
  lemma MovesOwnElement(run: seq<State>, i: nat, t: nat)
    requires IsRun(run) && i < |run| && t < |run[i].cons| && run[i].cons[t].CMove?
    ensures var s := run[i]; var c := s.cons[t];
            && c.i < |s.published| && c.i !in s.out && c.k in s.blocks && |s.blocks[c.k].slots| == BLOCK_SIZE
            && s.blocks[c.k].slots[c.i % BLOCK_SIZE] == Full(s.published[c.i])
  {
    hide Own;
    hide Shared;
    RunInv(run, i);
    SharedShape(run[i]);
    ElementFound(run[i], t);
  }

  // -------------------------------------------------------------------
  // Blocks
  // -------------------------------------------------------------------

  /** The block the producer writes to is live, and no consumer is releasing it. */
  lemma WritesToLiveBlock(run: seq<State>, i: nat, op: Op, j: nat)
    requires IsRun(run) && i < |run| && run[i].prod == PWrite(op, j)
    ensures var s := run[i]; var b := (|s.published| + j) / BLOCK_SIZE;
            && b in s.live && Target(op, b) == Ptr(s.live[b]) && s.live[b] in s.blocks
            && Sum(s.cons, Nulling(b)) == 0 && Sum(s.cons, Freeing(s.live[b])) == 0
  {
    hide Own;
    hide ConsumerInv;
    RunInv(run, i);
    var s := run[i];
    WriteTarget(s, op, j);
    var b := (|s.published| + j) / BLOCK_SIZE;
    assert LifeInv(s, b) && PlaceInv(s, s.live[b]);
    assert PhaseInv(s) by { PhaseReady(s); }
    NotNulling(s, b);
  }

  /** A block with an index not yet published is not full, let alone emptied. */
  lemma NotNulling(s: State, b: nat)
    requires LifeInv(s, b) && b in s.live && s.head < b * BLOCK_SIZE + BLOCK_SIZE
    ensures Sum(s.cons, Nulling(b)) == 0
  {
    hide Held;
    hide Nulling;
    hide Sum;
  }

  /** A consumer takes a block out of the index only when all its elements have gone, and it alone does. */
  lemma ReleasesEmptyBlock(run: seq<State>, i: nat, t: nat, x: nat)
    requires IsRun(run) && i < |run| && t < |run[i].cons| && run[i].cons[t].CNull?
    requires run[i].cons[t].i > 0 && x / BLOCK_SIZE == (run[i].cons[t].i - 1) / BLOCK_SIZE
    ensures x in run[i].out
    ensures Sum(run[i].cons, Nulling(x / BLOCK_SIZE)) == 1 && Sum(run[i].cons, Held(x / BLOCK_SIZE)) == 0
  {
    hide Own;
    hide ConsumerInv;
    hide Held;
    hide Nulling;
    hide OutInv;
    RunInv(run, i);
    NullFacts(run[i], t);
    assert OutInv(run[i], x);
    AllOut(run[i], x / BLOCK_SIZE, x);
  }

  /** A block about to go back to the pool is in nobody else's hands and out of the index. */
  lemma FreesAlone(run: seq<State>, i: nat, t: nat)
    requires IsRun(run) && i < |run| && t < |run[i].cons| && run[i].cons[t].CFree?
    ensures var s := run[i]; var k := s.cons[t].k;
            && k in s.blocks && !IsLive(s.live, k) && !InHand(s.prod, k) && Sum(s.cons, Freeing(k)) == 1
  {
    hide *;
    RunInv(run, i);
    FreeFacts(run[i], t);
  }

  /** A block of this producer is in the index, in the producer's hands or in one consumer's; any other is in none of them. */
  lemma OnePlace(run: seq<State>, i: nat, k: nat)
    requires IsRun(run) && i < |run|
    ensures var s := run[i];
            (if IsLive(s.live, k) then 1 else 0) + (if InHand(s.prod, k) then 1 else 0) + Sum(s.cons, Freeing(k))
              == (if k in s.blocks then 1 else 0)
  {
    hide Own;
    hide IsLive;
    hide InHand;
    hide Sum;
    RunInv(run, i);
    assert PlaceInv(run[i], k);
  }

  /**
   When nothing is under way, the producer keeps exactly the blocks that hold, or will hold, an index not
   yet dequeued: everything else has gone back.
  */
  lemma IdleBlocks(run: seq<State>, i: nat, b: nat)
    requires IsRun(run) && i < |run| && run[i].prod.PIdle?
    requires forall t :: 0 <= t < |run[i].cons| ==> run[i].cons[t].CIdle?
    ensures b in run[i].live <==> b * BLOCK_SIZE < |run[i].published| && run[i].head < b * BLOCK_SIZE + BLOCK_SIZE
    ensures forall k: nat :: k in run[i].blocks <==> IsLive(run[i].live, k)
  {
    hide Has;
    hide Held;
    hide Nulling;
    hide Freeing;
    hide Own;
    hide Shared;
    hide IsLive;
    RunInv(run, i);
    var s := run[i];
    IdleLive(s, b);
    forall k: nat ensures k in s.blocks <==> IsLive(s.live, k) {
      OnePlace(run, i, k);
      FreeingIdle(k);
      IdleSum(s, Freeing(k));
    }
  }

  lemma FreeingIdle(k: nat)
    ensures Freeing(k)(CIdle) == 0
  {
  }

  lemma HeldIdle(b: nat)
    ensures Held(b)(CIdle) == 0 && Nulling(b)(CIdle) == 0
  {
  }

  lemma IdleLive(s: State, b: nat)
    requires Own(s) && Shared(s) && s.prod.PIdle? && (forall t :: 0 <= t < |s.cons| ==> s.cons[t].CIdle?)
    ensures b in s.live <==> b * BLOCK_SIZE < |s.published| && s.head < b * BLOCK_SIZE + BLOCK_SIZE
  {
    hide RingInv;
    hide ConsumerInv;
    hide Shape;
    hide Has;
    hide Held;
    hide Nulling;
    hide Sum;
    hide SlotInv;
    hide PlaceInv;
    assert LifeInv(s, b);
    HeldIdle(b);
    IdleSum(s, Held(b));
    IdleSum(s, Nulling(b));
    if b * BLOCK_SIZE < |s.published| && s.head < b * BLOCK_SIZE + BLOCK_SIZE {
      var x := if s.head < b * BLOCK_SIZE then b * BLOCK_SIZE else s.head;
      if x < |s.published| {
        assert OutInv(s, x);
        HasIdle(x);
        IdleSum(s, Has(x));
      } else {
        assert |s.published| / BLOCK_SIZE == b;
      }
    }
  }

  /** A block number that has left the index never comes back: each block of elements is released once. */
  lemma {:induction false} GoneForGood(run: seq<State>, i: nat, j: nat, b: nat)
    requires IsRun(run) && i <= j < |run| && b < Ceil(|run[i].published|) && b !in run[i].live
    ensures b < Ceil(|run[j].published|) && b !in run[j].live
    decreases j
  {
    hide Own;
    hide Shared;
    hide Step;
    if i < j {
      GoneForGood(run, i, j - 1, b);
      RunInv(run, j - 1);
      assert Step(run[j - 1], run[j - 1 + 1]);
      GoneStep(run[j - 1], run[j], b);
    }
  }

  lemma GoneStep(s: State, s': State, b: nat)
    requires Own(s) && Step(s, s') && b < Ceil(|s.published|) && b !in s.live
    ensures b < Ceil(|s'.published|) && b !in s'.live
  {
    hide Shape;
    hide Own;
    hide NextConsumer;
    hide NextProducer;
    hide ConsumerEnabled;
    hide ProducerEnabled;
    var a: Action :| Enabled(s, a) && s' == Next(s, a);
    if a.Consume? {
      ConsumerFields(s, a.t, a.n);
    } else {
      PhaseReady(s);
      ProducerLive(s, a);
    }
  }

  /** What a consumer leaves alone. */
  ghost predicate ConsumerLeaves(s: State, s': State) {
    && s'.published == s.published && s'.prod == s.prod && s'.tailBlock == s.tailBlock
    && (forall b: nat :: b in s'.live ==> b in s.live && s'.live[b] == s.live[b])
    && (forall k: nat :: k in s'.blocks ==> k in s.blocks)
  }

  lemma SeekerFields(s: State, t: nat, n: nat)
    requires Shape(s) && t < |s.cons| && ConsumerEnabled(s, t, n)
    requires var c := s.cons[t]; c.CIdle? || c.CHeader? || c.CTail? || c.CKey? || c.CEntry?
    ensures ConsumerLeaves(s, NextConsumer(s, t, n))
  {
    hide LookupAt;
    hide Inserted;
  }

  lemma WorkerFields(s: State, t: nat, n: nat)
    requires Shape(s) && t < |s.cons| && ConsumerEnabled(s, t, n)
    requires var c := s.cons[t]; c.CMove? || c.CCount? || c.CNull? || c.CFree?
    ensures ConsumerLeaves(s, NextConsumer(s, t, n))
  {
    hide HeaderShape;
    hide Onward;
  }

  lemma ConsumerFields(s: State, t: nat, n: nat)
    requires Shape(s) && t < |s.cons| && ConsumerEnabled(s, t, n)
    ensures ConsumerLeaves(s, NextConsumer(s, t, n))
  {
    hide *;
    var c := s.cons[t];
    if c.CIdle? || c.CHeader? || c.CTail? || c.CKey? || c.CEntry? {
      SeekerFields(s, t, n);
    } else {
      WorkerFields(s, t, n);
    }
  }

  lemma ProducerLive(s: State, a: Action)
    requires Own(s) && Shape(s) && ProducerEnabled(s, a)
    ensures var s' := NextProducer(s, a);
            && |s.published| <= |s'.published|
            && forall b: nat :: b in s'.live && b < Ceil(|s.published|) ==> b in s.live
  {
    hide Own;
    hide Taken;
    hide NextProducer;
    if s.prod.PIdle? {
      StartSince(s, a);
    } else {
      SinceSelf(s);
      ShapeOf(s);
      ProducerSince(s.(tailBlock := s.prod.op.start), s, a);
    }
  }

  // -------------------------------------------------------------------
  // An enqueue takes effect as a whole or not at all
  // -------------------------------------------------------------------

  /** The blocks an enqueue under way has taken from the pool and not given back. */
  ghost predicate Taken(p: Producer, k: nat) {
    match p
    case PIdle => false
    case PStoreValue(op, fetched) => k in op.news || k == fetched
    case PGiveBack(op, j) => exists x :: j <= x < |op.news| && op.news[x] == k
    case _ => k in p.op.news
  }

  /** The enqueue under way in s began in state s0, and only it has added anything since. */
  ghost predicate Since(s0: State, s: State) {
    && !s.prod.PIdle? && s.prod.op.start == s0.tailBlock
    && Kept(s0, s)
    && (forall k: nat :: k in s.blocks ==> k in s0.blocks || Taken(s.prod, k))
  }

  /** No element has been published, and the blocks of published elements in the index were there in s0. */
  ghost predicate Kept(s0: State, s: State) {
    && s.published == s0.published
    && (forall b: nat :: b in s.live && b < Ceil(|s0.published|) ==> b in s0.live && s.live[b] == s0.live[b])
  }

  /** Nothing is left of the enqueue that began in s0. */
  ghost predicate Unchanged(s0: State, s: State) {
    && s.tailBlock == s0.tailBlock
    && Kept(s0, s)
    && (forall k: nat :: k in s.blocks ==> k in s0.blocks)
  }

  ghost predicate Appended(s0: State, xs: seq<Elem>, s: State) {
    && s.published == s0.published + xs
    && (forall b: nat :: b in s.live && b < Ceil(|s0.published|) ==> b in s0.live)
  }

  /** How an enqueue of xs that began in s0 may stand in s. */
  ghost predicate Progress(s0: State, xs: seq<Elem>, s: State) {
    if s.prod.PIdle? then Unchanged(s0, s) || Appended(s0, xs, s)
    else Since(s0, s) && s.prod.op.xs == xs
  }

  lemma SinceSelf(s: State)
    requires !s.prod.PIdle?
    ensures Since(s.(tailBlock := s.prod.op.start), s)
  {
  }

  lemma StartSince(s: State, a: Action)
    requires Shape(s) && s.prod.PIdle? && ProducerEnabled(s, a)
    ensures Since(s, NextProducer(s, a)) && NextProducer(s, a).prod.op.xs == a.xs
    ensures NextProducer(s, a).published == s.published && NextProducer(s, a).live == s.live
  {
    hide Shape;
    hide Taken;
  }

  /** A step that changes neither blocks nor elements. */
  lemma SinceQuiet(s0: State, s: State, s': State)
    requires Since(s0, s) && s'.blocks == s.blocks && s'.published == s.published && s'.live == s.live
    requires if s'.prod.PIdle? then s'.tailBlock == s.prod.op.start && (forall k: nat :: !Taken(s.prod, k))
             else s'.prod.op == s.prod.op && (forall k: nat :: Taken(s.prod, k) <==> Taken(s'.prod, k))
    ensures Progress(s0, s.prod.op.xs, s')
  {
    hide Taken;
  }

  lemma UndoTaken(s: State, op: Op, j: nat)
    ensures var s' := Undo(s, op, j);
            && s'.blocks == s.blocks && s'.published == s.published && s'.live == s.live
            && (if s'.prod.PIdle? then s'.tailBlock == op.start && op.news == []
                else s'.prod.op == op && forall k: nat :: Taken(s'.prod, k) <==> k in op.news)
  {
  }

  lemma QuietSince(s0: State, s: State, a: Action)
    requires Shape(s) && Since(s0, s) && ProducerEnabled(s, a)
    requires s.prod.PTest? || s.prod.PStoreKey? || s.prod.PStoreTail? || s.prod.PRewind?
    ensures Progress(s0, s.prod.op.xs, NextProducer(s, a))
  {
    hide Since;
    hide Progress;
    hide HeaderShape;
    SinceQuiet(s0, s, NextProducer(s, a));
  }

  lemma CheckSince(s0: State, s: State, op: Op, a: Action)
    requires Shape(s) && Since(s0, s) && s.prod == PCheck(op) && ProducerEnabled(s, a)
    ensures Progress(s0, op.xs, NextProducer(s, a))
  {
    hide Shape;
    hide Since;
    hide Progress;
    hide Undo;
    UndoTaken(s, op, 0);
    SinceQuiet(s0, s, NextProducer(s, a));
  }

  lemma GrowSince(s0: State, s: State, op: Op, a: Action)
    requires Shape(s) && Since(s0, s) && s.prod == PGrow(op) && ProducerEnabled(s, a)
    ensures Progress(s0, op.xs, NextProducer(s, a))
  {
    hide Shape;
    hide Since;
    hide Progress;
    hide Undo;
    hide Grown;
    UndoTaken(s, op, 0);
    SinceQuiet(s0, s, NextProducer(s, a));
  }

  lemma ProducerSince(s0: State, s: State, a: Action)
    requires Own(s) && Since(s0, s) && !s.prod.PIdle? && Shape(s) && ProducerEnabled(s, a)
    ensures Progress(s0, s.prod.op.xs, NextProducer(s, a))
  {
    hide Own;
    hide Shape;
    hide Since;
    hide Progress;
    hide Undo;
    hide DoRequisition;
    hide DoStoreValue;
    hide DoClear;
    hide DoUndoValue;
    hide DoUndoTail;
    hide DoGiveBack;
    hide DoWrite;
    hide DoPublish;
    match s.prod
    case PCheck(op) => CheckSince(s0, s, op, a);
    case PGrow(op) => GrowSince(s0, s, op, a);
    case PRequisition(op) =>
      if a.Fail? { SinceQuiet(s0, s, NextProducer(s, a)); } else { RequisitionSince(s0, s, op, a.k, a.garbage); }
    case PStoreValue(op, k) => StoreValueSince(s0, s, op, k);
    case PClear(op) => ClearSince(s0, s, op);
    case PUndoValue(op, j) => UndoValueSince(s0, s, op, j);
    case PUndoTail(op, j) => UndoTailSince(s0, s, op, j);
    case PGiveBack(op, j) => GiveBackSince(s0, s, op, j);
    case PWrite(op, j) => WriteSince(s0, s, op, j);
    case PPublish(op) => PublishSince(s0, s, op);
    case _ => QuietSince(s0, s, a);
  }

  lemma RequisitionSince(s0: State, s: State, op: Op, k: nat, garbage: Block)
    requires Since(s0, s) && s.prod == PRequisition(op)
    ensures Progress(s0, op.xs, DoRequisition(s, op, k, garbage))
  {
  }

  lemma StoreValueSince(s0: State, s: State, op: Op, k: nat)
    requires Own(s) && Since(s0, s) && s.prod == PStoreValue(op, k)
    ensures Progress(s0, op.xs, DoStoreValue(s, op, k))
  {
    hide RingInv;
    hide NewsInv;
    hide Shape;
    ShapeOf(s);
  }

  lemma ClearSince(s0: State, s: State, op: Op)
    requires Shape(s) && Since(s0, s) && s.prod == PClear(op)
    ensures Progress(s0, op.xs, DoClear(s, op))
  {
    hide Since;
    hide Progress;
    hide Undo;
    var e := Cur(s).index[After(Cur(s))];
    UndoTaken(s.(entries := s.entries[e := s.entries[e].(value := Null)]), op, 0);
    SinceQuiet(s0, s, DoClear(s, op));
  }

  lemma UndoValueSince(s0: State, s: State, op: Op, j: nat)
    requires Shape(s) && Since(s0, s) && s.prod == PUndoValue(op, j)
    ensures Progress(s0, op.xs, DoUndoValue(s, op, j))
  {
    hide Shape;
    hide LookupNow;
  }

  lemma UndoTailSince(s0: State, s: State, op: Op, j: nat)
    requires Own(s) && Since(s0, s) && s.prod == PUndoTail(op, j)
    ensures Shape(s) && Progress(s0, op.xs, DoUndoTail(s, op, j))
  {
    hide Since;
    hide Progress;
    hide Undo;
    hide RingInv;
    hide NewsInv;
    UndoTaken(SetTail(s, Before(Cur(s))), op, j + 1);
    SinceQuiet(s0, s, DoUndoTail(s, op, j));
  }

  lemma GiveBackSince(s0: State, s: State, op: Op, j: nat)
    requires Since(s0, s) && s.prod == PGiveBack(op, j) && j < |op.news|
    ensures Progress(s0, op.xs, DoGiveBack(s, op, j))
  {
  }

  lemma WriteSince(s0: State, s: State, op: Op, j: nat)
    requires Shape(s) && Since(s0, s) && s.prod == PWrite(op, j) && ProducerEnabled(s, Produce)
    ensures Progress(s0, op.xs, DoWrite(s, op, j))
  {
    hide Shape;
  }

  lemma PublishSince(s0: State, s: State, op: Op)
    requires Since(s0, s) && s.prod == PPublish(op)
    ensures Progress(s0, op.xs, DoPublish(s, op))
  {
    hide Taken;
  }

  lemma SinceStep(s0: State, s: State, s': State)
    requires Own(s) && Since(s0, s) && Step(s, s')
    ensures Progress(s0, s.prod.op.xs, s')
  {
    hide Shape;
    hide Own;
    hide NextConsumer;
    hide NextProducer;
    hide ConsumerEnabled;
    hide ProducerEnabled;
    hide Taken;
    var a: Action :| Enabled(s, a) && s' == Next(s, a);
    if a.Consume? {
      ConsumerFields(s, a.t, a.n);
    } else {
      ProducerSince(s0, s, a);
    }
  }

  lemma StartStep(s: State, s': State)
    requires Step(s, s') && s.prod.PIdle? && !s'.prod.PIdle?
    ensures Since(s, s')
  {
    hide Shape;
    hide NextConsumer;
    hide NextProducer;
    hide ConsumerEnabled;
    hide ProducerEnabled;
    hide Since;
    var a: Action :| Enabled(s, a) && s' == Next(s, a);
    if a.Consume? {
      ConsumerFields(s, a.t, a.n);
    } else {
      StartSince(s, a);
    }
  }

  lemma {:induction false} EnqueueUnderWay(run: seq<State>, i: nat, j: nat)
    requires IsRun(run) && i < j < |run| && run[i].prod.PIdle?
    requires forall m :: i < m < j ==> !run[m].prod.PIdle?
    requires !run[i + 1].prod.PIdle?
    ensures Progress(run[i], run[i + 1].prod.op.xs, run[j])
    decreases j
  {
    hide Step;
    hide Since;
    hide Unchanged;
    if j == i + 1 {
      assert Step(run[i], run[i + 1]);
      StartStep(run[i], run[j]);
    } else {
      EnqueueUnderWay(run, i, j - 1);
      RunOwn(run, j - 1);
      assert Step(run[j - 1], run[j - 1 + 1]);
      SinceStep(run[i], run[j - 1], run[j]);
    }
  }

  lemma RunOwn(run: seq<State>, i: nat)
    requires IsRun(run) && i < |run|
    ensures Own(run[i])
  {
    hide *;
    RunInv(run, i);
  }

  /**
   An enqueue that begins in state i and ends in state j, with any interleaving of consumers, and running
   out of room or memory at any point, has appended all its elements or left nothing behind: the same
   elements published, the same tail block, no block in the index that was not there, the tail of the index
   at the last block again, and every block taken from the pool given back.
  */
  lemma EnqueueAllOrNothing(run: seq<State>, i: nat, j: nat)
    requires IsRun(run) && i + 1 < j < |run| && run[i].prod.PIdle? && run[j].prod.PIdle?
    requires forall m :: i < m < j ==> !run[m].prod.PIdle?
    ensures || run[j].published == run[i].published + run[i + 1].prod.op.xs
            || (&& run[j].published == run[i].published && run[j].tailBlock == run[i].tailBlock
                && (forall b: nat :: b in run[j].live ==> b in run[i].live && run[j].live[b] == run[i].live[b])
                && (forall k: nat :: k in run[j].blocks ==> k in run[i].blocks))
    ensures && Shape(run[j]) && After(Cur(run[j])) == Pos(Cur(run[j]), Ceil(|run[j].published|))
  {
    hide IsRun;
    hide Shape;
    hide Since;
    EnqueueUnderWay(run, i, j);
    RunOwn(run, j);
    IdleFacts(run[j]);
  }

  lemma IdleFacts(s: State)
    requires Own(s) && s.prod.PIdle?
    ensures Shape(s) && After(Cur(s)) == Pos(Cur(s), Ceil(|s.published|))
    ensures forall b: nat :: b in s.live ==> b < Ceil(|s.published|)
  {
  }
}
