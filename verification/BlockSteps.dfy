/** The invariant of the block queue under each step of the producer and of a consumer, by the name of the step. */
module BlockSteps {
  import opened BlockQueue
  import opened BlockInv
  import opened BlockProducer
  import opened BlockShared
  import BlockProducerSteps
  import BlockConsumer
  import BlockTheorems
  import opened BlockRing

  ghost predicate Good(s: State) { Shape(s) && Own(s) && Shared(s) }

  lemma Stepped(s: State, a: Action)
    requires Good(s) && ProducerEnabled(s, a)
    ensures Good(NextProducer(s, a))
  {
    hide Shape;
    hide Own;
    hide Shared;
    hide NextProducer;
    BlockProducerSteps.ProducerOwn(s, a);
    BlockProducerSteps.ProducerShared(s, a);
    ShapeOf(NextProducer(s, a));
  }

  lemma StartGood(s: State, xs: seq<Elem>)
    requires Good(s) && s.prod.PIdle? && xs != []
    ensures Good(DoStart(s, xs))
  {
    hide Own;
    hide Shared;
    hide Shape;
    Stepped(s, Start(xs));
  }

  lemma CheckGood(s: State, op: Op)
    requires Good(s) && s.prod == PCheck(op)
    ensures Good(DoCheck(s, op))
  {
    hide Own;
    hide Shared;
    hide Shape;
    Stepped(s, Produce);
  }

  lemma CheckFailGood(s: State, op: Op)
    requires Good(s) && s.prod == PCheck(op) && Upcoming(op) <= Needed(s, op)
    ensures Good(Undo(s, op, 0))
  {
    hide Own;
    hide Shared;
    hide Shape;
    Stepped(s, Fail);
  }

  lemma TestGood(s: State, op: Op)
    requires Good(s) && s.prod == PTest(op)
    ensures Good(DoTest(s, op))
  {
    hide Own;
    hide Shared;
    hide Shape;
    Stepped(s, Produce);
  }

  lemma GrowGood(s: State, op: Op, junk: seq<Value>)
    requires Good(s) && s.prod == PGrow(op) && s.headers != [] && |junk| == Cur(s).capacity
    ensures Good(DoGrow(s, op, junk))
  {
    hide Own;
    hide Shared;
    hide Shape;
    Stepped(s, AllocIndex(junk));
  }

  lemma GrowFailGood(s: State, op: Op)
    requires Good(s) && s.prod == PGrow(op)
    ensures Good(Undo(s, op, 0))
  {
    hide Own;
    hide Shared;
    hide Shape;
    Stepped(s, Fail);
  }

  lemma StoreKeyGood(s: State, op: Op)
    requires Good(s) && s.prod == PStoreKey(op)
    ensures Good(DoStoreKey(s, op))
  {
    hide Own;
    hide Shared;
    hide Shape;
    Stepped(s, Produce);
  }

  lemma StoreTailGood(s: State, op: Op)
    requires Good(s) && s.prod == PStoreTail(op)
    ensures Good(DoStoreTail(s, op))
  {
    hide Own;
    hide Shared;
    hide Shape;
    Stepped(s, Produce);
  }

  lemma RequisitionGood(s: State, op: Op, k: nat, garbage: Block)
    requires Good(s) && s.prod == PRequisition(op) && k !in s.blocks && |garbage.slots| == BLOCK_SIZE
    ensures Good(DoRequisition(s, op, k, garbage))
  {
    hide Own;
    hide Shared;
    hide Shape;
    Stepped(s, Alloc(k, garbage));
  }

  lemma RequisitionFailGood(s: State, op: Op)
    requires Good(s) && s.prod == PRequisition(op)
    ensures Good(s.(prod := PRewind(op)))
  {
    hide Own;
    hide Shared;
    hide Shape;
    Stepped(s, Fail);
  }

  lemma StoreValueGood(s: State, op: Op, k: nat)
    requires Good(s) && s.prod == PStoreValue(op, k)
    ensures Good(DoStoreValue(s, op, k))
  {
    hide Own;
    hide Shared;
    hide Shape;
    Stepped(s, Produce);
  }

  lemma RewindGood(s: State, op: Op)
    requires Good(s) && s.prod == PRewind(op)
    ensures Good(DoRewind(s, op))
  {
    hide Own;
    hide Shared;
    hide Shape;
    Stepped(s, Produce);
  }

  lemma ClearGood(s: State, op: Op)
    requires Good(s) && s.prod == PClear(op)
    ensures Good(DoClear(s, op))
  {
    hide Own;
    hide Shared;
    hide Shape;
    Stepped(s, Produce);
  }

  lemma UndoValueGood(s: State, op: Op, j: nat)
    requires Good(s) && s.prod == PUndoValue(op, j)
    ensures Good(DoUndoValue(s, op, j))
  {
    hide Own;
    hide Shared;
    hide Shape;
    BlockTheorems.UndoReady(s, op, j);
    Stepped(s, Produce);
  }

  lemma UndoTailGood(s: State, op: Op, j: nat)
    requires Good(s) && s.prod == PUndoTail(op, j)
    ensures j < |op.news|
    ensures Good(DoUndoTail(s, op, j))
  {
    hide Own;
    hide Shared;
    hide Shape;
    BlockTheorems.PhaseReady(s);
    Stepped(s, Produce);
  }

  lemma GiveBackGood(s: State, op: Op, j: nat)
    requires Good(s) && s.prod == PGiveBack(op, j)
    ensures j < |op.news|
    ensures Good(DoGiveBack(s, op, j))
  {
    hide Own;
    hide Shared;
    hide Shape;
    BlockTheorems.PhaseReady(s);
    Stepped(s, Produce);
  }

  lemma WriteGood(s: State, op: Op, j: nat)
    requires Good(s) && s.prod == PWrite(op, j)
    ensures j < |op.xs| && (var to := Target(op, (|s.published| + j) / BLOCK_SIZE); to.Ptr? && to.k in s.blocks)
    ensures Good(DoWrite(s, op, j))
  {
    hide Own;
    hide Shared;
    hide Shape;
    BlockProducerSteps.WriteTarget(s, op, j) by { Lives(s); }
    BlockTheorems.PhaseReady(s);
    Stepped(s, Produce);
  }

  lemma PublishGood(s: State, op: Op)
    requires Good(s) && s.prod == PPublish(op)
    ensures Good(DoPublish(s, op))
  {
    hide Own;
    hide Shared;
    hide Shape;
    Stepped(s, Produce);
  }

  lemma Lives(s: State)
    requires Shared(s)
    ensures forall b: nat :: LifeInv(s, b)
  {
  }

  /** Elements, blocks and consumers are the same: at most the index differs. */
  ghost predicate SameData(s: State, s': State) {
    && s'.published == s.published && s'.head == s.head && s'.cons == s.cons && s'.out == s.out
    && s'.live == s.live && s'.blocks == s.blocks
  }

  lemma HeaderFacts(s: State)
    requires Good(s)
    ensures s.headers != [] && HeaderShape(Cur(s), |s.entries|)
  {
    hide Own;
    hide Shared;
  }

  lemma UndoProd(op: Op, s: State)
    ensures Undo(s, op, 0).prod == if op.news == [] then PIdle else PUndoValue(op, 0)
  {
  }

  lemma UndoSame(s: State, op: Op, j: nat)
    ensures var s' := Undo(s, op, j); SameData(s, s') && s'.headers == s.headers && s'.entries == s.entries
  {
  }

  /** A block was inserted in the index and there is no memory for it: rewind, and clear its entry. */
  ghost function Abandoned(s: State, op: Op): State
    requires Good(s) && s.prod == PRequisition(op)
  {
    RequisitionFailGood(s, op);
    var s1 := s.(prod := PRewind(op));
    RewindGood(s1, op);
    DoClear(DoRewind(s1, op), op)
  }

  lemma AbandonedGood(s: State, op: Op)
    requires Good(s) && s.prod == PRequisition(op)
    ensures Good(Abandoned(s, op))
  {
    hide Own;
    hide Shared;
    hide Shape;
    hide DoClear;
    hide DoRewind;
    RequisitionFailGood(s, op);
    var s1 := s.(prod := PRewind(op));
    RewindGood(s1, op);
    ClearGood(DoRewind(s1, op), op) by { RewindProd(s1, op); }
  }

  lemma RewindProd(s: State, op: Op)
    requires Shape(s)
    ensures DoRewind(s, op).prod == PClear(op)
  {
  }

  lemma AbandonedFields(s: State, op: Op)
    requires Good(s) && s.prod == PRequisition(op)
    ensures var s' := Abandoned(s, op); var e := Cur(s).index[Cur(s).tail];
            && s'.prod == Undo(s, op, 0).prod && SameData(s, s')
            && s'.headers != [] && Cur(s') == Cur(s).(tail := Before(Cur(s)))
            && e < |s.entries| && s'.entries == s.entries[e := s.entries[e].(value := Null)]
  {
    hide Own;
    hide Shared;
    RequisitionFailGood(s, op);
    var s1 := s.(prod := PRewind(op));
    RewindGood(s1, op);
    AfterBefore(Cur(s1));
    var s2 := DoRewind(s1, op);
    assert Cur(s2) == Cur(s1).(tail := Before(Cur(s1)));
    var e := Cur(s).index[Cur(s).tail];
    UndoSame(s2.(entries := s2.entries[e := s2.entries[e].(value := Null)]), op, 0);
  }

  // -------------------------------------------------------------------
  // A single consumer
  // -------------------------------------------------------------------

  ghost predicate Solo(s: State) { Good(s) && |s.cons| == 1 }

  lemma Consumed(s: State, n: nat)
    requires Solo(s) && ConsumerEnabled(s, 0, n)
    ensures Solo(NextConsumer(s, 0, n))
  {
    hide Shape;
    hide Own;
    hide Shared;
    hide NextConsumer;
    BlockConsumer.ConsumerStep(s, 0, n);
    ShapeOf(NextConsumer(s, 0, n));
    ConsumerCount(s, n);
  }

  lemma ConsumerCount(s: State, n: nat)
    requires Shape(s) && |s.cons| == 1 && ConsumerEnabled(s, 0, n)
    ensures |NextConsumer(s, 0, n).cons| == 1
  {
    hide Shape;
    hide LookupAt;
    hide Onward;
    hide Inserted;
  }

  lemma ClaimGood(s: State, n: nat)
    requires Solo(s) && s.cons[0].CIdle? && 0 < n <= |s.published| - s.head
    ensures Solo(DoClaim(s, 0, n))
  {
    hide Shape;
    hide Own;
    hide Shared;
    Consumed(s, n);
  }

  /** The three reads of a lookup, one after the other, find the position of the block of index i. */
  ghost function LookedUp(s: State, i: nat, j: nat): (s': State)
    requires Solo(s) && s.cons[0] == CHeader(i, j)
  {
    var h := Cur(s);
    Go(s, 0, CEntry(i, j, |s.headers| - 1, Pos(h, i / BLOCK_SIZE)))
  }

  lemma LookUpGood(s: State, i: nat, j: nat)
    requires Solo(s) && s.cons[0] == CHeader(i, j)
    ensures Solo(LookedUp(s, i, j)) && i < j <= s.head
    ensures var tb := Inserted(s) - 1;
            && i / BLOCK_SIZE <= tb && s.entries[Cur(s).index[Cur(s).tail]].key == Base(tb)
            && LookupAt(Cur(s), Cur(s).tail, tb, i / BLOCK_SIZE) == Pos(Cur(s), i / BLOCK_SIZE)
  {
    hide Own;
    hide Shared;
    hide HeaderShape;
    hide LookupAt;
    LookUpFacts(s, i, j);
    Consumed(s, 0);
    var h := |s.headers| - 1;
    var s1 := Go(s, 0, CTail(i, j, h));
    Consumed(s1, 0);
    var s2 := DoTail(s1, 0, i, j, h);
    assert s2.cons[0] == CKey(i, j, h, Cur(s).tail, Inserted(s) - 1);
    BlockConsumer.KeyFound(s2, 0);
    Consumed(s2, 0);
    assert NextConsumer(s2, 0, 0).cons == LookedUp(s, i, j).cons;
    assert NextConsumer(s2, 0, 0) == LookedUp(s, i, j);
  }

  lemma LookUpFacts(s: State, i: nat, j: nat)
    requires Solo(s) && s.cons[0] == CHeader(i, j)
    ensures i < j <= s.head && i / BLOCK_SIZE <= Inserted(s) - 1
    ensures s.headers != [] && HeaderShape(Cur(s), |s.entries|)
  {
    hide OutInv;
    hide SlotInv;
    hide PlaceInv;
    hide LifeInv;
    hide HeaderShape;
    hide RingOk;
    assert ConsumerInv(s, s.cons[0]);
    BlockConsumer.InsertedCovers(s, i);
  }

  lemma EntryGood(s: State, i: nat, j: nat, h: nat, idx: nat)
    requires Solo(s) && s.cons[0] == CEntry(i, j, h, idx)
    ensures h < |s.headers| && idx < s.headers[h].capacity == |s.headers[h].index|
    ensures var e := s.headers[h].index[idx]; var b := i / BLOCK_SIZE;
            && i < j && e < |s.entries| && b in s.live && s.live[b] in s.blocks && s.entries[e] == Entry(Base(b), Ptr(s.live[b]))
            && Solo(Go(s, 0, CMove(i, j, h, idx, e, s.live[b], i)))
  {
    hide Own;
    hide Shared;
    hide ConsumerInv;
    hide HeaderShape;
    EntryShape(s, i, j, h, idx);
    SharedConsumer(s, 0);
    BlockTheorems.EntryClaim(s, s.cons[0]);
    BlockConsumer.EntryFound(s, 0);
    Consumed(s, 0);
  }

  lemma EntryShape(s: State, i: nat, j: nat, h: nat, idx: nat)
    requires Shape(s) && |s.cons| == 1 && s.cons[0] == CEntry(i, j, h, idx)
    ensures h < |s.headers| && HeaderShape(s.headers[h], |s.entries|) && idx < s.headers[h].capacity
    ensures s.headers[h].index[idx] < |s.entries|
  {
  }

  lemma MoveGood(s: State, i: nat, j: nat, h: nat, idx: nat, e: nat, k: nat, from: nat)
    requires Solo(s) && s.cons[0] == CMove(i, j, h, idx, e, k, from)
    ensures i < j && i < |s.published| && k in s.blocks && |s.blocks[k].slots| == BLOCK_SIZE
    ensures s.blocks[k].slots[i % BLOCK_SIZE] == Full(s.published[i])
    ensures Solo(DoMove(s, 0, i, j, h, idx, e, k, from))
  {
    hide Own;
    hide Shared;
    hide HeaderShape;
    hide DoMove;
    BlockConsumer.ElementFound(s, 0);
    Consumed(s, 0);
  }

  lemma CountGood(s: State, i: nat, j: nat, h: nat, idx: nat, e: nat, k: nat, from: nat)
    requires Solo(s) && s.cons[0] == CCount(i, j, h, idx, e, k, from)
    ensures h < |s.headers| && from < i && k in s.blocks && s.blocks[k].dequeued + (i - from) <= BLOCK_SIZE
    ensures Solo(DoCount(s, 0, i, j, h, idx, e, k, from))
  {
    hide Own;
    hide Shared;
    hide HeaderShape;
    hide DoCount;
    BlockConsumer.CountFits(s, 0);
    Consumed(s, 0);
  }

  lemma NullGood(s: State, i: nat, j: nat, h: nat, idx: nat, e: nat, k: nat)
    requires Solo(s) && s.cons[0] == CNull(i, j, h, idx, e, k)
    ensures 0 < i && e < |s.entries| && Solo(DoNull(s, 0, i, j, h, idx, e, k))
  {
    hide Own;
    hide Shared;
    hide HeaderShape;
    hide DoNull;
    NullRange(s, i, j, h, idx, e, k);
    Consumed(s, 0);
  }

  lemma NullRange(s: State, i: nat, j: nat, h: nat, idx: nat, e: nat, k: nat)
    requires Solo(s) && s.cons[0] == CNull(i, j, h, idx, e, k)
    ensures 0 < i && e < |s.entries|
  {
    hide Own;
    SharedConsumer(s, 0);
  }

  lemma FreeGood(s: State, i: nat, j: nat, h: nat, idx: nat, k: nat)
    requires Solo(s) && s.cons[0] == CFree(i, j, h, idx, k)
    ensures h < |s.headers| && Solo(DoFree(s, 0, i, j, h, idx, k))
  {
    hide Own;
    hide Shared;
    hide HeaderShape;
    hide DoFree;
    Consumed(s, 0);
  }
}
