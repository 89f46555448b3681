/** Every step of the producer keeps the producer's part of the invariant. */
module BlockProducer {
  import opened Sums
  import opened BlockQueue
  import opened BlockRing
  import opened BlockInv

  /** The part of the invariant that the producer depends on. */
  ghost predicate Own(s: State) {
    && Shape(s)
    && RingInv(s)
    && PhaseInv(s)
    && NewsInv(s.published, s.live, s.prod)
    && LiveInjective(s.live)
  }

  lemma ShapeOf(s: State)
    requires Own(s)
    ensures Shape(s)
  {
  }

  lemma WindowFits(s: State)
    requires RingInv(s)
    ensures 0 < Cur(s).capacity && s.lo <= s.hi <= s.lo + Cur(s).capacity && Inserted(s) <= s.hi
  {
  }

  /** What the test of the next entry says about the block whose place it would take. */
  lemma TestFacts(s: State, op: Op)
    requires Own(s) && s.prod == PTest(op)
    ensures DoTest(s, op).prod.PGrow? ==> Upcoming(op) == s.hi
    ensures DoTest(s, op).prod.PStoreKey? && Upcoming(op) == s.hi && s.lo + Cur(s).capacity == s.hi ==> s.lo !in s.live
  {
    var h := Cur(s);
    var b := Upcoming(op);
    assert !IsNew(s.prod, b);
    if b < s.hi {
      assert s.entries[EntryOf(h, b)].value == LiveValue(s.live, b);
    } else if s.lo + h.capacity == b {
      PosPeriod(h, s.lo);
      assert s.entries[EntryOf(h, s.lo)].key == Base(s.lo);
      assert s.entries[EntryOf(h, s.lo)].value == LiveValue(s.live, s.lo);
    }
  }

  lemma StartShape(s: State, xs: seq<Elem>)
    requires Shape(s) && PhaseInv(s) && s.prod.PIdle? && xs != []
    ensures Shape(DoStart(s, xs))
  {
  }

  lemma StartRing(s: State, xs: seq<Elem>)
    requires Own(s) && s.prod.PIdle? && xs != []
    ensures RingInv(DoStart(s, xs))
  {
    hide RingOk;
  }

  lemma StartPhase(s: State, xs: seq<Elem>)
    requires Own(s) && s.prod.PIdle? && xs != []
    ensures var s' := DoStart(s, xs);
            PhaseInv(s') && NewsInv(s'.published, s'.live, s'.prod) && LiveInjective(s'.live)
  {
    hide Shape;
    hide RingOk;
  }

  lemma CheckShape(s: State, op: Op)
    requires Shape(s) && PhaseInv(s) && s.prod == PCheck(op)
    ensures Shape(DoCheck(s, op))
  {
  }

  lemma CheckRing(s: State, op: Op)
    requires Own(s) && s.prod == PCheck(op)
    ensures RingInv(DoCheck(s, op))
  {
    hide RingOk;
  }

  lemma CheckPhase(s: State, op: Op)
    requires Own(s) && s.prod == PCheck(op)
    ensures var s' := DoCheck(s, op);
            PhaseInv(s') && NewsInv(s'.published, s'.live, s'.prod) && LiveInjective(s'.live)
  {
    hide Shape;
    hide RingOk;
  }

  lemma TestShape(s: State, op: Op)
    requires Shape(s) && PhaseInv(s) && s.prod == PTest(op)
    ensures Shape(DoTest(s, op))
  {
  }

  lemma TestRing(s: State, op: Op)
    requires Own(s) && s.prod == PTest(op)
    ensures RingInv(DoTest(s, op))
  {
    hide RingOk;
  }

  lemma TestPhase(s: State, op: Op)
    requires Own(s) && s.prod == PTest(op)
    ensures var s' := DoTest(s, op);
            PhaseInv(s') && NewsInv(s'.published, s'.live, s'.prod) && LiveInjective(s'.live)
  {
    hide Shape;
    hide RingOk;
    TestFacts(s, op);
  }

  lemma GrowShape(s: State, op: Op, junk: seq<Value>)
    requires Shape(s) && PhaseInv(s) && s.prod == PGrow(op) && |junk| == Cur(s).capacity
    ensures Shape(DoGrow(s, op, junk))
  {
  }

  lemma GrowRing(s: State, op: Op, junk: seq<Value>)
    requires Own(s) && s.prod == PGrow(op) && |junk| == Cur(s).capacity
    ensures RingInv(DoGrow(s, op, junk))
  {
    hide RingOk;
    var h := Cur(s);
    RingGrow(h, s.entries, s.live, s.lo, s.hi, seq(|junk|, i requires 0 <= i < |junk| => Entry(Invalid, junk[i])));
  }

  lemma GrowPhase(s: State, op: Op, junk: seq<Value>)
    requires Own(s) && s.prod == PGrow(op) && |junk| == Cur(s).capacity
    ensures var s' := DoGrow(s, op, junk);
            PhaseInv(s') && NewsInv(s'.published, s'.live, s'.prod) && LiveInjective(s'.live)
  {
    hide Shape;
    hide RingOk;
    WindowFits(s);
  }

  lemma StoreKeyShape(s: State, op: Op)
    requires Shape(s) && PhaseInv(s) && s.prod == PStoreKey(op)
    ensures Shape(DoStoreKey(s, op))
  {
  }

  lemma StoreKeyRing(s: State, op: Op)
    requires Own(s) && s.prod == PStoreKey(op)
    ensures RingInv(DoStoreKey(s, op))
  {
    hide RingOk;
    RingStoreKey(Cur(s), s.entries, s.live, s.lo, s.hi, Upcoming(op));
  }

  lemma StoreKeyPhase(s: State, op: Op)
    requires Own(s) && s.prod == PStoreKey(op)
    ensures var s' := DoStoreKey(s, op);
            PhaseInv(s') && NewsInv(s'.published, s'.live, s'.prod) && LiveInjective(s'.live)
  {
    hide Shape;
    hide RingOk;
    WindowFits(s);
    assert op.news != [] ==> IsNew(s.prod, op.first);
  }

  lemma StoreTailShape(s: State, op: Op)
    requires Shape(s) && PhaseInv(s) && s.prod == PStoreTail(op)
    ensures Shape(DoStoreTail(s, op))
  {
  }

  lemma StoreTailRing(s: State, op: Op)
    requires Own(s) && s.prod == PStoreTail(op)
    ensures RingInv(DoStoreTail(s, op))
  {
    hide RingOk;
    RingSetTail(Cur(s), s.entries, s.live, s.lo, s.hi, Inserted(s), Pending(s.prod));
  }

  lemma StoreTailPhase(s: State, op: Op)
    requires Own(s) && s.prod == PStoreTail(op)
    ensures var s' := DoStoreTail(s, op);
            PhaseInv(s') && NewsInv(s'.published, s'.live, s'.prod) && LiveInjective(s'.live)
  {
    hide Shape;
    hide RingOk;
  }

  lemma StoreValueShape(s: State, op: Op, k: nat)
    requires Shape(s) && PhaseInv(s) && s.prod == PStoreValue(op, k) && !IsLive(s.live, k)
    ensures Shape(DoStoreValue(s, op, k))
  {
  }

  lemma StoreValueRing(s: State, op: Op, k: nat)
    requires Own(s) && s.prod == PStoreValue(op, k) && !IsLive(s.live, k)
    ensures RingInv(DoStoreValue(s, op, k))
  {
    hide RingOk;
    RingStoreValue(Cur(s), s.entries, s.live, s.lo, s.hi, Inserted(s), Upcoming(op), k);
  }

  lemma StoreValuePhase(s: State, op: Op, k: nat)
    requires Own(s) && s.prod == PStoreValue(op, k) && !IsLive(s.live, k)
    ensures var s' := DoStoreValue(s, op, k);
            PhaseInv(s') && NewsInv(s'.published, s'.live, s'.prod) && LiveInjective(s'.live)
  {
    hide Shape;
    hide RingOk;
    forall x | 0 <= x < |op.news| ensures op.news[x] != k {
      assert IsNew(s.prod, op.first + x);
    }
  }

  lemma RewindShape(s: State, op: Op)
    requires Shape(s) && PhaseInv(s) && s.prod == PRewind(op)
    ensures Shape(DoRewind(s, op))
  {
  }

  lemma RewindRing(s: State, op: Op)
    requires Own(s) && s.prod == PRewind(op)
    ensures RingInv(DoRewind(s, op))
  {
    hide RingOk;
    RingSetTail(Cur(s), s.entries, s.live, s.lo, s.hi, Inserted(s), Pending(s.prod));
  }

  lemma RewindPhase(s: State, op: Op)
    requires Own(s) && s.prod == PRewind(op)
    ensures var s' := DoRewind(s, op);
            PhaseInv(s') && NewsInv(s'.published, s'.live, s'.prod) && LiveInjective(s'.live)
  {
    hide Shape;
    hide RingOk;
  }

  lemma ClearShape(s: State, op: Op)
    requires Shape(s) && PhaseInv(s) && s.prod == PClear(op)
    ensures Shape(DoClear(s, op))
  {
  }

  lemma ClearRing(s: State, op: Op)
    requires Own(s) && s.prod == PClear(op)
    ensures RingInv(DoClear(s, op))
  {
    hide RingOk;
    RingClear(Cur(s), s.entries, s.live, s.lo, s.hi, Upcoming(op));
  }

  lemma ClearPhase(s: State, op: Op)
    requires Own(s) && s.prod == PClear(op)
    ensures var s' := DoClear(s, op);
            PhaseInv(s') && NewsInv(s'.published, s'.live, s'.prod) && LiveInjective(s'.live)
  {
    hide Shape;
    hide RingOk;
  }

  lemma UndoValueShape(s: State, op: Op, j: nat)
    requires Shape(s) && PhaseInv(s) && s.prod == PUndoValue(op, j)
    ensures Shape(DoUndoValue(s, op, j))
  {
  }

  lemma UndoValueRing(s: State, op: Op, j: nat)
    requires Own(s) && s.prod == PUndoValue(op, j)
    ensures RingInv(DoUndoValue(s, op, j))
  {
    hide RingOk;
    RingLookup(s, op.first + j);
    RingRelease(Cur(s), s.entries, s.live, s.lo, s.hi, Inserted(s), Pending(s.prod), op.first + j);
  }

  lemma UndoValuePhase(s: State, op: Op, j: nat)
    requires Own(s) && s.prod == PUndoValue(op, j)
    ensures var s' := DoUndoValue(s, op, j);
            PhaseInv(s') && NewsInv(s'.published, s'.live, s'.prod) && LiveInjective(s'.live)
  {
    hide Shape;
    hide RingOk;
  }

  lemma SetTailShape(s: State, t: nat)
    requires Shape(s) && t < Cur(s).capacity
    ensures Shape(SetTail(s, t))
  {
  }

  lemma UndoShape(s: State, op: Op, j: nat)
    requires Shape(s)
    ensures Shape(Undo(s, op, j))
  {
    hide HeaderShape;
    hide ConsumerShape;
  }

  lemma UndoTailShape(s: State, op: Op, j: nat)
    requires Shape(s) && PhaseInv(s) && s.prod == PUndoTail(op, j)
    ensures Shape(DoUndoTail(s, op, j))
  {
    hide ConsumerShape;
    hide PhaseInv;
    hide Undo;
    SetTailShape(s, Before(Cur(s)));
    UndoShape(SetTail(s, Before(Cur(s))), op, j + 1);
  }

  lemma UndoTailRing(s: State, op: Op, j: nat)
    requires Own(s) && s.prod == PUndoTail(op, j)
    ensures RingInv(DoUndoTail(s, op, j))
  {
    hide RingOk;
    RingSetTail(Cur(s), s.entries, s.live, s.lo, s.hi, Inserted(s), Pending(s.prod));
  }

  lemma UndoTailPhase(s: State, op: Op, j: nat)
    requires Own(s) && s.prod == PUndoTail(op, j)
    ensures var s' := DoUndoTail(s, op, j);
            PhaseInv(s') && NewsInv(s'.published, s'.live, s'.prod) && LiveInjective(s'.live)
  {
    hide Shape;
    hide RingOk;
  }

  lemma GiveBackShape(s: State, op: Op, j: nat)
    requires Shape(s) && PhaseInv(s) && s.prod == PGiveBack(op, j)
    ensures Shape(DoGiveBack(s, op, j))
  {
  }

  lemma GiveBackRing(s: State, op: Op, j: nat)
    requires Own(s) && s.prod == PGiveBack(op, j)
    ensures RingInv(DoGiveBack(s, op, j))
  {
    hide RingOk;
  }

  lemma GiveBackPhase(s: State, op: Op, j: nat)
    requires Own(s) && s.prod == PGiveBack(op, j)
    ensures var s' := DoGiveBack(s, op, j);
            PhaseInv(s') && NewsInv(s'.published, s'.live, s'.prod) && LiveInjective(s'.live)
  {
    hide Shape;
    hide RingOk;
  }

  lemma WriteShape(s: State, op: Op, j: nat)
    requires Shape(s) && PhaseInv(s) && s.prod == PWrite(op, j) && ProducerEnabled(s, Produce)
    ensures Shape(DoWrite(s, op, j))
  {
  }

  lemma WriteRing(s: State, op: Op, j: nat)
    requires Own(s) && s.prod == PWrite(op, j) && ProducerEnabled(s, Produce)
    ensures RingInv(DoWrite(s, op, j))
  {
    hide RingOk;
  }

  lemma WritePhase(s: State, op: Op, j: nat)
    requires Own(s) && s.prod == PWrite(op, j) && ProducerEnabled(s, Produce)
    ensures var s' := DoWrite(s, op, j);
            PhaseInv(s') && NewsInv(s'.published, s'.live, s'.prod) && LiveInjective(s'.live)
  {
    hide Shape;
    hide RingOk;
  }

  lemma PublishShape(s: State, op: Op)
    requires Shape(s) && PhaseInv(s) && s.prod == PPublish(op)
    ensures Shape(DoPublish(s, op))
  {
  }

  lemma PublishRing(s: State, op: Op)
    requires Own(s) && s.prod == PPublish(op)
    ensures RingInv(DoPublish(s, op))
  {
    hide RingOk;
  }

  lemma PublishPhase(s: State, op: Op)
    requires Own(s) && s.prod == PPublish(op)
    ensures var s' := DoPublish(s, op);
            PhaseInv(s') && NewsInv(s'.published, s'.live, s'.prod) && LiveInjective(s'.live)
  {
    hide Shape;
    hide RingOk;
  }
}
