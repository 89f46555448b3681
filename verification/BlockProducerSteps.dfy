/** Every step of the producer keeps the invariant of the block queue. */
module BlockProducerSteps {
  import opened Sums
  import opened BlockQueue
  import opened BlockRing
  import opened BlockInv
  import opened BlockProducer
  import opened BlockShared

  // -------------------------------------------------------------------
  // Steps that only touch the index
  // -------------------------------------------------------------------

  lemma StartQuiet(s: State, xs: seq<Elem>)
    requires Own(s) && s.prod.PIdle? && xs != []
    ensures QuietStep(s, DoStart(s, xs))
  {
    hide RingOk;
    hide Working;
    hide TailOk;
    hide NewsInv;
  }

  lemma CheckQuiet(s: State, op: Op)
    requires Own(s) && s.prod == PCheck(op)
    ensures QuietStep(s, DoCheck(s, op))
  {
    hide RingOk;
    hide Working;
    hide TailOk;
    hide NewsInv;
    assert s.published + [] == s.published;
  }

  lemma TestQuiet(s: State, op: Op)
    requires Own(s) && s.prod == PTest(op)
    ensures QuietStep(s, DoTest(s, op))
  {
    hide RingOk;
    hide Working;
    hide TailOk;
    hide NewsInv;
  }

  lemma StoreKeyQuiet(s: State, op: Op)
    requires Own(s) && s.prod == PStoreKey(op)
    ensures QuietStep(s, DoStoreKey(s, op))
  {
    hide RingOk;
    hide Working;
    hide TailOk;
    hide NewsInv;
  }

  lemma StoreTailQuiet(s: State, op: Op)
    requires Own(s) && s.prod == PStoreTail(op)
    ensures QuietStep(s, DoStoreTail(s, op))
  {
    hide RingOk;
    hide Working;
    hide TailOk;
    hide NewsInv;
  }

  lemma RewindQuiet(s: State, op: Op)
    requires Own(s) && s.prod == PRewind(op)
    ensures QuietStep(s, DoRewind(s, op))
  {
    hide RingOk;
    hide Working;
    hide TailOk;
    hide NewsInv;
  }

  lemma ClearQuiet(s: State, op: Op)
    requires Own(s) && s.prod == PClear(op)
    ensures QuietStep(s, DoClear(s, op))
  {
    hide RingOk;
    hide Working;
    hide TailOk;
    hide NewsInv;
  }

  lemma UndoTailQuiet(s: State, op: Op, j: nat)
    requires Own(s) && s.prod == PUndoTail(op, j)
    ensures QuietStep(s, DoUndoTail(s, op, j))
  {
    hide RingOk;
    hide Working;
    hide TailOk;
    hide NewsInv;
  }

  /** Giving up before anything of the current block has been inserted. */
  lemma FailQuiet(s: State, op: Op)
    requires Own(s) && (s.prod == PCheck(op) || s.prod == PGrow(op))
    ensures QuietStep(s, Undo(s, op, 0))
  {
    hide RingOk;
    hide Working;
    hide NewsInv;
  }

  lemma FailOwn(s: State, op: Op)
    requires Own(s) && (s.prod == PCheck(op) || s.prod == PGrow(op))
    ensures Own(Undo(s, op, 0))
  {
    hide RingOk;
    hide NewsInv;
    hide Working;
    FailNews(s, op);
    FailPhase(s, op);
  }

  lemma FailPhase(s: State, op: Op)
    requires PhaseInv(s) && (s.prod == PCheck(op) || s.prod == PGrow(op))
    ensures PhaseInv(Undo(s, op, 0)) && Upcoming(op) - |op.news| == Ceil(|s.published|)
  {
  }

  lemma FailNews(s: State, op: Op)
    requires (s.prod == PCheck(op) || s.prod == PGrow(op)) && NewsInv(s.published, s.live, s.prod)
    ensures NewsInv(s.published, s.live, Undo(s, op, 0).prod)
  {
    forall b: nat ensures IsNew(Undo(s, op, 0).prod, b) <==> IsNew(s.prod, b) {
    }
  }

  lemma NoBlockQuiet(s: State, op: Op)
    requires Own(s) && s.prod == PRequisition(op)
    ensures QuietStep(s, s.(prod := PRewind(op))) && Own(s.(prod := PRewind(op)))
  {
    hide RingOk;
  }

  // -------------------------------------------------------------------
  // Doubling the index
  // -------------------------------------------------------------------

  lemma GrowShared(s: State, op: Op, junk: seq<Value>)
    requires Own(s) && Shared(s) && s.prod == PGrow(op) && |junk| == Cur(s).capacity
    ensures Shared(DoGrow(s, op, junk))
  {
    var s' := DoGrow(s, op, junk);
    GrowEntries(s, op, junk);
    QuietCounts(s, s') by {
      hide ConsumerInv;
      hide Shape;
    }
    forall t | 0 <= t < |s'.cons| ensures ConsumerInv(s', s'.cons[t]) {
      GrowConsumer(s, s', t);
    }
  }

  lemma BlocksInWindow(s: State, t: nat)
    requires Own(s) && Shared(s) && t < |s.cons|
    requires var c := s.cons[t]; !c.CIdle? && FirstBlock(c) <= LastBlock(c) && (c.CFree? ==> c.i < c.j)
    ensures s.lo <= FirstBlock(s.cons[t]) && LastBlock(s.cons[t]) < s.hi
  {
    hide Shape;
    hide LifeInv;
    hide OutInv;
    hide SlotInv;
    hide PlaceInv;
    hide ConsumerInv;
    BlocksAreLive(s, t);
  }

  lemma GrowShapes(s: State, s': State, t: nat)
    requires GrowFacts(s, s') && t < |s.cons|
    ensures Shape(s') && ConsumerShape(s.cons[t], s.headers, |s.entries|) && ConsumerShape(s.cons[t], s'.headers, |s'.entries|)
  {
  }

  lemma GrowConsumer(s: State, s': State, t: nat)
    requires Own(s) && Shared(s) && GrowFacts(s, s') && t < |s.cons|
    ensures Shape(s') && ConsumerShape(s.cons[t], s'.headers, |s'.entries|)
    ensures ConsumerInv(s', s.cons[t])
  {
    hide *;
    var c := s.cons[t];
    GrowShapes(s, s', t);
    SharedConsumer(s, t);
    if !c.CIdle? && FirstBlock(c) <= LastBlock(c) && (c.CFree? ==> c.i < c.j) {
      BlocksInWindow(s, t);
    }
    if c.CTail? || c.CKey? {
      SeekerGrow(s, s', c);
    } else {
      WorkerGrow(s, s', c);
    }
  }

  // -------------------------------------------------------------------
  // Blocks coming and going
  // -------------------------------------------------------------------

  lemma RequisitionShared(s: State, op: Op, k: nat, garbage: Block)
    requires Own(s) && Shared(s) && s.prod == PRequisition(op) && k !in s.blocks && |garbage.slots| == BLOCK_SIZE
    ensures Shared(DoRequisition(s, op, k, garbage))
  {
    hide ConsumerInv;
    hide RingOk;
    var s' := DoRequisition(s, op, k, garbage);
    ConsumersFrame(s, s');
    assert PlaceInv(s, k);
    forall b: nat ensures LifeInv(s', b) { LifeFrame(s, s', b); }
    forall x: nat ensures OutInv(s', x) { OutFrame(s, s', x); }
    forall x: nat ensures SlotInv(s', x) {
      if x / BLOCK_SIZE in s.live {
        assert LifeInv(s, x / BLOCK_SIZE);
      }
      SlotFrame(s, s', x);
    }
    forall n: nat ensures PlaceInv(s', n) {
      assert PlaceInv(s, n);
    }
  }

  /** No consumer has anything to do with a block past the published elements. */
  lemma Untouched(s: State, b: nat)
    requires Shared(s) && s.head <= |s.published| && Ceil(|s.published|) <= b
    ensures Sum(s.cons, Held(b)) == 0 && Sum(s.cons, Nulling(b)) == 0 && Overlap(0, s.head, b) == 0
  {
    hide LifeInv;
    hide OutInv;
    hide SlotInv;
    hide PlaceInv;
    hide HeaderShape;
    forall t | 0 <= t < |s.cons| ensures Held(b)(s.cons[t]) == 0 && Nulling(b)(s.cons[t]) == 0 {
      assert ConsumerInv(s, s.cons[t]);
    }
    SumZero(s.cons, Held(b));
    SumZero(s.cons, Nulling(b));
  }

  lemma StoreValueShared(s: State, op: Op, k: nat)
    requires Own(s) && Shared(s) && s.prod == PStoreValue(op, k)
    ensures !IsLive(s.live, k)
    ensures Shared(DoStoreValue(s, op, k))
  {
    hide ConsumerInv;
    hide RingOk;
    var s' := DoStoreValue(s, op, k);
    var b := Upcoming(op);
    assert PlaceInv(s, k);
    assert !IsNew(s.prod, b);
    StoreValueShape(s, op, k);
    ConsumersFrame(s, s');
    forall c: nat ensures LifeInv(s', c) {
      if c == b {
        Untouched(s, b);
      } else {
        LifeFrame(s, s', c);
      }
    }
    forall x: nat ensures OutInv(s', x) { OutFrame(s, s', x); }
    forall x: nat ensures SlotInv(s', x) {
      if x / BLOCK_SIZE != b {
        SlotFrame(s, s', x);
      }
    }
    forall n: nat ensures PlaceInv(s', n) {
      assert PlaceInv(s, n);
      LiveAdd(s.live, b, k, n);
    }
  }

  lemma LiveAdd(live: map<nat, nat>, b: nat, k: nat, n: nat)
    requires b !in live
    ensures IsLive(live[b := k], n) <==> IsLive(live, n) || n == k
  {
    if n == k {
      assert live[b := k][b] == k;
    }
    if c: nat :| c in live && live[c] == n {
      assert live[b := k][c] == n;
    }
  }

  lemma LiveRemove(live: map<nat, nat>, b: nat, n: nat)
    requires b in live && LiveInjective(live)
    ensures IsLive(live - {b}, n) <==> IsLive(live, n) && n != live[b]
  {
    if c: nat :| c in live && live[c] == n && n != live[b] {
      assert c in live - {b} && (live - {b})[c] == n;
    }
  }

  lemma UndoValueShared(s: State, op: Op, j: nat)
    requires Own(s) && Shared(s) && s.prod == PUndoValue(op, j)
    ensures Shared(DoUndoValue(s, op, j))
  {
    hide ConsumerInv;
    hide RingOk;
    var s' := DoUndoValue(s, op, j);
    var b := op.first + j;
    assert IsNew(s.prod, b);
    UndoValueShape(s, op, j);
    ConsumersFrame(s, s');
    forall c: nat ensures LifeInv(s', c) { LifeFrame(s, s', c); }
    forall x: nat ensures OutInv(s', x) { OutFrame(s, s', x); }
    forall x: nat ensures SlotInv(s', x) { SlotFrame(s, s', x); }
    forall n: nat ensures PlaceInv(s', n) {
      assert PlaceInv(s, n);
      LiveRemove(s.live, b, n);
      InHandNext(op, j, n);
    }
  }

  lemma InHandNext(op: Op, j: nat, n: nat)
    requires j < |op.news| && Distinct(op.news)
    ensures InHand(PUndoTail(op, j), n) <==> InHand(PUndoValue(op, j), n) || n == op.news[j]
    ensures !InHand(PUndoValue(op, j), op.news[j])
  {
  }

  /** No consumer depends on the block given back. */
  lemma GiveBackConsumers(s: State, op: Op, j: nat)
    requires Own(s) && Shared(s) && s.prod == PGiveBack(op, j) && j < |op.news|
    ensures Sum(s.cons, Freeing(op.news[j])) == 0 && !IsLive(s.live, op.news[j])
    ensures forall t :: 0 <= t < |s.cons| ==> Undisturbed(s, DoGiveBack(s, op, j), s.cons[t])
  {
    hide ConsumerInv;
    hide RingOk;
    hide LifeInv;
    hide OutInv;
    hide SlotInv;
    var k := op.news[j];
    assert PlaceInv(s, k) && InHand(s.prod, k);
    forall t | 0 <= t < |s.cons| ensures Undisturbed(s, DoGiveBack(s, op, j), s.cons[t]) {
      SumUpdate(s.cons, t, s.cons[t], Freeing(k));
    }
  }

  lemma GiveBackPlaces(s: State, op: Op, j: nat, n: nat)
    requires s.prod == PGiveBack(op, j) && j < |op.news| && Distinct(op.news) && PlaceInv(s, n)
    requires Sum(s.cons, Freeing(op.news[j])) == 0 && !IsLive(s.live, op.news[j])
    ensures PlaceInv(DoGiveBack(s, op, j), n)
  {
    hide IsLive;
    hide Sum;
    InHandLess(op, j, n);
  }

  lemma GiveBackShared(s: State, op: Op, j: nat)
    requires Own(s) && Shared(s) && s.prod == PGiveBack(op, j)
    ensures Shared(DoGiveBack(s, op, j))
  {
    hide ConsumerInv;
    hide RingOk;
    hide Freeing;
    hide PlaceInv;
    hide InHand;
    hide Undisturbed;
    var s' := DoGiveBack(s, op, j);
    GiveBackShape(s, op, j);
    GiveBackConsumers(s, op, j);
    ConsumersFrame(s, s');
    forall c: nat ensures LifeInv(s', c) { LifeFrame(s, s', c); }
    forall x: nat ensures OutInv(s', x) { OutFrame(s, s', x); }
    forall x: nat ensures SlotInv(s', x) { SlotFrame(s, s', x); }
    forall n: nat ensures PlaceInv(s', n) {
      assert PlaceInv(s, n);
      GiveBackPlaces(s, op, j, n);
    }
  }

  lemma InHandLess(op: Op, j: nat, n: nat)
    requires j < |op.news| && Distinct(op.news)
    ensures InHand(PGiveBack(op, j), n) <==> n == op.news[j] || (j + 1 < |op.news| && InHand(PGiveBack(op, j + 1), n))
    ensures j + 1 < |op.news| ==> !InHand(PGiveBack(op, j + 1), op.news[j])
  {
  }

  // -------------------------------------------------------------------
  // Elements
  // -------------------------------------------------------------------

  /** The block the producer writes element j to is the live block of that index: it never writes to a released one. */
  lemma WriteTarget(s: State, op: Op, j: nat)
    requires Own(s) && s.prod == PWrite(op, j) && (forall b: nat :: LifeInv(s, b))
    ensures var b := (|s.published| + j) / BLOCK_SIZE;
            && b in s.live && Target(op, b) == Ptr(s.live[b]) && s.live[b] in s.blocks
  {
    hide RingOk;
    hide Shape;
    var b := (|s.published| + j) / BLOCK_SIZE;
    if b >= op.first {
      assert IsNew(s.prod, b);
    }
    assert LifeInv(s, b);
  }

  lemma WriteSlot(s: State, op: Op, j: nat, y: nat)
    requires Own(s) && s.prod == PWrite(op, j) && SlotInv(s, y) && ProducerEnabled(s, Produce)
    requires forall b: nat :: b in s.live ==> s.live[b] in s.blocks
    requires var b := (|s.published| + j) / BLOCK_SIZE; b in s.live && Target(op, b) == Ptr(s.live[b])
    ensures SlotInv(DoWrite(s, op, j), y)
  {
    hide RingOk;
    hide PhaseInv;
    hide NewsInv;
    hide Written;
    WrittenGrows(s, op, j);
    var x := |s.published| + j;
    var b := x / BLOCK_SIZE;
    if y / BLOCK_SIZE in s.live && y / BLOCK_SIZE != b {
      assert s.live[y / BLOCK_SIZE] != s.live[b];
    }
  }

  lemma WriteLife(s: State, op: Op, j: nat, b: nat)
    requires Own(s) && s.prod == PWrite(op, j) && ProducerEnabled(s, Produce) && LifeInv(s, b)
    ensures LifeInv(DoWrite(s, op, j), b)
  {
    hide Shape;
    hide RingInv;
    hide PhaseInv;
    hide NewsInv;
    LifeFrame(s, DoWrite(s, op, j), b);
  }

  lemma WriteShared(s: State, op: Op, j: nat)
    requires Own(s) && Shared(s) && s.prod == PWrite(op, j)
    ensures ProducerEnabled(s, Produce) && Shared(DoWrite(s, op, j))
  {
    hide ConsumerInv;
    hide RingOk;
    hide Working;
    hide NewsInv;
    hide SlotInv;
    hide OutInv;
    hide PlaceInv;
    WriteTarget(s, op, j);
    var s' := DoWrite(s, op, j);
    WriteShape(s, op, j);
    ConsumersFrame(s, s');
    assert forall b: nat :: b in s.live ==> LifeInv(s, b) && s.live[b] in s.blocks;
    forall c: nat ensures LifeInv(s', c) {
      assert LifeInv(s, c);
      WriteLife(s, op, j, c);
    }
    forall y: nat ensures OutInv(s', y) { OutFrame(s, s', y); }
    forall y: nat ensures SlotInv(s', y) { WriteSlot(s, op, j, y); }
    forall n: nat ensures PlaceInv(s', n) { PlaceFrame(s, s', n); }
  }

  lemma WrittenGrows(s: State, op: Op, j: nat)
    requires Shape(s) && s.prod == PWrite(op, j) && j < |op.xs| && ProducerEnabled(s, Produce)
    ensures Written(DoWrite(s, op, j)) == Written(s) + [op.xs[j]]
    ensures |Written(s)| == |s.published| + j
  {
    assert op.xs[..j + 1] == op.xs[..j] + [op.xs[j]];
    if j + 1 == |op.xs| {
      assert op.xs[..j + 1] == op.xs;
    }
  }

  lemma PublishShared(s: State, op: Op)
    requires Own(s) && Shared(s) && s.prod == PPublish(op)
    ensures Shared(DoPublish(s, op))
  {
    hide ConsumerInv;
    hide RingOk;
    var s' := DoPublish(s, op);
    PublishShape(s, op);
    ConsumersFrame(s, s');
    forall c: nat ensures LifeInv(s', c) { LifeFrame(s, s', c); }
    forall x: nat ensures OutInv(s', x) {
      assert OutInv(s, x);
      if |s.published| <= x < |s'.published| && x / BLOCK_SIZE >= op.first {
        assert IsNew(s.prod, x / BLOCK_SIZE);
      }
    }
    forall x: nat ensures SlotInv(s', x) { SlotFrame(s, s', x); }
    forall n: nat ensures PlaceInv(s', n) { PlaceFrame(s, s', n); }
  }

  // -------------------------------------------------------------------
  // Any step of the producer
  // -------------------------------------------------------------------

  lemma ProducerOwn(s: State, a: Action)
    requires Own(s) && Shared(s) && ProducerEnabled(s, a)
    ensures Own(NextProducer(s, a))
  {
    hide Shape;
    hide RingInv;
    hide PhaseInv;
    hide NewsInv;
    hide LiveInjective;
    hide Shared;
    match s.prod
    case PIdle => StartShape(s, a.xs); StartRing(s, a.xs); StartPhase(s, a.xs);
    case PCheck(op) =>
      if a.Fail? { FailOwn(s, op); } else { CheckShape(s, op); CheckRing(s, op); CheckPhase(s, op); }
    case PTest(op) => TestShape(s, op); TestRing(s, op); TestPhase(s, op);
    case PGrow(op) =>
      if a.Fail? { FailOwn(s, op); } else { GrowShape(s, op, a.junk); GrowRing(s, op, a.junk); GrowPhase(s, op, a.junk); }
    case PStoreKey(op) => StoreKeyShape(s, op); StoreKeyRing(s, op); StoreKeyPhase(s, op);
    case PStoreTail(op) => StoreTailShape(s, op); StoreTailRing(s, op); StoreTailPhase(s, op);
    case PRequisition(op) =>
      if a.Fail? { NoBlockQuiet(s, op); } else { RequisitionOwn(s, op, a.k, a.garbage); }
    case PStoreValue(op, k) =>
      StoreValueShared(s, op, k); StoreValueShape(s, op, k); StoreValueRing(s, op, k); StoreValuePhase(s, op, k);
    case PRewind(op) => RewindShape(s, op); RewindRing(s, op); RewindPhase(s, op);
    case PClear(op) => ClearShape(s, op); ClearRing(s, op); ClearPhase(s, op);
    case PUndoValue(op, j) => UndoValueShape(s, op, j); UndoValueRing(s, op, j); UndoValuePhase(s, op, j);
    case PUndoTail(op, j) => UndoTailShape(s, op, j); UndoTailRing(s, op, j); UndoTailPhase(s, op, j);
    case PGiveBack(op, j) => GiveBackShape(s, op, j); GiveBackRing(s, op, j); GiveBackPhase(s, op, j);
    case PWrite(op, j) => WriteShared(s, op, j); WriteShape(s, op, j); WriteRing(s, op, j); WritePhase(s, op, j);
    case PPublish(op) => PublishShape(s, op); PublishRing(s, op); PublishPhase(s, op);
  }

  lemma RequisitionOwn(s: State, op: Op, k: nat, garbage: Block)
    requires Own(s) && s.prod == PRequisition(op) && k !in s.blocks && |garbage.slots| == BLOCK_SIZE
    ensures Own(DoRequisition(s, op, k, garbage))
  {
    hide RingOk;
  }

  lemma ProducerShared(s: State, a: Action)
    requires Own(s) && Shared(s) && ProducerEnabled(s, a)
    requires Own(NextProducer(s, a))
    ensures Shared(NextProducer(s, a))
  {
    hide Shape;
    hide RingInv;
    hide PhaseInv;
    hide NewsInv;
    hide LiveInjective;
    hide Shared;
    hide QuietStep;
    var s' := NextProducer(s, a);
    match s.prod
    case PIdle => StartQuiet(s, a.xs); QuietShared(s, s');
    case PCheck(op) => if a.Fail? { FailQuiet(s, op); } else { CheckQuiet(s, op); } QuietShared(s, s');
    case PTest(op) => TestQuiet(s, op); QuietShared(s, s');
    case PGrow(op) => if a.Fail? { FailQuiet(s, op); QuietShared(s, s'); } else { GrowShared(s, op, a.junk); }
    case PStoreKey(op) => StoreKeyQuiet(s, op); QuietShared(s, s');
    case PStoreTail(op) => StoreTailQuiet(s, op); QuietShared(s, s');
    case PRequisition(op) =>
      if a.Fail? { NoBlockQuiet(s, op); QuietShared(s, s'); } else { RequisitionShared(s, op, a.k, a.garbage); }
    case PStoreValue(op, k) => StoreValueShared(s, op, k);
    case PRewind(op) => RewindQuiet(s, op); QuietShared(s, s');
    case PClear(op) => ClearQuiet(s, op); QuietShared(s, s');
    case PUndoValue(op, j) => UndoValueShared(s, op, j);
    case PUndoTail(op, j) => UndoTailQuiet(s, op, j); QuietShared(s, s');
    case PGiveBack(op, j) => GiveBackShared(s, op, j);
    case PWrite(op, j) => WriteShared(s, op, j);
    case PPublish(op) => PublishShared(s, op);
  }
}
