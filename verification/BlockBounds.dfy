/**
 How far the tail of a producer's queue gets ahead of its head, with any number of consumers: the test for
 room that the producer makes on words, before each new block, keeps the distance below half the index range
 and within the limit, in every state, so that comparing the words of head and tail compares the indices.
*/
module BlockBounds {
  import opened BlockQueue
  import opened BlockInv
  import opened BlockProducer
  import opened BlockShared
  import opened BlockWords
  import opened Circular
  import BlockTheorems
  import Integers

  /** The test for room on the words, before block number `upcoming` is inserted. */
  predicate Full(head: nat, upcoming: nat, max: int) {
    var cur, h := Wrap(upcoming * BLOCK_SIZE), Wrap(head);
    || !LessThan(h, cur + BLOCK_SIZE)
    || (max != NO_LIMIT && (max == 0 || max - BLOCK_SIZE < Wrap(cur - h)))
  }

  /** At the check for a further block the producer does what the test says. */
  predicate Obeys(s: State, a: Action, max: int) {
    !a.Consume? && s.prod.PCheck? && Upcoming(s.prod.op) <= Needed(s, s.prod.op) ==>
      (a.Fail? <==> Full(s.head, Upcoming(s.prod.op), max))
  }

  ghost predicate BoundedStep(s: State, s': State, max: int) {
    exists a: Action :: Enabled(s, a) && Obeys(s, a, max) && s' == Next(s, a)
  }

  ghost predicate IsBoundedRun(run: seq<State>, max: int) {
    && run != []
    && Init(run[0])
    && forall i :: 0 <= i < |run| - 1 ==> BoundedStep(run[i], run[i + 1], max)
  }

  /** The number of blocks, counted from the first index on, that are in use or being inserted. */
  ghost function Reach(s: State): nat {
    match s.prod
    case PIdle => Ceil(|s.published|)
    case PTest(op) => Upcoming(op) + 1
    case PGrow(op) => Upcoming(op) + 1
    case PStoreKey(op) => Upcoming(op) + 1
    case PStoreTail(op) => Upcoming(op) + 1
    case PRequisition(op) => Upcoming(op) + 1
    case PStoreValue(op, _) => Upcoming(op) + 1
    case _ => Upcoming(s.prod.op)
  }

  ghost predicate Within(s: State, max: int) {
    && s.head <= |s.published|
    && Room(s.head, Reach(s), max)
    && (!s.prod.PIdle? ==> s.prod.op.first == Ceil(|s.published|))
    && (s.prod.PWrite? || s.prod.PPublish? ==> s.prod.op.xs != [] && Needed(s, s.prod.op) < Upcoming(s.prod.op))
    && (!s.prod.PIdle? ==> s.prod.op.xs != [])
  }

  ghost predicate LimitFits(max: int) { max == NO_LIMIT || (0 <= max && max % BLOCK_SIZE == 0) }

  lemma ConsumerWithin(s: State, a: Action, max: int)
    requires Enabled(s, a) && a.Consume? && Within(s, max)
    ensures Within(Next(s, a), max)
  {
    BlockTheorems.ConsumerFields(s, a.t, a.n);
    if s.cons[a.t].CIdle? {
      assert Next(s, a).head == s.head + a.n;
    }
  }

  lemma CheckWithin(s: State, a: Action, max: int)
    requires Enabled(s, a) && !a.Consume? && s.prod.PCheck? && Obeys(s, a, max) && Within(s, max) && LimitFits(max)
    ensures Within(Next(s, a), max)
  {
    hide Full;
    hide Room;
    var op := s.prod.op;
    if a.Fail? {
      RoomLess(s.head, Ceil(|s.published|), Upcoming(op), max);
    } else if Upcoming(op) <= Needed(s, op) {
      TestWithin(s.head, Upcoming(op), max);
    }
  }

  lemma TestWithin(head: nat, n: nat, max: int)
    requires Room(head, n, max) && LimitFits(max) && !Full(head, n, max) && head <= n * BLOCK_SIZE
    ensures Room(head, n + 1, max)
  {
    FullExactly(head, n, max);
  }

  /** The last block has been inserted before the elements are constructed and published. */
  lemma PublishWithin(s: State, op: Op, max: int)
    requires s.prod == PPublish(op) && Within(s, max)
    ensures Within(DoPublish(s, op), max)
  {
    hide Room;
    assert Ceil(|s.published| + |op.xs|) <= Upcoming(op);
    RoomLess(s.head, Ceil(|s.published| + |op.xs|), Upcoming(op), max);
  }

  /** A step that publishes nothing. */
  lemma ProducerWithin(s: State, a: Action, max: int)
    requires Enabled(s, a) && !a.Consume? && Obeys(s, a, max) && Within(s, max) && LimitFits(max)
    ensures Within(Next(s, a), max)
  {
    hide Room;
    hide Shape;
    hide Ceil;
    if s.prod.PCheck? {
      CheckWithin(s, a, max);
    } else if s.prod.PPublish? {
      PublishWithin(s, s.prod.op, max);
    } else {
      var s' := Next(s, a);
      OtherWithin(s, a);
      if !s.prod.PIdle? {
        RoomLess(s.head, Reach(s'), Reach(s), max);
      }
    }
  }

  /** What a step that publishes nothing and does not test for room leaves as it was. */
  ghost predicate Keeps(s: State, s': State) {
    && s'.published == s.published && s'.head == s.head
    && (s'.prod.PIdle? || s.prod.PIdle? || (s'.prod.op.xs == s.prod.op.xs && s'.prod.op.first == s.prod.op.first))
    && (s.prod.PIdle? ==> s'.prod.PCheck? && s'.prod.op.xs != [] && s'.prod.op.first == Ceil(|s.published|))
    && (s'.prod.PWrite? || s'.prod.PPublish? ==> s.prod.PWrite? && s'.prod.op == s.prod.op)
    && Reach(s') <= Reach(s)
  }

  predicate Inserting(p: Producer) {
    p.PIdle? || p.PTest? || p.PGrow? || p.PStoreKey? || p.PStoreTail? || p.PRequisition? || p.PStoreValue?
  }

  lemma InsertWithin(s: State, a: Action)
    requires Enabled(s, a) && !a.Consume? && Inserting(s.prod)
    requires !s.prod.PIdle? ==> s.prod.op.first == Ceil(|s.published|)
    ensures Keeps(s, Next(s, a))
  {
    hide Shape;
    hide LookupNow;
    hide Grown;
  }

  lemma UndoWithin(s: State, a: Action)
    requires Enabled(s, a) && !a.Consume? && !s.prod.PCheck? && !s.prod.PPublish? && !Inserting(s.prod)
    requires s.prod.op.first == Ceil(|s.published|)
    ensures Keeps(s, Next(s, a))
  {
    hide Shape;
    hide LookupNow;
    hide Grown;
  }

  lemma OtherWithin(s: State, a: Action)
    requires Enabled(s, a) && !a.Consume? && !s.prod.PCheck? && !s.prod.PPublish?
    requires !s.prod.PIdle? ==> s.prod.op.first == Ceil(|s.published|)
    ensures Keeps(s, Next(s, a))
  {
    hide Keeps;
    hide Next;
    if Inserting(s.prod) {
      InsertWithin(s, a);
    } else {
      UndoWithin(s, a);
    }
  }

  lemma {:induction false} RunWithin(run: seq<State>, max: int, i: nat)
    requires IsBoundedRun(run, max) && i < |run| && LimitFits(max)
    ensures Within(run[i], max)
  {
    hide BoundedStep;
    hide Within;
    if i == 0 {
      InitWithin(run[0], max);
    } else {
      RunWithin(run, max, i - 1);
      assert BoundedStep(run[i - 1], run[i - 1 + 1], max);
      StepWithin(run[i - 1], run[i], max);
    }
  }

  lemma InitWithin(s: State, max: int)
    requires Init(s) && LimitFits(max)
    ensures Within(s, max)
  {
  }

  lemma StepWithin(s: State, s': State, max: int)
    requires BoundedStep(s, s', max) && Within(s, max) && LimitFits(max)
    ensures Within(s', max)
  {
    hide Within;
    hide Next;
    var a: Action :| Enabled(s, a) && Obeys(s, a, max) && s' == Next(s, a);
    if a.Consume? {
      ConsumerWithin(s, a, max);
    } else {
      ProducerWithin(s, a, max);
    }
  }

  /**
   In every reachable state the tail is less than half the index range, and not more than the limit, ahead
   of the head; so the circular comparison of their words says whether there is an element.
  */
  lemma BoundedDistance(run: seq<State>, max: int, i: nat)
    requires IsBoundedRun(run, max) && i < |run| && LimitFits(max)
    ensures var s := run[i];
            && 0 <= |s.published| - s.head < HALF
            && (max != NO_LIMIT ==> |s.published| - s.head <= max)
            && (LessThan(Wrap(s.head), Wrap(|s.published|)) <==> s.head < |s.published|)
  {
    hide IsBoundedRun;
    RunWithin(run, max, i);
    var s := run[i];
    assert |s.published| <= Reach(s) * BLOCK_SIZE;
    LessThanSpan(s.head, |s.published|);
    Integers.Small(|s.published| - s.head, WORD);
  }

  /** Any two indices from the head up to the end of the last block compare as their words do. */
  lemma BoundedOrder(run: seq<State>, max: int, i: nat, x: nat, y: nat)
    requires IsBoundedRun(run, max) && i < |run| && LimitFits(max)
    requires run[i].head <= x <= Reach(run[i]) * BLOCK_SIZE && run[i].head <= y <= Reach(run[i]) * BLOCK_SIZE
    ensures LessThan(Wrap(x), Wrap(y)) <==> x < y
  {
    hide IsBoundedRun;
    RunWithin(run, max, i);
    AgreesExactly(x, y);
  }

  /** Such a run is a run: all that is proved of those holds of it. */
  lemma BoundedIsRun(run: seq<State>, max: int)
    requires IsBoundedRun(run, max)
    ensures IsRun(run)
  {
    forall i | 0 <= i < |run| - 1 ensures Step(run[i], run[i + 1]) {
      assert BoundedStep(run[i], run[i + 1], max);
      var a: Action :| Enabled(run[i], a) && Obeys(run[i], a, max) && run[i + 1] == Next(run[i], a);
    }
  }
}
