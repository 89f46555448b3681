/**
 The claim protocol and the block queue together: in place of the one step with which a consumer of
 BlockQueue claims indices, the operations of Claims on the four counters, interleaved with everything else.
 Whenever the protocol comes to claim n elements, the one step is possible and has the same effect; so what
 is proved of either holds of both at once.
*/
module ClaimRefinement {
  import opened Sums
  import opened BlockProducer
  import opened BlockShared
  import BlockQueue
  import BlockTheorems
  import Claims

  datatype State = State(claims: Claims.State, queue: BlockQueue.State)

  /** The next operation of a dequeue that has not claimed yet, or any other step of the queue. */
  datatype Action = Dequeue(t: nat, max: nat) | Other(a: BlockQueue.Action)

  /** What thread t is about to claim. */
  function Claiming(c: Claims.State, t: nat): nat
    requires t < |c.threads|
  {
    if c.threads[t].TakeHead? then c.threads[t].got else 0
  }

  predicate Enabled(s: State, a: Action) {
    match a
    case Dequeue(t, max) =>
      && t < |s.claims.threads| && t < |s.queue.cons| && Claims.Enabled(s.claims, Claims.Move(t, max))
      && (s.claims.threads[t].Idle? ==> s.queue.cons[t].CIdle?)
      && (Claiming(s.claims, t) > 0 ==> BlockQueue.Enabled(s.queue, BlockQueue.Consume(t, Claiming(s.claims, t))))
    case Other(b) => BlockQueue.Enabled(s.queue, b) && !(b.Consume? && s.queue.cons[b.t].CIdle?)
  }

  function Next(s: State, a: Action): State
    requires Enabled(s, a)
  {
    match a
    case Dequeue(t, max) =>
      var n := Claiming(s.claims, t);
      State(Claims.Next(s.claims, Claims.Move(t, max)),
            if n > 0 then BlockQueue.Next(s.queue, BlockQueue.Consume(t, n)) else s.queue)
    case Other(b) =>
      State(if !b.Consume? && s.queue.prod.PPublish?
            then Claims.Next(s.claims, Claims.Publish(|s.queue.prod.op.xs|)) else s.claims,
            BlockQueue.Next(s.queue, b))
  }

  ghost predicate Step(s: State, s': State) {
    exists a: Action :: Enabled(s, a) && s' == Next(s, a)
  }

  ghost predicate Init(s: State) {
    Claims.Init(s.claims) && BlockQueue.Init(s.queue) && |s.claims.threads| == |s.queue.cons|
  }

  ghost predicate IsRun(run: seq<State>) {
    && run != []
    && Init(run[0])
    && forall i :: 0 <= i < |run| - 1 ==> Step(run[i], run[i + 1])
  }

  /** The two have the same head and tail, and a consumer is in one of them at a time. */
  ghost predicate Coupled(s: State) {
    && s.claims.tail == |s.queue.published| && s.claims.head == s.queue.head
    && |s.claims.threads| == |s.queue.cons|
    && forall t :: 0 <= t < |s.claims.threads| && !s.claims.threads[t].Idle? ==> s.queue.cons[t].CIdle?
  }

  ghost predicate Inv(s: State) {
    Claims.Inv(s.claims) && Own(s.queue) && Shared(s.queue) && Coupled(s)
  }

  /** A consumer that has come to its claim can make it: there are as many elements as it was told. */
  lemma ClaimEnabled(s: State, t: nat)
    requires Inv(s) && t < |s.claims.threads| && Claiming(s.claims, t) > 0
    ensures BlockQueue.Enabled(s.queue, BlockQueue.Consume(t, Claiming(s.claims, t)))
  {
    Claims.InvHead(s.claims);
    SumUpdate(s.claims.threads, t, s.claims.threads[t], Claims.Due());
  }

  lemma StepCoupled(s: State, a: Action)
    requires Inv(s) && Enabled(s, a)
    ensures Coupled(Next(s, a))
  {
    hide Own;
    hide Shared;
    hide Claims.Inv;
    if a.Other? {
      OtherCoupled(s, a.a);
    } else {
      ClaimCoupled(s, a.t, a.max);
    }
  }

  lemma ClaimCoupled(s: State, t: nat, max: nat)
    requires Coupled(s) && Enabled(s, Dequeue(t, max))
    ensures Coupled(Next(s, Dequeue(t, max)))
  {
  }

  lemma OtherCoupled(s: State, a: BlockQueue.Action)
    requires Coupled(s) && Enabled(s, Other(a))
    ensures Coupled(Next(s, Other(a)))
  {
    if a.Consume? {
      BlockTheorems.ConsumerFields(s.queue, a.t, a.n);
      ConsumerMoves(s.queue, a.t, a.n);
      hide BlockQueue.Next;
    } else {
      ProducerMoves(s.queue, a);
      hide BlockQueue.Next;
    }
  }

  /** A consumer that has claimed moves alone, and the head does not. */
  ghost predicate AloneMoves(q: BlockQueue.State, q': BlockQueue.State, t: nat) {
    && q'.head == q.head && |q'.cons| == |q.cons|
    && forall u :: 0 <= u < |q.cons| && u != t ==> q'.cons[u] == q.cons[u]
  }

  lemma SeekerMoves(q: BlockQueue.State, t: nat, n: nat)
    requires BlockQueue.Enabled(q, BlockQueue.Consume(t, n))
    requires q.cons[t].CHeader? || q.cons[t].CTail? || q.cons[t].CKey? || q.cons[t].CEntry?
    ensures AloneMoves(q, BlockQueue.Next(q, BlockQueue.Consume(t, n)), t)
  {
  }

  lemma WorkerMoves(q: BlockQueue.State, t: nat, n: nat)
    requires BlockQueue.Enabled(q, BlockQueue.Consume(t, n))
    requires q.cons[t].CMove? || q.cons[t].CCount? || q.cons[t].CNull? || q.cons[t].CFree?
    ensures AloneMoves(q, BlockQueue.Next(q, BlockQueue.Consume(t, n)), t)
  {
  }

  lemma ConsumerMoves(q: BlockQueue.State, t: nat, n: nat)
    requires BlockQueue.Enabled(q, BlockQueue.Consume(t, n)) && !q.cons[t].CIdle?
    ensures AloneMoves(q, BlockQueue.Next(q, BlockQueue.Consume(t, n)), t)
  {
    hide BlockQueue.Next;
    hide AloneMoves;
    if q.cons[t].CHeader? || q.cons[t].CTail? || q.cons[t].CKey? || q.cons[t].CEntry? {
      SeekerMoves(q, t, n);
    } else {
      WorkerMoves(q, t, n);
    }
  }

  ghost predicate SameQueue(q: BlockQueue.State, q': BlockQueue.State) {
    q'.head == q.head && q'.cons == q.cons && q'.published == q.published
  }

  lemma UndoMoves(q: BlockQueue.State, op: BlockQueue.Op, j: nat)
    ensures SameQueue(q, BlockQueue.Undo(q, op, j)) && SameQueue(q, BlockQueue.GiveBack(q, op, j))
  {
  }

  predicate Inserting(p: BlockQueue.Producer) {
    p.PTest? || p.PGrow? || p.PStoreKey? || p.PStoreTail? || p.PRequisition? || p.PStoreValue?
  }

  lemma InsertMoves(q: BlockQueue.State, a: BlockQueue.Action)
    requires BlockQueue.Enabled(q, a) && !a.Consume? && Inserting(q.prod)
    ensures SameQueue(q, BlockQueue.Next(q, a))
  {
    if q.prod.PGrow? {
      UndoMoves(q, q.prod.op, 0);
    }
    hide BlockQueue.Undo;
    hide BlockQueue.Grown;
    hide BlockQueue.Shape;
  }

  lemma RollBackMoves(q: BlockQueue.State, a: BlockQueue.Action)
    requires BlockQueue.Enabled(q, a) && !a.Consume?
    requires q.prod.PClear? || q.prod.PUndoValue? || q.prod.PUndoTail? || q.prod.PGiveBack?
    ensures SameQueue(q, BlockQueue.Next(q, a))
  {
    hide BlockQueue.LookupNow;
    hide BlockQueue.Shape;
  }

  lemma ProducerMoves(q: BlockQueue.State, a: BlockQueue.Action)
    requires BlockQueue.Enabled(q, a) && !a.Consume?
    ensures var q' := BlockQueue.Next(q, a);
            && q'.head == q.head && q'.cons == q.cons
            && q'.published == if q.prod.PPublish? then q.published + q.prod.op.xs else q.published
  {
    if Inserting(q.prod) {
      InsertMoves(q, a);
      hide BlockQueue.Next;
    } else if q.prod.PClear? || q.prod.PUndoValue? || q.prod.PUndoTail? || q.prod.PGiveBack? {
      RollBackMoves(q, a);
      hide BlockQueue.Next;
    } else {
      CalmMoves(q, a);
      hide BlockQueue.Next;
    }
  }

  lemma CalmMoves(q: BlockQueue.State, a: BlockQueue.Action)
    requires BlockQueue.Enabled(q, a) && !a.Consume?
    requires q.prod.PIdle? || q.prod.PCheck? || q.prod.PRewind? || q.prod.PWrite? || q.prod.PPublish?
    ensures var q' := BlockQueue.Next(q, a);
            && q'.head == q.head && q'.cons == q.cons
            && q'.published == if q.prod.PPublish? then q.published + q.prod.op.xs else q.published
  {
    if q.prod.PCheck? {
      UndoMoves(q, q.prod.op, 0);
    }
    hide BlockQueue.Undo;
    hide BlockQueue.Shape;
  }

  lemma StepInv(s: State, s': State)
    requires Inv(s) && Step(s, s')
    ensures Inv(s')
  {
    var a: Action :| Enabled(s, a) && s' == Next(s, a);
    StepCoupled(s, a);
    StepProjects(s, s');
    hide Own;
    hide Shared;
    hide Claims.Inv;
    hide Claims.Step;
    hide BlockQueue.Step;
    if s'.claims != s.claims {
      Claims.StepInv(s.claims, s'.claims);
    }
    if s'.queue != s.queue {
      BlockTheorems.StepInv(s.queue, s'.queue);
    }
  }

  /** Every step is one of the protocol, or none, and one of the queue, or none. */
  lemma StepProjects(s: State, s': State)
    requires Step(s, s')
    ensures s'.claims == s.claims || Claims.Step(s.claims, s'.claims)
    ensures s'.queue == s.queue || BlockQueue.Step(s.queue, s'.queue)
  {
    hide Claims.Next;
    hide BlockQueue.Next;
  }

  lemma {:induction false} RunInv(run: seq<State>, i: nat)
    requires IsRun(run) && i < |run|
    ensures Inv(run[i])
  {
    hide Inv;
    hide Step;
    if i == 0 {
      InitInv(run[0]);
    } else {
      RunInv(run, i - 1);
      assert Step(run[i - 1], run[i - 1 + 1]);
      StepInv(run[i - 1], run[i]);
    }
  }

  lemma InitInv(s: State)
    requires Init(s)
    ensures Inv(s)
  {
    hide Own;
    hide Shared;
    Claims.InitInv(s.claims);
    BlockTheorems.RunInv([s.queue], 0);
  }

  /**
   The protocol on the counters implements the one-step claim: whatever the interleaving, a thread that comes
   to claim n elements finds n published and unclaimed ones at the head, and its claim is the queue's step,
   which makes them its own, from the head of the queue on.
  */
  lemma ClaimRefines(run: seq<State>, i: nat, t: nat, max: nat)
    requires IsRun(run) && i < |run| && t < |run[i].claims.threads| && Claiming(run[i].claims, t) > 0
    ensures var s := run[i]; var n := Claiming(s.claims, t);
            && Enabled(s, Dequeue(t, max))
            && s.claims.head == s.queue.head && s.queue.head + n <= |s.queue.published|
            && var s' := Next(s, Dequeue(t, max));
               && s'.queue == BlockQueue.Next(s.queue, BlockQueue.Consume(t, n))
               && s'.claims.claims == s.claims.claims + [Claims.Claim(t, s.queue.head, n)]
               && s'.queue.cons[t] == BlockQueue.CHeader(s.queue.head, s.queue.head + n)
               && s'.queue.head == s'.claims.head == s.queue.head + n
  {
    hide IsRun;
    RunInv(run, i);
    ClaimEnabled(run[i], t);
    Claims.InvHead(run[i].claims);
    SumUpdate(run[i].claims.threads, t, run[i].claims.threads[t], Claims.Due());
  }

  /** A dequeue that has not claimed yet can always go on, and a thread in neither can begin one. */
  lemma DequeueEnabled(run: seq<State>, i: nat, t: nat, max: nat)
    requires IsRun(run) && i < |run| && t < |run[i].claims.threads| && t < |run[i].queue.cons|
    requires run[i].queue.cons[t].CIdle?
    ensures Enabled(run[i], Dequeue(t, max))
  {
    hide IsRun;
    RunInv(run, i);
    if Claiming(run[i].claims, t) > 0 {
      ClaimEnabled(run[i], t);
    }
    assert Claims.ThreadInv(run[i].claims, t);
  }
}
