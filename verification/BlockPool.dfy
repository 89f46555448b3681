/**
 The pool of blocks that all implicit producers of a queue share: the blocks allocated with the queue,
 handed out one by one by a counter, the free list, and the allocator. Any number of threads call
 requisition_block and add_block_to_free_list while any number of producers take blocks and let them go.
 The free list is that of FreeList, each producer a state of BlockQueue; what is new here is the counter,
 and that a block which a producer takes is one that some thread has just been given.
*/
module BlockPool {
  import opened Sums
  import opened BlockInv
  import opened BlockProducer
  import opened BlockShared
  import BlockQueue
  import BlockTheorems
  import FreeList
  import FreeListCalls

  const WORD := 0x1_0000_0000_0000_0000

  // -------------------------------------------------------------------
  // State
  // -------------------------------------------------------------------

  /** Where a thread stands in requisition_block. */
  datatype Ask =
    | NoAsk
    | CheckIndex       // initialBlockPoolIndex.load
    | TakeIndex        // initialBlockPoolIndex.fetch_add
    | Search           // before try_get
    | Searching        // inside it
    | Create           // create<Block>

  /**
   Nodes 0 .. poolSize of the list are the blocks allocated with the queue; `created` is the next node that
   create<Block> returns, and there are as many nodes as memory has room for. In `list.threads` come first
   the producers, each owning the blocks it has in use, then the reserve, owning the blocks never issued,
   then the threads. `issued` is the history of what the counter and the allocator gave out.
  */
  datatype State = State(list: FreeList.State, poolIndex: nat, poolSize: nat, created: nat,
                         queues: seq<BlockQueue.State>, asks: seq<Ask>, issued: seq<nat>)

  datatype Action =
    | AskFor(w: nat)                                            // thread w calls requisition_block
    | Move(w: nat, call: FreeList.Call, memory: bool)           // its next operation; an idle one may add a block
    | Use(p: nat, a: BlockQueue.Action)                         // producer p, or one of its consumers
    | Take(p: nat, w: nat, k: nat, garbage: BlockQueue.Block)   // producer p gets block k from thread w
    | Give(p: nat, w: nat, a: BlockQueue.Action)                // it lets a block go, to thread w

  function Reserve(s: State): nat { |s.queues| }

  /** The place of thread w in the list. */
  function At(s: State, w: nat): nat { |s.queues| + 1 + w }

  predicate Shaped(s: State) {
    |s.list.threads| == |s.queues| + 1 + |s.asks|
  }

  // -------------------------------------------------------------------
  // Steps
  // -------------------------------------------------------------------

  /** Thread w is inside neither requisition_block nor add. */
  predicate Free(s: State, w: nat)
    requires Shaped(s)
  {
    w < |s.asks| && s.asks[w].NoAsk? && s.list.threads[At(s, w)].pc.Idle?
  }

  /** The block that this action of a producer or consumer hands back. */
  function Dropped(q: BlockQueue.State, a: BlockQueue.Action): (k: int)
    requires BlockQueue.Enabled(q, a)
  {
    if a.Consume? then
      if q.cons[a.t].CFree? then q.cons[a.t].k else -1
    else if q.prod.PGiveBack? then q.prod.op.news[q.prod.j] else -1
  }

  predicate Takes(q: BlockQueue.State, a: BlockQueue.Action) {
    a.Alloc? && q.prod.PRequisition?
  }

  predicate MoveEnabled(s: State, w: nat, call: FreeList.Call)
    requires Shaped(s)
  {
    && w < |s.asks|
    && match s.asks[w]
       case NoAsk => FreeList.Enabled(s.list, At(s, w), call) && (s.list.threads[At(s, w)].pc.Idle? ==> call.Add?)
       case Search => FreeList.Enabled(s.list, At(s, w), FreeList.Get)
       case Searching => FreeList.Enabled(s.list, At(s, w), call) && !s.list.threads[At(s, w)].pc.Idle?
       case _ => true
  }

  predicate Enabled(s: State, a: Action) {
    && Shaped(s)
    && match a
       case AskFor(w) => Free(s, w)
       case Move(w, call, _) => MoveEnabled(s, w, call)
       case Use(p, b) => p < |s.queues| && BlockQueue.Enabled(s.queues[p], b)
                         && !Takes(s.queues[p], b) && Dropped(s.queues[p], b) < 0
       case Take(p, w, k, garbage) =>
         && p < |s.queues| && Free(s, w) && k in s.list.threads[At(s, w)].owned
         && Takes(s.queues[p], BlockQueue.Alloc(k, garbage)) && BlockQueue.Enabled(s.queues[p], BlockQueue.Alloc(k, garbage))
       case Give(p, w, b) =>
         p < |s.queues| && Free(s, w) && BlockQueue.Enabled(s.queues[p], b) && Dropped(s.queues[p], b) >= 0
  }

  /** Block n, never issued before, goes to thread w. */
  function Issue(s: State, w: nat, n: nat): State
    requires Shaped(s) && w < |s.asks|
  {
    s.(list := FreeList.HandOver(s.list, Reserve(s), At(s, w), n), asks := s.asks[w := NoAsk], issued := s.issued + [n])
  }

  function ListMove(s: State, w: nat, call: FreeList.Call): FreeList.State
    requires Shaped(s) && FreeList.Enabled(s.list, At(s, w), call)
  {
    FreeList.Next(s.list, At(s, w), call)
  }

  function NextMove(s: State, w: nat, call: FreeList.Call, memory: bool): State
    requires Shaped(s) && MoveEnabled(s, w, call)
  {
    match s.asks[w]
    case NoAsk => s.(list := ListMove(s, w, call))
    case CheckIndex => s.(asks := s.asks[w := if s.poolIndex >= s.poolSize then Search else TakeIndex])
    case TakeIndex =>
      var index := s.poolIndex;
      var s1 := s.(poolIndex := (index + 1) % WORD);
      if index < s.poolSize then Issue(s1, w, index) else s1.(asks := s.asks[w := Search])
    case Search => s.(list := ListMove(s, w, FreeList.Get), asks := s.asks[w := Searching])
    case Searching =>
      var list' := ListMove(s, w, call);
      s.(list := list',
         asks := s.asks[w := if !list'.threads[At(s, w)].pc.Idle? then Searching
                             else if s.list.threads[At(s, w)].pc.Release? then NoAsk  // try_get returns the block
                             else Create])
    case Create =>
      if memory && s.created < |s.list.nodes| then Issue(s.(created := s.created + 1), w, s.created)
      else s.(asks := s.asks[w := NoAsk])
  }

  function SetQueue(s: State, p: nat, b: BlockQueue.Action): State
    requires p < |s.queues| && BlockQueue.Enabled(s.queues[p], b)
  {
    s.(queues := s.queues[p := BlockQueue.Next(s.queues[p], b)])
  }

  function Next(s: State, a: Action): State
    requires Enabled(s, a)
  {
    match a
    case AskFor(w) => s.(asks := s.asks[w := CheckIndex])
    case Move(w, call, memory) => NextMove(s, w, call, memory)
    case Use(p, b) => SetQueue(s, p, b)
    case Take(p, w, k, garbage) =>
      SetQueue(s, p, BlockQueue.Alloc(k, garbage)).(list := FreeList.HandOver(s.list, At(s, w), p, k))
    case Give(p, w, b) =>
      SetQueue(s, p, b).(list := FreeList.HandOver(s.list, p, At(s, w), Dropped(s.queues[p], b)))
  }

  ghost predicate Step(s: State, s': State) {
    exists a: Action :: Enabled(s, a) && s' == Next(s, a)
  }

  /** A new queue: producers without blocks, threads in no call, and every block in the reserve. */
  ghost predicate Init(s: State) {
    && Shaped(s) && |s.list.threads| < 0x4000_0000 - 1
    && s.poolIndex == 0 && s.poolSize == s.created <= |s.list.nodes| && s.poolSize + |s.asks| < WORD
    && s.list.head == FreeList.Null && s.issued == []
    && (forall n :: 0 <= n < |s.list.nodes| ==> s.list.nodes[n] == FreeList.Node(0, FreeList.Null))
    && (forall t :: 0 <= t < |s.list.threads| ==>
          s.list.threads[t].pc == FreeList.Idle && (t != Reserve(s) ==> s.list.threads[t].owned == {}))
    && (forall n: nat :: n in s.list.threads[Reserve(s)].owned <==> n < |s.list.nodes|)
    && (forall p :: 0 <= p < |s.queues| ==> BlockQueue.Init(s.queues[p]))
    && (forall w :: 0 <= w < |s.asks| ==> s.asks[w] == NoAsk)
  }

  ghost predicate IsRun(run: seq<State>) {
    && run != []
    && Init(run[0])
    && forall i :: 0 <= i < |run| - 1 ==> Step(run[i], run[i + 1])
  }

  // -------------------------------------------------------------------
  // Invariant
  // -------------------------------------------------------------------

  /** The counter, or the allocator, has not come to block n yet. */
  predicate NeverIssued(s: State, n: nat) {
    n < |s.list.nodes| && if n < s.poolSize then s.poolIndex <= n else s.created <= n
  }

  ghost predicate ProducerOwns(s: State, p: nat)
    requires Shaped(s) && p < |s.queues|
  {
    s.list.threads[p].pc.Idle? && s.list.threads[p].owned == s.queues[p].blocks.Keys
  }

  ghost predicate ReserveOwns(s: State)
    requires Shaped(s)
  {
    && s.list.threads[Reserve(s)].pc.Idle?
    && forall n: nat :: n in s.list.threads[Reserve(s)].owned <==> NeverIssued(s, n)
  }

  ghost predicate AskInv(s: State, w: nat)
    requires Shaped(s) && w < |s.asks|
  {
    && (!s.asks[w].NoAsk? && !s.asks[w].Searching? ==> s.list.threads[At(s, w)].pc.Idle?)
    && (s.asks[w].Searching? ==> FreeListCalls.Getting(s.list.threads[At(s, w)].pc))
    && (PastPool(s.asks[w]) ==> s.poolIndex >= s.poolSize)
  }

  /** The thread has gone on from the pool allocated with the queue. */
  predicate PastPool(a: Ask) { a.Search? || a.Searching? || a.Create? }

  ghost function Taking(): Ask -> nat { (a: Ask) => if a.TakeIndex? then 1 else 0 }

  /** Every thread can take the counter past the pool once only, so the word does not wrap. */
  ghost predicate CounterInv(s: State) {
    && s.poolSize + |s.asks| < WORD
    && s.poolIndex + Sum(s.asks, Taking()) <= s.poolSize + |s.asks|
    && s.poolSize <= s.created <= |s.list.nodes|
    && (s.poolSize < s.created ==> s.poolIndex >= s.poolSize)
  }

  ghost predicate IssuedInv(s: State) {
    && (forall i, j :: 0 <= i < j < |s.issued| ==> s.issued[i] != s.issued[j])
    && (forall n: nat :: n in s.issued <==> n < |s.list.nodes| && !NeverIssued(s, n))
  }

  ghost predicate OwnedExist(list: FreeList.State) {
    forall t, n: nat :: 0 <= t < |list.threads| && n in list.threads[t].owned ==> n < |list.nodes|
  }

  ghost predicate Inv(s: State) {
    && Shaped(s) && FreeList.Inv(s.list) && OwnedExist(s.list)
    && (forall p :: 0 <= p < |s.queues| ==> ProducerOwns(s, p))
    && (forall p :: 0 <= p < |s.queues| ==> Own(s.queues[p]) && Shared(s.queues[p]))
    && ReserveOwns(s)
    && (forall w :: 0 <= w < |s.asks| ==> AskInv(s, w))
    && CounterInv(s) && IssuedInv(s)
  }

  lemma InitOwners(s: State, n: nat)
    requires Init(s) && n < |s.list.nodes|
    ensures Sum(s.list.threads, FreeList.OwnerOf(n)) == 1
  {
    hide BlockQueue.Init;
    var r := Reserve(s);
    SumSplit(s.list.threads, r, FreeList.OwnerOf(n));
    SumZero(s.list.threads[..r], FreeList.OwnerOf(n));
    SumZero(s.list.threads[r + 1..], FreeList.OwnerOf(n));
  }

  lemma InitQueues(s: State)
    requires Init(s)
    ensures forall p :: 0 <= p < |s.queues| ==> Own(s.queues[p]) && Shared(s.queues[p]) && s.queues[p].blocks == map[]
  {
    hide Own;
    hide Shared;
    forall p | 0 <= p < |s.queues| ensures Own(s.queues[p]) && Shared(s.queues[p]) && s.queues[p].blocks == map[] {
      BlockTheorems.RunInv([s.queues[p]], 0);
    }
  }

  lemma InitInv(s: State)
    requires Init(s)
    ensures Inv(s)
  {
    InitQueues(s);
    hide Own;
    hide Shared;
    hide BlockQueue.Init;
    hide FreeList.InvWith;
    forall n: nat | n < |s.list.nodes| ensures Sum(s.list.threads, FreeList.OwnerOf(n)) == 1 {
      InitOwners(s, n);
    }
    FreeList.InitInv(s.list);
    SumZero(s.asks, Taking());
  }

  // -------------------------------------------------------------------
  // The counter
  // -------------------------------------------------------------------

  lemma AskCounter(s: State, s': State, w: nat)
    requires CounterInv(s) && w < |s.asks| && |s'.asks| == |s.asks| && s'.asks == s.asks[w := s'.asks[w]]
    requires s'.list.nodes == s.list.nodes || |s'.list.nodes| == |s.list.nodes|
    requires s'.poolSize == s.poolSize && s.created <= s'.created <= |s.list.nodes| && s.poolIndex <= s'.poolIndex
    requires s.created < s'.created ==> s.poolIndex >= s.poolSize
    requires s'.poolIndex + Taking()(s'.asks[w]) <= s.poolIndex + Taking()(s.asks[w])
             || (s.poolIndex < s.poolSize && s'.poolIndex == s.poolIndex)
    ensures CounterInv(s')
  {
    SumUpdate(s.asks, w, s'.asks[w], Taking());
    AtMostOne(s'.asks);
  }

  lemma {:induction false} AtMostOne(asks: seq<Ask>)
    ensures Sum(asks, Taking()) <= |asks|
  {
    if asks != [] {
      AtMostOne(asks[..|asks| - 1]);
    }
  }

  /** The counter of a thread about to take it is not at the end of its word. */
  lemma NoWrap(s: State, w: nat)
    requires CounterInv(s) && w < |s.asks| && s.asks[w].TakeIndex?
    ensures (s.poolIndex + 1) % WORD == s.poolIndex + 1
  {
    SumUpdate(s.asks, w, s.asks[w], Taking());
  }

  // -------------------------------------------------------------------
  // The list moves
  // -------------------------------------------------------------------

  lemma ListMoveInv(s: State, w: nat, call: FreeList.Call)
    requires Inv(s) && w < |s.asks| && FreeList.Enabled(s.list, At(s, w), call)
    ensures var list' := ListMove(s, w, call);
            && FreeList.Inv(list') && OwnedExist(list')
            && |list'.threads| == |s.list.threads| && |list'.nodes| == |s.list.nodes|
            && forall t :: 0 <= t < |list'.threads| && t != At(s, w) ==> list'.threads[t] == s.list.threads[t]
  {
    hide Own;
    hide Shared;
    var list' := ListMove(s, w, call);
    assert FreeList.Step(s.list, list');
    FreeList.StepInv(s.list, list');
    FreeList.StepNodes(s.list, At(s, w), call);
    NextOwned(s.list, At(s, w), call);
  }

  /** A thread owns what it owned, less what it adds, and what it takes. */
  lemma NextOwned(list: FreeList.State, t: nat, call: FreeList.Call)
    requires FreeList.Enabled(list, t, call)
    ensures |FreeList.Next(list, t, call).threads| == |list.threads|
    ensures forall n: nat :: n in FreeList.Next(list, t, call).threads[t].owned ==> n in list.threads[t].owned || n < |list.nodes|
  {
  }

  /** A state that differs in the list, of which only thread w has moved, and in what w asks. */
  lemma MovedInv(s: State, s': State, w: nat)
    requires Inv(s) && w < |s.asks| && Shaped(s') && |s'.asks| == |s.asks| && s'.asks == s.asks[w := s'.asks[w]]
    requires s'.queues == s.queues && s'.issued == s.issued && s'.poolSize == s.poolSize && s'.created == s.created
    requires s'.poolIndex == s.poolIndex || (s.poolSize <= s.poolIndex < s'.poolIndex)
    requires FreeList.Inv(s'.list) && OwnedExist(s'.list) && |s'.list.nodes| == |s.list.nodes|
    requires forall t :: 0 <= t < |s.list.threads| && t != At(s, w) ==> s'.list.threads[t] == s.list.threads[t]
    requires AskInv(s', w) && CounterInv(s')
    ensures Inv(s')
  {
    hide Own;
    hide Shared;
    hide FreeList.Inv;
    hide CounterInv;
    assert forall n :: NeverIssued(s', n) <==> NeverIssued(s, n);
    forall p | 0 <= p < |s'.queues| ensures ProducerOwns(s', p) {
      assert ProducerOwns(s, p);
    }
    assert ReserveOwns(s);
    forall v | 0 <= v < |s'.asks| ensures AskInv(s', v) {
      assert AskInv(s, v);
    }
  }

  // -------------------------------------------------------------------
  // Blocks are issued
  // -------------------------------------------------------------------

  /** s1 is a state whose counter, or allocator, has just come past block n; the rest is as in s. */
  lemma IssueInv(s: State, s1: State, w: nat, n: nat)
    requires Inv(s) && w < |s.asks| && NeverIssued(s, n) && s.list.threads[At(s, w)].pc.Idle?
    requires s1 == s.(poolIndex := s1.poolIndex, created := s1.created) && s.poolIndex <= s1.poolIndex
    requires forall m: nat :: NeverIssued(s1, m) <==> NeverIssued(s, m) && m != n
    requires CounterInv(Issue(s1, w, n))
    ensures Inv(Issue(s1, w, n))
  {
    hide Own;
    hide Shared;
    hide FreeList.Inv;
    hide CounterInv;
    var s' := Issue(s1, w, n);
    assert ReserveOwns(s);
    FreeList.HandOverInv(s.list, Reserve(s), At(s, w), n);
    assert FreeList.HandOver(s.list, Reserve(s), At(s, w), n) == s'.list;
    forall p | 0 <= p < |s'.queues| ensures ProducerOwns(s', p) {
      assert ProducerOwns(s, p);
    }
    FreeList.InvOneOwner(s.list, Reserve(s), At(s, w), n);
    forall v | 0 <= v < |s'.asks| ensures AskInv(s', v) {
      assert AskInv(s, v);
    }
  }

  lemma StepAsk(s: State, w: nat)
    requires Inv(s) && Enabled(s, AskFor(w))
    ensures Inv(Next(s, AskFor(w)))
  {
    hide Own;
    hide Shared;
    hide FreeList.Inv;
    hide OwnedExist;
    var s' := Next(s, AskFor(w));
    AskCounter(s, s', w);
    MovedInv(s, s', w);
  }

  /** A try_get goes on until it returns. */
  lemma StaysInGet(s: State, w: nat, call: FreeList.Call)
    requires Shaped(s) && MoveEnabled(s, w, call) && AskInv(s, w)
    ensures s.asks[w].Search? ==>
              var list' := ListMove(s, w, FreeList.Get);
              |list'.threads| == |s.list.threads| && FreeListCalls.Getting(list'.threads[At(s, w)].pc)
    ensures s.asks[w].Searching? ==>
              var list' := ListMove(s, w, call);
              && |list'.threads| == |s.list.threads|
              && (list'.threads[At(s, w)].pc.Idle? || FreeListCalls.Getting(list'.threads[At(s, w)].pc))
  {
    if s.asks[w].Searching? {
      FreeListCalls.GettingGoesOn(s.list, At(s, w), call);
    }
  }

  /** An operation on the list. */
  lemma StepList(s: State, w: nat, call: FreeList.Call, memory: bool)
    requires Inv(s) && Enabled(s, Move(w, call, memory))
    requires s.asks[w].NoAsk? || s.asks[w].Search? || s.asks[w].Searching?
    ensures Inv(Next(s, Move(w, call, memory)))
  {
    hide Own;
    hide Shared;
    hide FreeList.Inv;
    hide OwnedExist;
    hide FreeList.Next;
    hide FreeList.Enabled;
    var s' := Next(s, Move(w, call, memory));
    ListMoveInv(s, w, if s.asks[w].Search? then FreeList.Get else call);
    assert AskInv(s, w);
    StaysInGet(s, w, call);
    AskCounter(s, s', w);
    MovedInv(s, s', w);
  }

  /** An operation on the counter. */
  lemma StepCounter(s: State, w: nat, call: FreeList.Call, memory: bool)
    requires Inv(s) && Enabled(s, Move(w, call, memory))
    requires s.asks[w].CheckIndex? || s.asks[w].TakeIndex?
    ensures Inv(Next(s, Move(w, call, memory)))
  {
    hide Own;
    hide Shared;
    hide FreeList.Inv;
    hide OwnedExist;
    var s' := Next(s, Move(w, call, memory));
    assert AskInv(s, w);
    if s.asks[w].TakeIndex? {
      NoWrap(s, w);
    }
    AskCounter(s, s', w);
    if s.asks[w].TakeIndex? && s.poolIndex < s.poolSize {
      IssueInv(s, s.(poolIndex := s.poolIndex + 1), w, s.poolIndex);
    } else {
      MovedInv(s, s', w);
    }
  }

  /** The allocator. */
  lemma StepCreate(s: State, w: nat, call: FreeList.Call, memory: bool)
    requires Inv(s) && Enabled(s, Move(w, call, memory)) && s.asks[w].Create?
    ensures Inv(Next(s, Move(w, call, memory)))
  {
    hide Own;
    hide Shared;
    hide FreeList.Inv;
    hide OwnedExist;
    var s' := Next(s, Move(w, call, memory));
    assert AskInv(s, w);
    AskCounter(s, s', w);
    if memory && s.created < |s.list.nodes| {
      IssueInv(s, s.(created := s.created + 1), w, s.created);
    } else {
      MovedInv(s, s', w);
    }
  }

  lemma StepMove(s: State, w: nat, call: FreeList.Call, memory: bool)
    requires Inv(s) && Enabled(s, Move(w, call, memory))
    ensures Inv(Next(s, Move(w, call, memory)))
  {
    hide Inv;
    hide Next;
    match s.asks[w]
    case CheckIndex => StepCounter(s, w, call, memory);
    case TakeIndex => StepCounter(s, w, call, memory);
    case Create => StepCreate(s, w, call, memory);
    case _ => StepList(s, w, call, memory);
  }

  // -------------------------------------------------------------------
  // Producers take blocks and let them go
  // -------------------------------------------------------------------

  ghost predicate KeysAfter(q: BlockQueue.State, a: BlockQueue.Action, q': BlockQueue.State)
    requires BlockQueue.Enabled(q, a)
  {
    if Takes(q, a) then a.k !in q.blocks && q'.blocks.Keys == q.blocks.Keys + {a.k}
    else if Dropped(q, a) >= 0 then
      Dropped(q, a) in q.blocks && q'.blocks.Keys == q.blocks.Keys - {Dropped(q, a)}
    else q'.blocks.Keys == q.blocks.Keys
  }

  lemma ConsumerKeys(q: BlockQueue.State, a: BlockQueue.Action)
    requires BlockQueue.Enabled(q, a) && a.Consume? && (Dropped(q, a) >= 0 ==> Dropped(q, a) in q.blocks)
    ensures KeysAfter(q, a, BlockQueue.NextConsumer(q, a.t, a.n))
  {
  }

  lemma ProducerKeys(q: BlockQueue.State, a: BlockQueue.Action)
    requires BlockQueue.Enabled(q, a) && !a.Consume? && (Dropped(q, a) >= 0 ==> Dropped(q, a) in q.blocks)
    ensures KeysAfter(q, a, BlockQueue.NextProducer(q, a))
  {
  }

  /** A step of a producer or of a consumer takes the block it is given, or lets one go that is in use, or does neither. */
  lemma StepKeys(q: BlockQueue.State, a: BlockQueue.Action)
    requires Shared(q) && BlockQueue.Enabled(q, a)
    ensures KeysAfter(q, a, BlockQueue.Next(q, a))
  {
    hide BlockQueue.NextProducer;
    hide BlockQueue.NextConsumer;
    if Dropped(q, a) >= 0 {
      DroppedInUse(q, a);
    }
    hide Shared;
    if a.Consume? {
      ConsumerKeys(q, a);
    } else {
      ProducerKeys(q, a);
    }
  }

  lemma DroppedInUse(q: BlockQueue.State, a: BlockQueue.Action)
    requires Shared(q) && BlockQueue.Enabled(q, a) && Dropped(q, a) >= 0
    ensures Dropped(q, a) in q.blocks
  {
    var k: nat := Dropped(q, a);
    assert PlaceInv(q, k);
    if a.Consume? {
      SumUpdate(q.cons, a.t, q.cons[a.t], Freeing(k));
    } else {
      assert InHand(q.prod, k);
    }
  }

  lemma QueueInv(s: State, p: nat, a: BlockQueue.Action)
    requires Inv(s) && p < |s.queues| && BlockQueue.Enabled(s.queues[p], a)
    ensures var s' := SetQueue(s, p, a); forall r :: 0 <= r < |s'.queues| ==> Own(s'.queues[r]) && Shared(s'.queues[r])
  {
    hide Own;
    hide Shared;
    hide FreeList.Inv;
    hide BlockQueue.Next;
    hide BlockQueue.Enabled;
    var q := s.queues[p];
    assert BlockQueue.Step(q, BlockQueue.Next(q, a));
    BlockTheorems.StepInv(q, BlockQueue.Next(q, a));
  }

  lemma StepUse(s: State, p: nat, a: BlockQueue.Action)
    requires Inv(s) && Enabled(s, Use(p, a))
    ensures Inv(Next(s, Use(p, a)))
  {
    QueueInv(s, p, a);
    StepKeys(s.queues[p], a);
    hide Own;
    hide Shared;
    hide FreeList.Inv;
    hide BlockQueue.Next;
    hide BlockQueue.Enabled;
    var s' := Next(s, Use(p, a));
    assert forall n :: NeverIssued(s', n) <==> NeverIssued(s, n);
    assert ReserveOwns(s);
    forall r | 0 <= r < |s'.queues| ensures ProducerOwns(s', r) {
      assert ProducerOwns(s, r);
    }
    forall w | 0 <= w < |s'.asks| ensures AskInv(s', w) {
      assert AskInv(s, w);
    }
  }

  /** A block passes between producer p and thread w. */
  lemma PassInv(s: State, s': State, p: nat, w: nat, k: nat)
    requires Inv(s) && p < |s.queues| && Free(s, w) && k < |s.list.nodes|
    requires s' == s.(queues := s'.queues, list := s'.list) && |s'.queues| == |s.queues|
    requires forall r :: 0 <= r < |s.queues| && r != p ==> s'.queues[r] == s.queues[r]
    requires forall r :: 0 <= r < |s'.queues| ==> Own(s'.queues[r]) && Shared(s'.queues[r])
    requires || (&& k in s.list.threads[At(s, w)].owned && s'.list == FreeList.HandOver(s.list, At(s, w), p, k)
                && s'.queues[p].blocks.Keys == s.queues[p].blocks.Keys + {k})
             || (&& k in s.list.threads[p].owned && s'.list == FreeList.HandOver(s.list, p, At(s, w), k)
                && s'.queues[p].blocks.Keys == s.queues[p].blocks.Keys - {k})
    ensures Inv(s')
  {
    hide Own;
    hide Shared;
    hide FreeList.Inv;
    assert forall n :: NeverIssued(s', n) <==> NeverIssued(s, n);
    assert ReserveOwns(s) && ProducerOwns(s, p);
    if k in s.list.threads[At(s, w)].owned {
      FreeList.HandOverInv(s.list, At(s, w), p, k);
      FreeList.InvOneOwner(s.list, At(s, w), p, k);
    } else {
      FreeList.HandOverInv(s.list, p, At(s, w), k);
    }
    forall r | 0 <= r < |s'.queues| ensures ProducerOwns(s', r) {
      assert ProducerOwns(s, r);
    }
    forall v | 0 <= v < |s'.asks| ensures AskInv(s', v) {
      assert AskInv(s, v);
    }
  }

  lemma StepTake(s: State, p: nat, w: nat, k: nat, garbage: BlockQueue.Block)
    requires Inv(s) && Enabled(s, Take(p, w, k, garbage))
    ensures Inv(Next(s, Take(p, w, k, garbage)))
  {
    var a := BlockQueue.Alloc(k, garbage);
    QueueInv(s, p, a);
    StepKeys(s.queues[p], a);
    hide Own;
    hide Shared;
    hide FreeList.Inv;
    hide BlockQueue.Next;
    hide Inv;
    assert k < |s.list.nodes| by { OwnedExists(s, At(s, w), k); }
    PassInv(s, Next(s, Take(p, w, k, garbage)), p, w, k);
  }

  lemma OwnedExists(s: State, t: nat, k: nat)
    requires Inv(s) && t < |s.list.threads| && k in s.list.threads[t].owned
    ensures k < |s.list.nodes|
  {
    assert OwnedExist(s.list);
  }

  lemma OwnsBlock(s: State, p: nat, k: nat)
    requires Inv(s) && p < |s.queues| && k in s.queues[p].blocks
    ensures k in s.list.threads[p].owned && k < |s.list.nodes|
  {
    assert ProducerOwns(s, p);
    OwnedExists(s, p, k);
  }

  lemma StepGive(s: State, p: nat, w: nat, a: BlockQueue.Action)
    requires Inv(s) && Enabled(s, Give(p, w, a))
    ensures Inv(Next(s, Give(p, w, a)))
  {
    QueueInv(s, p, a);
    StepKeys(s.queues[p], a);
    hide Own;
    hide Shared;
    hide FreeList.Inv;
    hide BlockQueue.Next;
    hide Inv;
    var k: nat := Dropped(s.queues[p], a);
    OwnsBlock(s, p, k);
    PassInv(s, Next(s, Give(p, w, a)), p, w, k);
  }

  /** Every step, whoever takes it, keeps the invariant. */
  lemma StepInv(s: State, s': State)
    requires Inv(s) && Step(s, s')
    ensures Inv(s')
  {
    hide Inv;
    hide Enabled;
    hide Next;
    var a: Action :| Enabled(s, a) && s' == Next(s, a);
    match a
    case AskFor(w) => StepAsk(s, w);
    case Move(w, call, memory) => StepMove(s, w, call, memory);
    case Use(p, b) => StepUse(s, p, b);
    case Take(p, w, k, garbage) => StepTake(s, p, w, k, garbage);
    case Give(p, w, b) => StepGive(s, p, w, b);
  }

  lemma {:induction false} RunInv(run: seq<State>, i: nat)
    requires IsRun(run) && i < |run|
    ensures Inv(run[i])
  {
    hide Inv;
    hide Step;
    if i == 0 {
      InitInv(run[0]);
    } else {
      RunInv(run, i - 1);
      assert Step(run[i - 1], run[i - 1 + 1]);
      StepInv(run[i - 1], run[i]);
    }
  }

  // -------------------------------------------------------------------
  // Where a block is
  // -------------------------------------------------------------------

  ghost function InUse(n: nat): BlockQueue.State -> nat {
    (q: BlockQueue.State) => if n in q.blocks then 1 else 0
  }

  /** Equal summand by summand. */
  lemma {:induction false} SumAlike<T, U>(a: seq<T>, b: seq<U>, f: T -> nat, g: U -> nat)
    requires |a| == |b| && forall i :: 0 <= i < |a| ==> f(a[i]) == g(b[i])
    ensures Sum(a, f) == Sum(b, g)
  {
    if a != [] {
      var n := |a| - 1;
      assert forall i :: 0 <= i < n ==> f(a[..n][i]) == g(b[..n][i]);
      SumAlike(a[..n], b[..n], f, g);
    }
  }

  /** The owners of a block: the reserve, the producers that have it in use, the threads that hold it. */
  lemma OwnersSplit(s: State, n: nat)
    requires Inv(s)
    ensures Sum(s.list.threads, FreeList.OwnerOf(n)) ==
            (if NeverIssued(s, n) then 1 else 0) + Sum(s.queues, InUse(n))
            + Sum(s.list.threads[At(s, 0)..], FreeList.OwnerOf(n))
  {
    hide Own;
    hide Shared;
    hide FreeList.Inv;
    var r := Reserve(s);
    SumSplit(s.list.threads, r, FreeList.OwnerOf(n));
    assert ReserveOwns(s);
    forall p | 0 <= p < r ensures FreeList.OwnerOf(n)(s.list.threads[..r][p]) == InUse(n)(s.queues[p]) {
      assert ProducerOwns(s, p);
    }
    SumAlike(s.list.threads[..r], s.queues, FreeList.OwnerOf(n), InUse(n));
  }

  /**
   In every reachable state, for any number of producers and threads, every block of the pool is in exactly
   one place: never issued, which is to say at or above the counter; on the free list; being taken from it or
   linked to it by one thread, or parked; held by one thread, which has got it or is to add it; or in use by
   one producer. A block from the allocator is likewise never created or in one of the other places.
  */
  lemma OnePlace(run: seq<State>, i: nat, n: nat, l: seq<nat>)
    requires IsRun(run) && i < |run| && n < |run[i].list.nodes| && FreeList.Chain(run[i].list, l)
    ensures Shaped(run[i])
    ensures var s := run[i]; var list := s.list;
            var parked: nat := if FreeList.Marked(list.nodes[n].refs) && FreeList.Count(list.nodes[n].refs) > 0 then 1 else 0;
            (if NeverIssued(s, n) then 1 else 0)
            + FreeList.Linked(l, n) + Sum(list.threads, FreeList.TakerOf(n)) + Sum(list.threads, FreeList.LinkerOf(n)) + parked
            + Sum(list.threads[At(s, 0)..], FreeList.OwnerOf(n))
            + Sum(s.queues, InUse(n)) == 1
    ensures n < run[i].poolSize ==> (NeverIssued(run[i], n) <==> run[i].poolIndex <= n)
  {
    hide IsRun;
    RunInv(run, i);
    OwnersSplit(run[i], n);
    FreeList.InvOnePlace(run[i].list, n, l);
  }

  /** A block in use by a producer is in the producer's index, in its hands, or in those of one of its consumers. */
  lemma InUsePlace(run: seq<State>, i: nat, p: nat, k: nat)
    requires IsRun(run) && i < |run| && p < |run[i].queues|
    ensures var q := run[i].queues[p];
            (if IsLive(q.live, k) then 1 else 0) + (if InHand(q.prod, k) then 1 else 0) + Sum(q.cons, Freeing(k))
            == InUse(k)(q)
  {
    hide Own;
    hide IsLive;
    hide InHand;
    RunInv(run, i);
    assert PlaceInv(run[i].queues[p], k);
  }

  /** No two producers ever have the same block in use. */
  lemma NotShared(run: seq<State>, i: nat, p: nat, r: nat, k: nat)
    requires IsRun(run) && i < |run| && p < |run[i].queues| && r < |run[i].queues| && p != r
    requires k in run[i].queues[p].blocks
    ensures k !in run[i].queues[r].blocks
  {
    hide IsRun;
    RunInv(run, i);
    OwnsBlock(run[i], p, k);
    FreeList.InvOneOwner(run[i].list, p, r, k);
    assert ProducerOwns(run[i], r);
  }

  /**
   Nothing is issued twice, to two threads or to one: the counter and the allocator give every block out once
   at most, and the blocks of the pool that have been given out are exactly those below the counter.
  */
  lemma IssuedOnce(run: seq<State>, i: nat)
    requires IsRun(run) && i < |run|
    ensures forall j, k :: 0 <= j < k < |run[i].issued| ==> run[i].issued[j] != run[i].issued[k]
    ensures forall n: nat :: n < run[i].poolSize ==> (n in run[i].issued <==> n < run[i].poolIndex)
  {
    hide IsRun;
    hide Own;
    hide Shared;
    RunInv(run, i);
    assert CounterInv(run[i]);
  }

  /** A producer that waits for a block can take any that a thread holds, whatever is in it. */
  lemma CanTake(run: seq<State>, i: nat, p: nat, w: nat, k: nat, garbage: BlockQueue.Block)
    requires IsRun(run) && i < |run| && p < |run[i].queues| && run[i].queues[p].prod.PRequisition?
    requires Shaped(run[i]) && Free(run[i], w) && k in run[i].list.threads[At(run[i], w)].owned
    requires |garbage.slots| == BlockQueue.BLOCK_SIZE
    ensures Enabled(run[i], Take(p, w, k, garbage))
  {
    hide IsRun;
    RunInv(run, i);
    var s := run[i];
    OwnedExists(s, At(s, w), k);
    FreeList.InvOneOwner(s.list, At(s, w), p, k);
    assert ProducerOwns(s, p);
  }

  // -------------------------------------------------------------------
  // Where a block comes from
  // -------------------------------------------------------------------

  /**
   In every reachable state: a thread that has turned to the free list or to the allocator has done so
   because the pool is used up, and the allocator has given out nothing before that.
  */
  lemma PoolFirst(run: seq<State>, i: nat, w: nat)
    requires IsRun(run) && i < |run| && w < |run[i].asks|
    ensures PastPool(run[i].asks[w]) ==> run[i].poolIndex >= run[i].poolSize
    ensures run[i].poolSize < run[i].created ==> run[i].poolIndex >= run[i].poolSize
  {
    hide IsRun;
    hide Own;
    hide Shared;
    RunInv(run, i);
    assert AskInv(run[i], w) && CounterInv(run[i]);
  }

  /** Thread w, inside requisition_block, moves alone, k moves, to s', where it has returned. */
  ghost predicate Returns(s: State, w: nat, memory: bool, k: nat, s': State)
    decreases k
  {
    && Enabled(s, Move(w, FreeList.Get, memory))
    && var n := Next(s, Move(w, FreeList.Get, memory));
       if n.asks[w].NoAsk? then k == 1 && s' == n else k > 1 && Returns(n, w, memory, k - 1, s')
  }

  /** A try_get that returns a node ends the requisition. */
  lemma {:induction false} SearchReturns(s: State, w: nat, memory: bool, k: nat, list': FreeList.State)
    requires Shaped(s) && w < |s.asks| && s.asks[w].Searching?
    requires FreeListCalls.Getting(s.list.threads[At(s, w)].pc)
    requires FreeListCalls.Ends(s.list, At(s, w), k, list')
    requires |list'.threads| == |s.list.threads| && list'.threads[At(s, w)].owned != s.list.threads[At(s, w)].owned
    ensures Returns(s, w, memory, k, s.(list := list', asks := s.asks[w := NoAsk]))
    decreases k
  {
    var list1 := FreeList.Next(s.list, At(s, w), FreeList.Get);
    FreeListCalls.GettingGoesOn(s.list, At(s, w), FreeList.Get);
    hide FreeList.Next;
    hide FreeList.Enabled;
    var n := Next(s, Move(w, FreeList.Get, memory));
    if list1.threads[At(s, w)].pc.Idle? {
      assert n == s.(list := list', asks := s.asks[w := NoAsk]);
    } else {
      assert n == s.(list := list1);
      SearchReturns(n, w, memory, k - 1, list');
      assert Returns(n, w, memory, k - 1, s.(list := list', asks := s.asks[w := NoAsk]));
    }
  }

  /** The requisition from the free list on, when it has something. */
  lemma LoneSearch(s: State, w: nat, l: seq<nat>, memory: bool) returns (s': State)
    requires Shaped(s) && w < |s.asks| && s.asks[w].Search? && s.list.threads[At(s, w)].pc.Idle?
    requires FreeList.InvWith(s.list, l) && l != []
    ensures Returns(s, w, memory, 7, s')
    ensures s' == s.(list := s'.list, asks := s.asks[w := NoAsk]) && Took(s.list, At(s, w), l, s'.list)
  {
    hide FreeList.InvWith;
    hide FreeList.Count;
    var t := At(s, w);
    var list' := FreeListCalls.LoneGet(s.list, t, l);
    var n := Next(s, Move(w, FreeList.Get, memory));
    SearchReturns(n, w, memory, 6, list');
    s' := s.(list := list', asks := s.asks[w := NoAsk]);
    assert n.(list := list', asks := n.asks[w := NoAsk]) == s';
  }

  /** Thread t has taken the node at the head of the list l, and that is all. */
  ghost predicate Took(list: FreeList.State, t: nat, l: seq<nat>, list': FreeList.State)
    requires t < |list.threads| && l != []
  {
    && FreeList.InvWith(list', l[1..])
    && l[0] !in list.threads[t].owned
    && list'.threads == list.threads[t := FreeList.Thread(list.threads[t].owned + {l[0]}, FreeList.Idle)]
  }

  /** Thread w has got block n, which had never been issued, and nothing else has changed but the counters. */
  ghost predicate Got(s: State, w: nat, n: nat, s': State)
    requires Shaped(s) && w < |s.asks| && Shaped(s') && |s'.asks| == |s.asks| && |s'.queues| == |s.queues|
  {
    && s'.list.threads[At(s, w)].owned == s.list.threads[At(s, w)].owned + {n}
    && s'.issued == s.issued + [n]
    && s'.list.head == s.list.head && s'.list.nodes == s.list.nodes
    && (forall t :: 0 <= t < |s.list.threads| && t != At(s, w) && t != Reserve(s) ==> s'.list.threads[t] == s.list.threads[t])
    && s'.queues == s.queues && s'.asks == s.asks
  }

  /** The requisition that has seen the pool not used up. */
  lemma LonePool(s: State, w: nat, memory: bool) returns (s': State)
    requires Shaped(s) && w < |s.asks| && s.asks[w].TakeIndex? && s.poolIndex < s.poolSize < WORD
    ensures Returns(s, w, memory, 1, s') && s' == Issue(s.(poolIndex := s.poolIndex + 1), w, s.poolIndex)
  {
    hide FreeList.Next;
    hide FreeList.Enabled;
    s' := Next(s, Move(w, FreeList.Get, memory));
  }

  /** The requisition from the free list on, when it has nothing. */
  lemma LoneCreate(s: State, w: nat, memory: bool) returns (s': State)
    requires Shaped(s) && w < |s.asks| && s.asks[w].Search? && s.list.threads[At(s, w)].pc.Idle?
    requires s.list.head.Null?
    ensures Returns(s, w, memory, 3, s')
    ensures s' == if memory && s.created < |s.list.nodes| then Issue(s.(created := s.created + 1), w, s.created)
                  else s.(asks := s.asks[w := NoAsk])
  {
    var m := Move(w, FreeList.Get, memory);
    var s1 := Next(s, m);
    var s2 := Next(s1, m);
    assert s2.list.threads == s.list.threads;
    assert s2 == s.(asks := s.asks[w := Create]);
    s' := Next(s2, m);
    assert Returns(s1, w, memory, 2, s') by {
      assert Returns(s2, w, memory, 1, s');
    }
  }

  /**
   Whatever everybody else is in the middle of: requisition_block, run alone, returns the next block of the
   pool while there is one; else the first of the free list; else, when it may and there is memory, a new
   one; else nothing, and then nothing has changed.
  */
  lemma LoneRequisition(s: State, w: nat, l: seq<nat>, memory: bool) returns (k: nat, s': State)
    requires Inv(s) && Enabled(s, AskFor(w)) && FreeList.InvWith(s.list, l)
    ensures Returns(Next(s, AskFor(w)), w, memory, k, s')
    ensures Shaped(s') && |s'.asks| == |s.asks| && |s'.queues| == |s.queues|
    ensures
      if s.poolIndex < s.poolSize then
        Got(s, w, s.poolIndex, s') && s'.poolIndex == s.poolIndex + 1 && s'.created == s.created
      else if l != [] then
        s' == s.(list := s'.list) && Took(s.list, At(s, w), l, s'.list)
      else if memory && s.created < |s.list.nodes| then
        Got(s, w, s.created, s') && s'.poolIndex == s.poolIndex && s'.created == s.created + 1
      else s' == s
  {
    hide FreeList.InvWith;
    hide FreeList.Next;
    hide Inv;
    PoolInWord(s);
    var m := Move(w, FreeList.Get, memory);
    var s1 := Next(s, AskFor(w));
    var s2 := Next(s1, m);
    if s.poolIndex < s.poolSize {
      s' := LonePool(s2, w, memory);
      k := 2;
      assert s'.asks == s.asks;
    } else if l != [] {
      s' := LoneSearch(s2, w, l, memory);
      k := 8;
      assert s'.asks == s.asks;
    } else {
      FreeListCalls.HeadIs(s.list, l);
      s' := LoneCreate(s2, w, memory);
      k := 4;
      assert s'.asks == s.asks;
    }
  }

  lemma PoolInWord(s: State)
    requires Inv(s)
    ensures s.poolSize < WORD
  {
  }

  // -------------------------------------------------------------------
  // A requisition that others have interrupted
  // -------------------------------------------------------------------

  /** The try_get ends, and then the requisition has its block, or goes on to the allocator. */
  lemma {:induction false} SearchEnds(s: State, w: nat, memory: bool, k: nat, list': FreeList.State) returns (m: nat, s': State)
    requires Shaped(s) && w < |s.asks| && s.asks[w].Searching? && !s.list.threads[At(s, w)].pc.Idle?
    requires FreeListCalls.Ends(s.list, At(s, w), k, list')
    ensures Returns(s, w, memory, m, s') && m <= k + 1
    decreases k
  {
    FreeListKeeps(s.list, At(s, w));
    hide FreeList.Next;
    hide FreeList.Enabled;
    var n := Next(s, Move(w, FreeList.Get, memory));
    if n.asks[w].NoAsk? {
      m, s' := 1, n;
    } else if n.asks[w].Create? {
      s' := Next(n, Move(w, FreeList.Get, memory));
      assert Returns(n, w, memory, 1, s');
      m := 2;
    } else {
      m, s' := SearchEnds(n, w, memory, k - 1, list');
      m := m + 1;
    }
  }

  lemma FreeListKeeps(list: FreeList.State, t: nat)
    requires FreeList.Enabled(list, t, FreeList.Get)
    ensures |FreeList.Next(list, t, FreeList.Get).threads| == |list.threads|
  {
  }

  /** From the free list on. */
  lemma FromSearch(s: State, w: nat, memory: bool) returns (k: nat, s': State)
    requires Shaped(s) && FreeList.Inv(s.list) && w < |s.asks| && AskInv(s, w)
    requires s.asks[w].Search? || s.asks[w].Searching?
    ensures Returns(s, w, memory, k, s') && k <= 29
  {
    hide FreeList.InvWith;
    hide FreeList.Next;
    var t := At(s, w);
    if s.asks[w].Searching? {
      var m, list' := FreeListCalls.InvReturns(s.list, t);
      k, s' := SearchEnds(s, w, memory, m, list');
    } else {
      var l :| FreeList.InvWith(s.list, l);
      FreeListCalls.GoesOn(s.list, t, FreeList.Get, l);
      StaysInGet(s, w, FreeList.Get);
      var n := Next(s, Move(w, FreeList.Get, memory));
      assert FreeList.Inv(n.list);
      var m, list' := FreeListCalls.InvReturns(n.list, t);
      k, s' := SearchEnds(n, w, memory, m, list');
      k := k + 1;
    }
  }

  /** Nobody is ever stuck in requisition_block: in every reachable state one that is let run returns within 31 moves. */
  lemma LoneReturns(run: seq<State>, i: nat, w: nat, memory: bool) returns (k: nat, s': State)
    requires IsRun(run) && i < |run| && w < |run[i].asks| && !run[i].asks[w].NoAsk?
    ensures Returns(run[i], w, memory, k, s') && k <= 31
  {
    hide IsRun;
    hide Inv;
    hide FreeList.Next;
    hide FreeList.Inv;
    RunInv(run, i);
    var s := run[i];
    AskIs(s, w);
    var m := Move(w, FreeList.Get, memory);
    if s.asks[w].Search? || s.asks[w].Searching? {
      k, s' := FromSearch(s, w, memory);
    } else if s.asks[w].CheckIndex? {
      StepMove(s, w, FreeList.Get, memory);
      var n := Next(s, m);
      k, s' := FromTake(n, w, memory);
      k := k + 1;
    } else if s.asks[w].TakeIndex? {
      k, s' := FromTake(s, w, memory);
    } else {
      k, s' := 1, Next(s, m);
    }
  }

  /** From the fetch_add on the counter, or from the free list, on. */
  lemma FromTake(s: State, w: nat, memory: bool) returns (k: nat, s': State)
    requires Inv(s) && w < |s.asks| && (s.asks[w].TakeIndex? || s.asks[w].Search?)
    ensures Returns(s, w, memory, k, s') && k <= 30
  {
    hide Inv;
    hide FreeList.Next;
    hide FreeList.Inv;
    AskIs(s, w);
    if s.asks[w].Search? {
      k, s' := FromSearch(s, w, memory);
    } else {
      StepMove(s, w, FreeList.Get, memory);
      var n := Next(s, Move(w, FreeList.Get, memory));
      if n.asks[w].NoAsk? {
        k, s' := 1, n;
      } else {
        AskIs(n, w);
        k, s' := FromSearch(n, w, memory);
        k := k + 1;
      }
    }
  }

  lemma AskIs(s: State, w: nat)
    requires Inv(s) && w < |s.asks|
    ensures Shaped(s) && FreeList.Inv(s.list) && AskInv(s, w)
  {
  }
}
