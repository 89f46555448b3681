/**
 The serializer (actor) protocol of SerializedObject, for any number of objects
 and threads, one atomic operation per step. A task processed on one object may
 submit further tasks to any object, its own included, so a thread carries a
 stack of calls. The queue of an object is atomic and keeps the order of each
 submitting thread only, which is what the lock-free queue promises.
 */
module Serializer {
  import opened Sums

  // -------------------------------------------------------------------
  // State
  // -------------------------------------------------------------------

  /** A task, with the submissions its body makes, in order. */
  datatype Task = Task(id: nat, body: seq<Submission>)

  /** A call of Serialize on an object with a task. */
  datatype Submission = Submission(obj: nat, task: Task)

  /** Who made a call of Serialize: a caller outside any task, or the call of Process with this place in `started`. */
  datatype Origin = Outside | Within(start: nat)

  /** A call of Serialize, as the histories and the queues hold it: on which thread, its place among all, who made it. */
  datatype Ticket = Ticket(who: nat, num: nat, from: Origin, sub: Submission)

  /** Where a call stands: the line it executes next. */
  datatype Frame =
    | AtCas(ticket: Ticket)                                   // Serialize, before the CAS on count_
    | AtEnqueue(ticket: Ticket)                               // Enqueue, before queue_.enqueue
    | AtIncrement(obj: nat)                                   // Enqueue, before count_.fetch_add
    | AtDequeue(obj: nat)                                     // RunQueue, before Dequeue
    | InProcess(obj: nat, start: nat, rest: seq<Submission>)  // Process, with the submissions still to make
    | AtDecrement(obj: nat)                                   // after Process, before count_.fetch_sub

  datatype Object = Object(count: int, queue: seq<Ticket>)

  datatype Thread = Thread(todo: seq<Submission>, stack: seq<Frame>)

  /** `submitted` and `started` are histories: the calls of Serialize, and those of Process. */
  datatype State = State(objects: seq<Object>, threads: seq<Thread>,
                         submitted: seq<Ticket>, started: seq<Ticket>)

  // -------------------------------------------------------------------
  // Steps
  // -------------------------------------------------------------------

  function Top(th: Thread): Frame
    requires th.stack != []
  {
    th.stack[|th.stack| - 1]
  }

  function FrameObj(f: Frame): nat {
    match f
    case AtCas(x) => x.sub.obj
    case AtEnqueue(x) => x.sub.obj
    case AtIncrement(o) => o
    case AtDequeue(o) => o
    case InProcess(o, _, _) => o
    case AtDecrement(o) => o
  }

  /** try_dequeue may return the oldest element of any one submitting thread. */
  predicate Eligible(queue: seq<Ticket>, k: nat) {
    k < |queue| && forall j :: 0 <= j < k ==> queue[j].who != queue[k].who
  }

  predicate Finished(th: Thread) {
    th.todo == [] && th.stack == []
  }

  /** Thread t can take a step; k says which element a dequeue returns. */
  predicate Enabled(s: State, t: nat, k: nat) {
    && t < |s.threads|
    && !Finished(s.threads[t])
    && (s.threads[t].stack != [] ==>
          var f := Top(s.threads[t]);
          && FrameObj(f) < |s.objects|
          && (f.AtDequeue? && s.objects[f.obj].queue != [] ==> Eligible(s.objects[f.obj].queue, k)))
  }

  /** The state with the top frame of thread t replaced by `frames`. */
  function Replace(s: State, t: nat, frames: seq<Frame>): State
    requires t < |s.threads| && s.threads[t].stack != []
  {
    var th := s.threads[t];
    s.(threads := s.threads[t := th.(stack := th.stack[..|th.stack| - 1] + frames)])
  }

  function SetObject(s: State, o: nat, obj: Object): State
    requires o < |s.objects|
  {
    s.(objects := s.objects[o := obj])
  }

  /** The call of Serialize with `sub` that thread t is about to make. */
  function Called(s: State, t: nat, from: Origin, sub: Submission): Ticket {
    Ticket(t, |s.submitted|, from, sub)
  }

  /** One atomic step of thread t. */
  function Next(s: State, t: nat, k: nat): State
    requires Enabled(s, t, k)
  {
    var th := s.threads[t];
    if th.stack == [] then
      // the caller outside any task calls Serialize
      var x := Called(s, t, Outside, th.todo[0]);
      s.(threads := s.threads[t := Thread(th.todo[1..], [AtCas(x)])], submitted := s.submitted + [x])
    else
      match Top(th)
      case AtCas(x) =>
        var o := x.sub.obj;
        if s.objects[o].count == 0 then
          var s1 := SetObject(s, o, s.objects[o].(count := 1));
          Replace(s1.(started := s1.started + [x]), t, [InProcess(o, |s.started|, x.sub.task.body)])
        else
          Replace(s, t, [AtEnqueue(x)])
      case AtEnqueue(x) =>
        var ob := s.objects[x.sub.obj];
        var s1 := SetObject(s, x.sub.obj, ob.(queue := ob.queue + [x]));
        Replace(s1, t, [AtIncrement(x.sub.obj)])
      case AtIncrement(o) =>
        var ob := s.objects[o];
        var s1 := SetObject(s, o, ob.(count := ob.count + 1));
        Replace(s1, t, if ob.count == 0 then [AtDequeue(o)] else [])
      case AtDequeue(o) =>
        var ob := s.objects[o];
        if ob.queue == [] then
          s  // try_dequeue returned false: the loop in Dequeue spins
        else
          var x := ob.queue[k];
          var s1 := SetObject(s, o, ob.(queue := ob.queue[..k] + ob.queue[k + 1..]));
          Replace(s1.(started := s1.started + [x]), t, [InProcess(o, |s.started|, x.sub.task.body)])
      case InProcess(o, start, rest) =>
        if rest == [] then
          Replace(s, t, [AtDecrement(o)])
        else
          // Process calls Serialize
          var x := Called(s, t, Within(start), rest[0]);
          Replace(s.(submitted := s.submitted + [x]), t, [InProcess(o, start, rest[1..]), AtCas(x)])
      case AtDecrement(o) =>
        var ob := s.objects[o];
        var s1 := SetObject(s, o, ob.(count := ob.count - 1));
        Replace(s1, t, if ob.count > 1 then [AtDequeue(o)] else [])
  }

  ghost predicate Step(s: State, s': State) {
    exists t: nat, k: nat :: Enabled(s, t, k) && s' == Next(s, t, k)
  }

  /** Every object a submission reaches, at any depth, exists. */
  ghost predicate Reaches(sub: Submission, objects: nat) {
    sub.obj < objects && forall c :: c in sub.task.body ==> Reaches(c, objects)
  }

  /** All counts zero, all queues empty, nobody in a call. */
  ghost predicate Init(s: State) {
    && (forall o :: 0 <= o < |s.objects| ==> s.objects[o] == Object(0, []))
    && (forall t :: 0 <= t < |s.threads| ==>
          && s.threads[t].stack == []
          && forall sub :: sub in s.threads[t].todo ==> Reaches(sub, |s.objects|))
    && s.submitted == [] && s.started == []
  }

  /** A run: a sequence of states from an initial one, each a step after the last. */
  ghost predicate IsRun(run: seq<State>) {
    && run != []
    && Init(run[0])
    && forall i :: 0 <= i < |run| - 1 ==> Step(run[i], run[i + 1])
  }

  // -------------------------------------------------------------------
  // Invariant
  // -------------------------------------------------------------------

  /** The sum of f over the frames of a thread. */
  ghost function OnStack(f: Frame -> nat): Thread -> nat {
    (th: Thread) => Sum(th.stack, f)
  }

  ghost function Total(s: State, f: Frame -> nat): nat {
    Sum(s.threads, OnStack(f))
  }

  /** A runner of o: a call that is inside Process on o or will go on to dequeue from o. */
  ghost function RunnerOf(o: nat): Frame -> nat {
    (f: Frame) => if (f.AtDequeue? || f.InProcess? || f.AtDecrement?) && f.obj == o then 1 else 0
  }

  /** A runner of o that holds a task. */
  ghost function HolderOf(o: nat): Frame -> nat {
    (f: Frame) => if (f.InProcess? || f.AtDecrement?) && f.obj == o then 1 else 0
  }

  /** A call that has enqueued on o and not yet incremented the count. */
  ghost function BetweenOf(o: nat): Frame -> nat {
    (f: Frame) => if f.AtIncrement? && f.obj == o then 1 else 0
  }

  ghost predicate ObjectInv(s: State, o: nat)
    requires o < |s.objects|
  {
    var ob := s.objects[o];
    && ob.count >= 0
    && Total(s, RunnerOf(o)) == (if ob.count > 0 then 1 else 0)
    && |ob.queue| + Total(s, HolderOf(o)) == ob.count + Total(s, BetweenOf(o))
  }

  /** Only the innermost call of a thread can be anywhere but inside Process. */
  ghost predicate StackShape(stack: seq<Frame>) {
    forall i :: 0 <= i < |stack| - 1 ==> stack[i].InProcess?
  }

  ghost predicate FrameReaches(f: Frame, objects: nat) {
    && FrameObj(f) < objects
    && (f.AtCas? || f.AtEnqueue? ==> Reaches(f.ticket.sub, objects))
    && (f.InProcess? ==> forall c :: c in f.rest ==> Reaches(c, objects))
  }

  ghost predicate ThreadReaches(th: Thread, objects: nat) {
    && (forall sub :: sub in th.todo ==> Reaches(sub, objects))
    && (forall i :: 0 <= i < |th.stack| ==> FrameReaches(th.stack[i], objects))
  }

  ghost predicate QueueReaches(o: nat, q: seq<Ticket>, objects: nat) {
    forall j :: 0 <= j < |q| ==> q[j].sub.obj == o && Reaches(q[j].sub, objects)
  }

  ghost predicate WellFormed(s: State) {
    && (forall t :: 0 <= t < |s.threads| ==>
          StackShape(s.threads[t].stack) && ThreadReaches(s.threads[t], |s.objects|))
    && (forall o :: 0 <= o < |s.objects| ==> QueueReaches(o, s.objects[o].queue, |s.objects|))
    && (forall t :: 0 <= t < |s.threads| ==> OwnTicket(s.threads[t], t))
  }

  /** A thread that is about to submit or to enqueue does so for itself. */
  ghost predicate OwnTicket(th: Thread, t: nat) {
    th.stack != [] && (Top(th).AtCas? || Top(th).AtEnqueue?) ==> Top(th).ticket.who == t
  }

  ghost predicate Inv(s: State) {
    && WellFormed(s)
    && forall o :: 0 <= o < |s.objects| ==> ObjectInv(s, o)
  }

  lemma TotalReplace(s: State, t: nat, frames: seq<Frame>, f: Frame -> nat)
    requires t < |s.threads| && s.threads[t].stack != [] && |frames| <= 2
    ensures Total(Replace(s, t, frames), f) ==
            Total(s, f) - f(Top(s.threads[t]))
            + (if |frames| > 0 then f(frames[0]) else 0) + (if |frames| > 1 then f(frames[1]) else 0)
    ensures f(Top(s.threads[t])) <= Total(s, f)
  {
    hide Sum;
    var th := s.threads[t];
    var n := |th.stack| - 1;
    assert th.stack == th.stack[..n] + [th.stack[n]];
    SumSnoc(th.stack[..n], th.stack[n], f);
    var th' := th.(stack := th.stack[..n] + frames);
    SumUpdate(s.threads, t, th', OnStack(f));
    SumConcat(th.stack[..n], frames, f);
    SumShort(frames, f);
  }

  lemma TotalCall(s: State, t: nat, th: Thread, f: Frame -> nat)
    requires t < |s.threads| && s.threads[t].stack == [] && |th.stack| == 1
    ensures Total(s.(threads := s.threads[t := th]), f) == Total(s, f) + f(th.stack[0])
  {
    SumUpdate(s.threads, t, th, OnStack(f));
    SumShort(th.stack, f);
  }

  lemma {:induction false} InitInv(s: State)
    requires Init(s)
    ensures Inv(s)
  {
    forall o | 0 <= o < |s.objects| ensures ObjectInv(s, o) {
      SumZero(s.threads, OnStack(RunnerOf(o)));
      SumZero(s.threads, OnStack(HolderOf(o)));
      SumZero(s.threads, OnStack(BetweenOf(o)));
    }
  }

  /** The frames a step puts in the place of the top frame. */
  ghost function NewFrames(s: State, t: nat, k: nat): seq<Frame>
    requires Enabled(s, t, k) && s.threads[t].stack != []
  {
    match Top(s.threads[t])
    case AtCas(x) =>
      if s.objects[x.sub.obj].count == 0 then [InProcess(x.sub.obj, |s.started|, x.sub.task.body)] else [AtEnqueue(x)]
    case AtEnqueue(x) => [AtIncrement(x.sub.obj)]
    case AtIncrement(o) => if s.objects[o].count == 0 then [AtDequeue(o)] else []
    case AtDequeue(o) =>
      if s.objects[o].queue == [] then [AtDequeue(o)]
      else [InProcess(o, |s.started|, s.objects[o].queue[k].sub.task.body)]
    case InProcess(o, start, rest) =>
      if rest == [] then [AtDecrement(o)]
      else [InProcess(o, start, rest[1..]), AtCas(Called(s, t, Within(start), rest[0]))]
    case AtDecrement(o) => if s.objects[o].count > 1 then [AtDequeue(o)] else []
  }

  lemma NextThreads(s: State, t: nat, k: nat)
    requires Enabled(s, t, k) && s.threads[t].stack != []
    ensures Next(s, t, k).threads == Replace(s, t, NewFrames(s, t, k)).threads
  {
    var th := s.threads[t];
    assert th.stack == th.stack[..|th.stack| - 1] + [Top(th)];
  }

  lemma StepTotal(s: State, t: nat, k: nat, f: Frame -> nat)
    requires Enabled(s, t, k) && s.threads[t].stack != []
    ensures var frames := NewFrames(s, t, k);
            Total(Next(s, t, k), f) ==
            Total(s, f) - f(Top(s.threads[t]))
            + (if |frames| > 0 then f(frames[0]) else 0) + (if |frames| > 1 then f(frames[1]) else 0)
    ensures f(Top(s.threads[t])) <= Total(s, f)
  {
    NextThreads(s, t, k);
    TotalReplace(s, t, NewFrames(s, t, k), f);
  }

  /** What the frame a step leaves, and those it puts in, count towards each total of object o. */
  lemma StepTotals(s: State, t: nat, k: nat, o: nat, s': State)
    requires Enabled(s, t, k) && s.threads[t].stack != [] && s' == Next(s, t, k)
    ensures var f := Top(s.threads[t]); var frames := NewFrames(s, t, k);
            && Total(s', RunnerOf(o)) == Total(s, RunnerOf(o)) - RunnerOf(o)(f)
               + (if |frames| > 0 then RunnerOf(o)(frames[0]) else 0)
            && Total(s', HolderOf(o)) == Total(s, HolderOf(o)) - HolderOf(o)(f)
               + (if |frames| > 0 then HolderOf(o)(frames[0]) else 0)
            && Total(s', BetweenOf(o)) == Total(s, BetweenOf(o)) - BetweenOf(o)(f)
               + (if |frames| > 0 then BetweenOf(o)(frames[0]) else 0)
    ensures RunnerOf(o)(Top(s.threads[t])) <= Total(s, RunnerOf(o))
  {
    StepTotal(s, t, k, RunnerOf(o));
    StepTotal(s, t, k, HolderOf(o));
    StepTotal(s, t, k, BetweenOf(o));
  }

  lemma StepObjectInv(s: State, t: nat, k: nat, o: nat)
    requires Inv(s) && Enabled(s, t, k) && o < |s.objects|
    ensures ObjectInv(Next(s, t, k), o)
  {
    hide Sum;
    var s' := Next(s, t, k);
    assert ObjectInv(s, o);
    if s.threads[t].stack == [] {
      TotalCall(s, t, s'.threads[t], RunnerOf(o));
      TotalCall(s, t, s'.threads[t], HolderOf(o));
      TotalCall(s, t, s'.threads[t], BetweenOf(o));
    } else {
      StepTotals(s, t, k, o, s');
      StepObject(s, t, k, o, s');
      var f := Top(s.threads[t]);
      match f
      case AtCas(_) =>
      case AtEnqueue(_) =>
      case AtIncrement(p) =>
      case AtDequeue(p) =>
      case InProcess(p, _, _) =>
      case AtDecrement(p) =>
    }
  }

  /** What a step does to the count and the queue length of object o. */
  lemma StepObject(s: State, t: nat, k: nat, o: nat, s': State)
    requires Enabled(s, t, k) && s.threads[t].stack != [] && s' == Next(s, t, k)
    requires o < |s.objects|
    ensures |s'.objects| == |s.objects|
    ensures var f := Top(s.threads[t]); var ob := s.objects[o]; var ob' := s'.objects[o];
            && ob'.count - ob.count == (if FrameObj(f) != o then 0
                                        else if f.AtIncrement? || (f.AtCas? && ob.count == 0) then 1
                                        else if f.AtDecrement? then -1 else 0)
            && |ob'.queue| - |ob.queue| == (if FrameObj(f) != o then 0
                                            else if f.AtEnqueue? then 1
                                            else if f.AtDequeue? && ob.queue != [] then -1 else 0)
  {
  }

  lemma StepWellFormed(s: State, t: nat, k: nat)
    requires WellFormed(s) && Enabled(s, t, k)
    ensures WellFormed(Next(s, t, k))
  {
    var s' := Next(s, t, k);
    var n := |s.objects|;
    forall o | 0 <= o < n ensures QueueReaches(o, s'.objects[o].queue, n) {
      assert QueueReaches(o, s.objects[o].queue, n);
      if s.threads[t].stack != [] {
        assert FrameReaches(Top(s.threads[t]), n);
      }
    }
    if s.threads[t].stack == [] {
      var todo := s.threads[t].todo;
      assert s'.threads[t].stack == [AtCas(Called(s, t, Outside, todo[0]))];
      assert todo[0] in todo && Reaches(todo[0], n);
      assert forall c :: c in todo[1..] ==> c in todo;
      assert ThreadReaches(s'.threads[t], n);
    } else {
      NextThreads(s, t, k);
      NewFramesReach(s, t, k);
      NewFramesShape(s, t, k);
    }
  }

  lemma NewFramesReach(s: State, t: nat, k: nat)
    requires WellFormed(s) && Enabled(s, t, k) && s.threads[t].stack != []
    ensures ThreadReaches(Replace(s, t, NewFrames(s, t, k)).threads[t], |s.objects|)
  {
    var n := |s.objects|;
    var f := Top(s.threads[t]);
    assert FrameReaches(f, n);
    var frames := NewFrames(s, t, k);
    forall i | 0 <= i < |frames| ensures FrameReaches(frames[i], n) {
      match f
      case AtCas(x) => assert Reaches(x.sub, n);
      case AtDequeue(o) =>
        if s.objects[o].queue != [] {
          assert QueueReaches(o, s.objects[o].queue, n);
          assert Reaches(s.objects[o].queue[k].sub, n);
        }
      case InProcess(o, _, rest) =>
        if rest != [] {
          assert rest[0] in rest && Reaches(rest[0], n);
          assert forall c :: c in rest[1..] ==> c in rest;
        }
      case _ =>
    }
  }

  lemma NewFramesShape(s: State, t: nat, k: nat)
    requires Enabled(s, t, k) && s.threads[t].stack != [] && StackShape(s.threads[t].stack)
    ensures StackShape(Replace(s, t, NewFrames(s, t, k)).threads[t].stack)
  {
  }

  lemma NextSizes(s: State, t: nat, k: nat)
    requires Enabled(s, t, k)
    ensures |Next(s, t, k).threads| == |s.threads| && |Next(s, t, k).objects| == |s.objects|
  {
  }

  /** Every step of every thread keeps the invariant. */
  lemma StepInv(s: State, s': State)
    requires Inv(s) && Step(s, s')
    ensures Inv(s')
  {
    var t: nat, k: nat :| Enabled(s, t, k) && s' == Next(s, t, k);
    StepWellFormed(s, t, k);
    NextSizes(s, t, k);
    forall o | 0 <= o < |s.objects| ensures ObjectInv(s', o) {
      StepObjectInv(s, t, k, o);
    }
  }

  /** The invariant holds in every state of every run. */
  lemma {:induction false} RunInv(run: seq<State>, i: nat)
    requires IsRun(run) && i < |run|
    ensures Inv(run[i])
  {
    if i == 0 {
      InitInv(run[0]);
    } else {
      RunInv(run, i - 1);
      assert Step(run[i - 1], run[i - 1 + 1]);
      StepInv(run[i - 1], run[i]);
    }
  }

  // -------------------------------------------------------------------
  // Mutual exclusion
  // -------------------------------------------------------------------

  /** Frame a of thread t is a runner of o. */
  ghost predicate RunnerAt(s: State, o: nat, t: nat, a: nat) {
    t < |s.threads| && a < |s.threads[t].stack| && RunnerOf(o)(s.threads[t].stack[a]) == 1
  }

  lemma RunnersAddUp(s: State, o: nat, t: nat, a: nat, u: nat, b: nat)
    requires RunnerAt(s, o, t, a) && RunnerAt(s, o, u, b)
    ensures Total(s, RunnerOf(o)) >= if t == u && a == b then 1 else 2
  {
    SumSplit(s.threads[t].stack, a, RunnerOf(o));
    SumSplit(s.threads[u].stack, b, RunnerOf(o));
    if t == u {
      SumSplit(s.threads, t, OnStack(RunnerOf(o)));
      if a < b {
        SumPair(s.threads[t].stack, a, b, RunnerOf(o));
      } else if b < a {
        SumPair(s.threads[t].stack, b, a, RunnerOf(o));
      }
    } else {
      SumPair(s.threads, if t < u then t else u, if t < u then u else t, OnStack(RunnerOf(o)));
    }
  }

  /** In every state of every run an object has at most one runner over all stacks of all threads. */
  lemma MutualExclusion(run: seq<State>, i: nat, o: nat, t: nat, a: nat, u: nat, b: nat)
    requires IsRun(run) && i < |run|
    requires RunnerAt(run[i], o, t, a) && RunnerAt(run[i], o, u, b) && o < |run[i].objects|
    ensures t == u && a == b
  {
    RunInv(run, i);
    assert ObjectInv(run[i], o);
    RunnersAddUp(run[i], o, t, a, u, b);
  }

  /** An object has a runner exactly when its count is positive. */
  lemma RunnerExistsIffCounted(run: seq<State>, i: nat, o: nat)
    requires IsRun(run) && i < |run| && o < |run[i].objects|
    ensures run[i].objects[o].count > 0 <==> exists t: nat, a: nat :: RunnerAt(run[i], o, t, a)
  {
    RunInv(run, i);
    var s := run[i];
    assert ObjectInv(s, o);
    if s.objects[o].count > 0 {
      var t := SumWitness(s.threads, OnStack(RunnerOf(o)));
      var a := SumWitness(s.threads[t].stack, RunnerOf(o));
      assert RunnerAt(s, o, t, a);
    }
    if t: nat, a: nat :| RunnerAt(s, o, t, a) {
      RunnersAddUp(s, o, t, a, t, a);
    }
  }

  /**
   A submission to an object that has a runner anywhere, the submitting thread
   itself included, is queued: it neither starts nor changes the count.
  */
  lemma SubmitToRunningObjectEnqueues(run: seq<State>, i: nat, t: nat, k: nat, u: nat, b: nat)
    requires IsRun(run) && i < |run|
    requires Enabled(run[i], t, k) && run[i].threads[t].stack != [] && Top(run[i].threads[t]).AtCas?
    requires RunnerAt(run[i], Top(run[i].threads[t]).ticket.sub.obj, u, b)
    ensures var s' := Next(run[i], t, k);
            && s'.started == run[i].started && s'.objects == run[i].objects
            && s'.threads[t].stack != [] && Top(s'.threads[t]) == AtEnqueue(Top(run[i].threads[t]).ticket)
  {
    RunnerExistsIffCounted(run, i, Top(run[i].threads[t]).ticket.sub.obj);
  }

  // -------------------------------------------------------------------
  // Depth of nesting
  // -------------------------------------------------------------------

  ghost function StackObjects(stack: seq<Frame>): set<nat> {
    set i | 0 <= i < |stack| :: FrameObj(stack[i])
  }

  ghost predicate DistinctObjects(stack: seq<Frame>) {
    forall i, j :: 0 <= i < j < |stack| ==> FrameObj(stack[i]) != FrameObj(stack[j])
  }

  lemma {:induction false} DistinctCount(stack: seq<Frame>)
    requires DistinctObjects(stack)
    ensures |StackObjects(stack)| == |stack|
  {
    if stack != [] {
      var n := |stack| - 1;
      DistinctCount(stack[..n]);
      assert StackObjects(stack) == StackObjects(stack[..n]) + {FrameObj(stack[n])};
    }
  }

  lemma {:induction false} BoundedSet(xs: set<nat>, n: nat)
    requires forall x :: x in xs ==> x < n
    ensures |xs| <= n
  {
    if n == 0 {
      assert xs == {};
    } else {
      BoundedSet(xs - {n - 1}, n - 1);
    }
  }

  ghost function AnyRunner(): Frame -> nat {
    (f: Frame) => if f.AtDequeue? || f.InProcess? || f.AtDecrement? then 1 else 0
  }

  lemma {:induction false} AtMostAll(stack: seq<Frame>)
    ensures Sum(stack, AnyRunner()) <= |stack|
  {
    if stack != [] {
      AtMostAll(stack[..|stack| - 1]);
    }
  }

  /** The first n calls of a stack, if they are all runners, run different objects. */
  lemma RunnersDiffer(run: seq<State>, i: nat, t: nat, n: nat)
    requires IsRun(run) && i < |run| && t < |run[i].threads| && n <= |run[i].threads[t].stack|
    requires forall a :: 0 <= a < n ==> AnyRunner()(run[i].threads[t].stack[a]) == 1
    ensures n <= |run[i].objects|
  {
    hide IsRun;
    RunInv(run, i);
    var s := run[i];
    var runners := s.threads[t].stack[..n];
    forall a, b | 0 <= a < b < n ensures FrameObj(runners[a]) != FrameObj(runners[b]) {
      if runners[a].obj == runners[b].obj {
        assert FrameReaches(s.threads[t].stack[a], |s.objects|);
        assert RunnerAt(s, runners[a].obj, t, a) && RunnerAt(s, runners[a].obj, t, b);
        MutualExclusion(run, i, runners[a].obj, t, a, t, b);
      }
    }
    DistinctCount(runners);
    forall x | x in StackObjects(runners) ensures x < |s.objects| {
      var a :| 0 <= a < |runners| && x == FrameObj(runners[a]);
      assert FrameReaches(s.threads[t].stack[a], |s.objects|);
    }
    BoundedSet(StackObjects(runners), |s.objects|);
  }

  /**
   However tasks submit to each other, no stack holds more runners than there are objects, and besides
   them at most the innermost call.
  */
  lemma DepthBound(run: seq<State>, i: nat, t: nat)
    requires IsRun(run) && i < |run| && t < |run[i].threads|
    ensures Sum(run[i].threads[t].stack, AnyRunner()) <= |run[i].objects|
    ensures |run[i].threads[t].stack| <= |run[i].objects| + 1
  {
    hide IsRun;
    RunInv(run, i);
    var stack := run[i].threads[t].stack;
    if stack != [] {
      var n := |stack| - 1;
      RunnersDiffer(run, i, t, if AnyRunner()(stack[n]) == 1 then n + 1 else n);
      AtMostAll(stack);
      AtMostAll(stack[..n]);
    }
  }

  // -------------------------------------------------------------------
  // Dequeue never waits
  // -------------------------------------------------------------------

  /**
   Whenever a runner reaches Dequeue, the queue holds as many tasks as are counted
   plus those enqueued and not yet counted, so at least one: the loop in Dequeue
   takes one iteration, whichever thread's task it gets.
  */
  lemma DrainNeverWaits(run: seq<State>, i: nat, t: nat)
    requires IsRun(run) && i < |run| && t < |run[i].threads|
    requires run[i].threads[t].stack != [] && Top(run[i].threads[t]).AtDequeue?
    ensures var o := Top(run[i].threads[t]).obj;
            && o < |run[i].objects|
            && |run[i].objects[o].queue| == run[i].objects[o].count + Total(run[i], BetweenOf(o))
            && 1 <= |run[i].objects[o].queue| && Eligible(run[i].objects[o].queue, 0)
  {
    RunInv(run, i);
    InvDrain(run[i], t);
  }

  lemma InvDrain(s: State, t: nat)
    requires Inv(s) && t < |s.threads|
    requires s.threads[t].stack != [] && Top(s.threads[t]).AtDequeue?
    ensures var o := Top(s.threads[t]).obj;
            && o < |s.objects|
            && |s.objects[o].queue| == s.objects[o].count + Total(s, BetweenOf(o))
            && 1 <= |s.objects[o].queue|
  {
    var n := |s.threads[t].stack| - 1;
    assert FrameReaches(s.threads[t].stack[n], |s.objects|);
    var o := Top(s.threads[t]).obj;
    assert ObjectInv(s, o);
    assert RunnerAt(s, o, t, n);
    RunnersAddUp(s, o, t, n, t, n);
    if Total(s, HolderOf(o)) > 0 {
      var u := SumWitness(s.threads, OnStack(HolderOf(o)));
      var b := SumWitness(s.threads[u].stack, HolderOf(o));
      assert RunnerAt(s, o, u, b);
      RunnersAddUp(s, o, t, n, u, b);
    }
  }

  // -------------------------------------------------------------------
  // Ordering
  // -------------------------------------------------------------------

  /**
   A task starts on the fast path exactly when the count is zero at its CAS, and then it overtakes
   as many queued tasks as there are threads between the enqueue and the increment.
  */
  lemma FastPathOvertakes(run: seq<State>, i: nat, t: nat, k: nat)
    requires IsRun(run) && i < |run|
    requires Enabled(run[i], t, k) && run[i].threads[t].stack != [] && Top(run[i].threads[t]).AtCas?
    ensures var s := run[i]; var x := Top(s.threads[t]).ticket; var o := x.sub.obj; var s' := Next(s, t, k);
            && (s'.started == s.started + [x] <==> s.objects[o].count == 0)
            && (s.objects[o].count == 0 ==> |s.objects[o].queue| == Total(s, BetweenOf(o)))
  {
    RunInv(run, i);
    var s := run[i];
    var x := Top(s.threads[t]).ticket;
    var o := x.sub.obj;
    assert ObjectInv(s, o);
    assert |s.started + [x]| != |s.started|;
    if s.objects[o].count == 0 && Total(s, HolderOf(o)) > 0 {
      var u := SumWitness(s.threads, OnStack(HolderOf(o)));
      var b := SumWitness(s.threads[u].stack, HolderOf(o));
      assert RunnerAt(s, o, u, b);
      RunnersAddUp(s, o, u, b, u, b);
    }
  }
}
