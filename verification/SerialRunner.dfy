/**
 SerializedObject as written: the count and the queue of an object are updated in place, a task runs
 inside the call that starts it, and what it submits is a nested call. One thread makes the calls. Every
 statement on an atomic is one step of the protocol in Serializer, taken on a ghost run beside it, so all
 that is proved of runs there holds of these methods, and the measure of a run is why they terminate.
*/
module SerialRunner {
  import opened Sums
  import opened Serializer
  import opened SerializerOrder
  import opened SerializerProgress
  import opened SerializerProgram

  class SerializedObject {
    var count: int
    var queue: seq<Submission>

    constructor ()
      ensures count == 0 && queue == []
    {
      count, queue := 0, [];
    }

    /** queue_.try_dequeue: with a single submitting thread the oldest element, or none. */
    method TryDequeue() returns (ok: bool, task: Task)
      modifies this`queue
      ensures ok == (old(queue) != [])
      ensures if ok then queue == old(queue)[1..] && task == old(queue)[0].task else queue == old(queue)
    {
      ok, task := queue != [], Task(0, []);
      if ok {
        task, queue := queue[0].task, queue[1..];
      }
    }
  }

  /** When the calls are done: the order in which the tasks of object o have started. */
  ghost predicate InOrder(s: State, o: nat, calls: seq<Submission>) {
    && Those(To(o), s.started) == Those(To(o), s.submitted)
    && Subs(Those(Both(Outer(0), To(o)), s.started)) == OnTo(o, calls)
    && (Flat(calls) ==> Subs(Those(To(o), s.started)) == OnTo(o, calls))
    && forall k: nat :: k < |s.started| ==>
         Subs(Those(Both(From(k), To(o)), s.started)) == OnTo(o, s.started[k].sub.task.body)
  }

  /** What the step of a call on an object leaves in the object. */
  ghost function NewObject(f: Frame, ob: Object): Object {
    match f
    case AtCas(_) => if ob.count == 0 then ob.(count := 1) else ob
    case AtEnqueue(x) => ob.(queue := ob.queue + [x])
    case AtIncrement(_) => ob.(count := ob.count + 1)
    case AtDequeue(_) => if ob.queue == [] then ob else ob.(queue := ob.queue[1..])
    case InProcess(_, _, _) => ob
    case AtDecrement(_) => ob.(count := ob.count - 1)
  }

  lemma Effect(s: State, f: Frame)
    requires Enabled(s, 0, 0) && |s.threads| == 1 && s.threads[0].stack != [] && Top(s.threads[0]) == f
    ensures var stack := s.threads[0].stack;
            Next(s, 0, 0).threads == [Thread(s.threads[0].todo, stack[..|stack| - 1] + NewFrames(s, 0, 0))]
    ensures Next(s, 0, 0).objects == s.objects[FrameObj(f) := NewObject(f, s.objects[FrameObj(f)])]
  {
    NextThreads(s, 0, 0);
    var q := s.objects[FrameObj(f)].queue;
    assert q != [] ==> q[..0] + q[1..] == q[1..];
  }

  /** A single thread, with more calls to make after the present one, stands in f inside the calls `outer`. */
  ghost predicate StandsAt(s: State, todo: seq<Submission>, outer: seq<Frame>, f: Frame) {
    s.threads == [Thread(todo, outer + [f])]
  }

  /** A call stands at an object that exists. */
  lemma Bound(run: seq<State>, todo: seq<Submission>, outer: seq<Frame>, f: Frame)
    requires IsRun(run) && StandsAt(Last(run), todo, outer, f)
    ensures FrameObj(f) < |Last(run).objects|
  {
    hide Init;
    var s := Last(run);
    RunInv(run, |run| - 1);
    assert FrameReaches(s.threads[0].stack[|outer|], |s.objects|);
  }

  /** The step a run takes when its only thread, whose innermost call is f, goes on. */
  lemma Advance(run: seq<State>, todo: seq<Submission>, outer: seq<Frame>, f: Frame) returns (longer: seq<State>)
    requires IsRun(run) && StandsAt(Last(run), todo, outer, f)
    ensures FrameObj(f) < |Last(run).objects| && Enabled(Last(run), 0, 0)
    ensures IsRun(longer) && run <= longer
    ensures Last(longer).threads == [Thread(todo, outer + NewFrames(Last(run), 0, 0))]
    ensures Last(longer).objects == Last(run).objects[FrameObj(f) := NewObject(f, Last(run).objects[FrameObj(f)])]
    ensures Measure(Last(longer)) < Measure(Last(run))
    ensures f.AtDequeue? ==> Last(run).objects[f.obj].queue != []
    ensures outer + [] == outer
  {
    hide Init;
    hide Next;
    hide ObjectInv;
    hide WellFormed;
    hide NewFrames;
    hide Measure;
    var s := Last(run);
    assert Top(s.threads[0]) == f && s.threads[0].stack[..|outer|] == outer;
    Bound(run, todo, outer, f);
    RunInv(run, |run| - 1);
    if f.AtDequeue? {
      InvDrain(s, 0);
    }
    assert Enabled(s, 0, 0);
    var s' := Next(s, 0, 0);
    Effect(s, f);
    assert Step(s, s');
    StepDecreases(s, s');
    longer := ExtendRun(run, s');
  }

  /** The step of a call of Process that has `rest` to submit: the first of those is a nested call. */
  lemma AdvanceProcess(run: seq<State>, todo: seq<Submission>, outer: seq<Frame>, o: nat, start: nat, rest: seq<Submission>)
    returns (longer: seq<State>)
    requires IsRun(run) && StandsAt(Last(run), todo, outer, InProcess(o, start, rest))
    ensures IsRun(longer) && run <= longer && Measure(Last(longer)) < Measure(Last(run))
    ensures Last(longer).objects == Last(run).objects
    ensures if rest == [] then StandsAt(Last(longer), todo, outer, AtDecrement(o))
            else StandsAt(Last(longer), todo, outer + [InProcess(o, start, rest[1..])],
                          AtCas(Called(Last(run), 0, Within(start), rest[0])))
  {
    hide Init;
    hide Step;
    hide Measure;
    longer := Advance(run, todo, outer, InProcess(o, start, rest));
    if rest != [] {
      var f, g := InProcess(o, start, rest[1..]), AtCas(Called(Last(run), 0, Within(start), rest[0]));
      assert outer + [f, g] == (outer + [f]) + [g];
    }
  }

  /** The step with which the thread, in no call, makes the first of its remaining calls. */
  lemma MakeCall(run: seq<State>, todo: seq<Submission>) returns (longer: seq<State>)
    requires IsRun(run) && todo != [] && Last(run).threads == [Thread(todo, [])]
    ensures IsRun(longer) && run <= longer
    ensures StandsAt(Last(longer), todo[1..], [], AtCas(Called(Last(run), 0, Outside, todo[0])))
    ensures Last(longer).objects == Last(run).objects
  {
    hide Init;
    var s' := Next(Last(run), 0, 0);
    var f := AtCas(Called(Last(run), 0, Outside, todo[0]));
    assert [] + [f] == [f];
    assert s'.threads == [Thread(todo[1..], [f])];
    assert Step(Last(run), s');
    longer := ExtendRun(run, s');
  }

  /** The objects, and beside them the run of the protocol that the calls made so far amount to. */
  class Server {
    const objects: seq<SerializedObject>
    ghost var run: seq<State>

    ghost predicate Linked()
      reads this`run, objects
    {
      && (forall i, j :: 0 <= i < j < |objects| ==> objects[i] != objects[j])
      && IsRun(run)
      && |Last(run).objects| == |objects|
      && (forall i :: 0 <= i < |objects| ==>
            && Last(run).objects[i].count == objects[i].count
            && Subs(Last(run).objects[i].queue) == objects[i].queue)
    }

    /** The protocol stands in f, inside the calls `outer`. */
    ghost predicate At(todo: seq<Submission>, outer: seq<Frame>, f: Frame)
      reads this`run
    {
      run != [] && StandsAt(Last(run), todo, outer, f)
    }

    /** The innermost call has returned to `outer`. */
    ghost predicate Back(todo: seq<Submission>, outer: seq<Frame>)
      reads this`run
    {
      run != [] && Last(run).threads == [Thread(todo, outer)]
    }

    /** No call made yet; `calls` are those to come. */
    constructor (objects: seq<SerializedObject>, ghost calls: seq<Submission>)
      requires forall i, j :: 0 <= i < j < |objects| ==> objects[i] != objects[j]
      requires forall i :: 0 <= i < |objects| ==> objects[i].count == 0 && objects[i].queue == []
      requires forall sub :: sub in calls ==> Reaches(sub, |objects|)
      ensures this.objects == objects && Linked() && Back(calls, []) && |run| == 1
    {
      this.objects := objects;
      run := [State(seq(|objects|, i => Object(0, [])), [Thread(calls, [])], [], [])];
      new;
      assert Init(run[0]);
    }

    /** An upper bound on the steps still to come. */
    ghost function Left(): nat
      reads this`run
    {
      if run == [] then 0 else Measure(Last(run))
    }

    /** The CAS, and then either the task and the count, or the queue. */
    method Serialize(o: nat, newTask: Task, ghost x: Ticket, ghost todo: seq<Submission>, ghost outer: seq<Frame>)
      requires Linked() && At(todo, outer, AtCas(x)) && x.sub == Submission(o, newTask)
      modifies this`run, objects
      ensures Linked() && Back(todo, outer)
      ensures old(run) <= run && Left() <= old(Left())
      decreases Left()
    {
      hide IsRun;
      hide Measure;
      Bound(run, todo, outer, AtCas(x));
      var self := objects[o];
      ghost var start := |Last(run).started|;
      var won := self.count == 0;
      if won {
        self.count := 1;
      }
      run := Advance(run, todo, outer, AtCas(x));
      if won {
        Process(o, newTask, start, todo, outer);
        var before := Decrement(o, todo, outer);
        if before > 1 {
          RunQueue(o, todo, outer);
        }
      } else {
        var before := Enqueue(o, newTask, x, todo, outer);
        if before == 0 {
          RunQueue(o, todo, outer);
        }
      }
    }

    /** count_.fetch_sub(1) */
    method Decrement(o: nat, ghost todo: seq<Submission>, ghost outer: seq<Frame>) returns (before: int)
      requires Linked() && At(todo, outer, AtDecrement(o))
      modifies this`run, objects
      ensures Linked() && if before > 1 then At(todo, outer, AtDequeue(o)) else Back(todo, outer)
      ensures old(run) <= run && Left() < old(Left())
    {
      hide IsRun;
      hide Measure;
      Bound(run, todo, outer, AtDecrement(o));
      var self := objects[o];
      before := self.count;
      self.count := before - 1;
      run := Advance(run, todo, outer, AtDecrement(o));
    }

    method RunQueue(o: nat, ghost todo: seq<Submission>, ghost outer: seq<Frame>)
      requires Linked() && At(todo, outer, AtDequeue(o))
      modifies this`run, objects
      ensures Linked() && Back(todo, outer)
      ensures old(run) <= run && Left() <= old(Left())
      decreases Left()
    {
      hide IsRun;
      hide Measure;
      var more := true;
      while more
        invariant Linked() && old(run) <= run && Left() <= old(Left())
        invariant if more then At(todo, outer, AtDequeue(o)) else Back(todo, outer)
        decreases Left()
      {
        var curTask, start := Dequeue(o, todo, outer);
        Process(o, curTask, start, todo, outer);
        var before := Decrement(o, todo, outer);
        more := before > 1;
      }
    }

    method Enqueue(o: nat, task: Task, ghost x: Ticket, ghost todo: seq<Submission>, ghost outer: seq<Frame>)
      returns (before: int)
      requires Linked() && At(todo, outer, AtEnqueue(x)) && x.sub == Submission(o, task)
      modifies this`run, objects
      ensures Linked() && if before == 0 then At(todo, outer, AtDequeue(o)) else Back(todo, outer)
      ensures old(run) <= run && Left() < old(Left())
    {
      hide IsRun;
      hide Measure;
      Bound(run, todo, outer, AtEnqueue(x));
      var self := objects[o];
      self.queue := self.queue + [Submission(o, task)];
      run := Advance(run, todo, outer, AtEnqueue(x));
      before := self.count;
      self.count := before + 1;
      run := Advance(run, todo, outer, AtIncrement(o));
    }

    /** The loop around try_dequeue never comes round a second time. */
    method Dequeue(o: nat, ghost todo: seq<Submission>, ghost outer: seq<Frame>)
      returns (task: Task, ghost start: nat)
      requires Linked() && At(todo, outer, AtDequeue(o))
      modifies this`run, objects
      ensures Linked() && At(todo, outer, InProcess(o, start, task.body))
      ensures old(run) <= run && Left() < old(Left())
    {
      hide IsRun;
      hide Measure;
      Bound(run, todo, outer, AtDequeue(o));
      var self := objects[o];
      var ok;
      ok, task := self.TryDequeue();
      start := |Last(run).started|;
      run := Advance(run, todo, outer, AtDequeue(o));
    }

    /** The task submits in turn; every submission is a nested call. */
    method Process(o: nat, task: Task, ghost start: nat, ghost todo: seq<Submission>, ghost outer: seq<Frame>)
      requires Linked() && At(todo, outer, InProcess(o, start, task.body))
      modifies this`run, objects
      ensures Linked() && At(todo, outer, AtDecrement(o))
      ensures old(run) <= run && Left() < old(Left())
      decreases Left()
    {
      hide IsRun;
      hide Measure;
      for i := 0 to |task.body|
        invariant Linked() && At(todo, outer, InProcess(o, start, task.body[i..]))
        invariant old(run) <= run && Left() <= old(Left())
      {
        var sub := task.body[i];
        ghost var x := Called(Last(run), 0, Within(start), sub);
        run := AdvanceProcess(run, todo, outer, o, start, task.body[i..]);
        assert task.body[i..][1..] == task.body[i + 1..];
        Serialize(sub.obj, sub.task, x, todo, outer + [InProcess(o, start, task.body[i + 1..])]);
      }
      run := AdvanceProcess(run, todo, outer, o, start, []);
    }

    /**
     The calls of one caller outside any task, in order. On return no object is counted or has anything
     queued, and every submission the calls lead to has started as often as they lead to it. On each object
     the tasks have started in the order of their submission: those of `calls` in the order of `calls`, which
     is all when they submit nothing, and those a task submits in the order of its body.
    */
    method CallAll(calls: seq<Submission>)
      requires Linked() && Back(calls, []) && |run| == 1
      modifies this`run, objects
      ensures Linked() && Back([], []) && old(run) <= run
      ensures forall i :: 0 <= i < |objects| ==> objects[i].count == 0 && objects[i].queue == []
      ensures forall x :: StartCount(Last(run), x) == Forest(Is(x), calls)
      ensures forall o :: 0 <= o < |objects| ==> InOrder(Last(run), o, calls)
    {
      hide IsRun;
      hide Measure;
      for i := 0 to |calls|
        invariant Linked() && Back(calls[i..], []) && old(run) <= run
      {
        var sub := calls[i];
        ghost var x := Called(Last(run), 0, Outside, sub);
        run := MakeCall(run, calls[i..]);
        assert calls[i..][1..] == calls[i + 1..];
        Serialize(sub.obj, sub.task, x, calls[i + 1..], []);
      }
      Outcome(run, calls);
    }
  }

  lemma StartsInOrder(run: seq<State>, o: nat, calls: seq<Submission>)
    requires IsRun(run) && run[0].threads == [Thread(calls, [])] && Last(run).threads == [Thread([], [])]
    requires o < |Last(run).objects|
    ensures InOrder(Last(run), o, calls)
  {
    hide Init;
    hide Step;
    hide Those;
    hide OnTo;
    var n: nat := |run| - 1;
    SameOrder(run, n, o);
    CallsStartInOrder(run, n, o);
    if Flat(calls) {
      FlatStartsInOrder(run, n, o);
    }
    forall k: nat | k < |run[n].started|
      ensures Subs(Those(Both(From(k), To(o)), run[n].started)) == OnTo(o, run[n].started[k].sub.task.body)
    {
      BodyStartsInOrder(run, n, o, k);
    }
  }

  /** What a finished run of one caller's calls has done. */
  lemma Outcome(run: seq<State>, calls: seq<Submission>)
    requires IsRun(run) && run[0].threads == [Thread(calls, [])] && Last(run).threads == [Thread([], [])]
    ensures forall o :: 0 <= o < |Last(run).objects| ==> Last(run).objects[o] == Object(0, [])
    ensures forall x :: StartCount(Last(run), x) == Forest(Is(x), calls)
    ensures forall o :: 0 <= o < |Last(run).objects| ==> InOrder(Last(run), o, calls)
  {
    hide Init;
    hide Step;
    var n: nat := |run| - 1;
    assert run[n] == Last(run);
    FinishedIsQuiescent(run, n);
    forall x ensures StartCount(Last(run), x) == Forest(Is(x), calls) {
      ExactlyOnce(run, n, x);
      SumShort(run[0].threads, TodoCount(x));
    }
    forall o | 0 <= o < |Last(run).objects| ensures InOrder(Last(run), o, calls) {
      StartsInOrder(run, o, calls);
    }
  }
}
