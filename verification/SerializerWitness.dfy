/**
 Two threads, one object, no nested submissions: a caller's second task starts while its first is queued.
 One thread is therefore the only number of threads that by itself guarantees a caller's order.
*/
module SerializerWitness {
  import opened Serializer
  import opened SerializerOrder
  import opened SerializerProgress

  function Plain(id: nat): Submission { Submission(0, Task(id, [])) }

  /** s with object 0, thread t and the histories replaced. */
  function After(s: State, t: nat, th: Thread, ob: Object, submitted: seq<Ticket>, started: seq<Ticket>): State
    requires t < |s.threads| && |s.objects| == 1
  {
    State(s.objects[0 := ob], s.threads[t := th], submitted, started)
  }

  lemma StepCall(s: State, t: nat, x: Ticket, todo: seq<Submission>)
    requires t < |s.threads| && s.threads[t] == Thread([x.sub] + todo, []) && |s.objects| == 1
    requires x == Called(s, t, Outside, x.sub)
    ensures Step(s, After(s, t, Thread(todo, [AtCas(x)]), s.objects[0], s.submitted + [x], s.started))
  {
    var s' := After(s, t, Thread(todo, [AtCas(x)]), s.objects[0], s.submitted + [x], s.started);
    assert Next(s, t, 0) == s';
  }

  /** A thread with a single frame f on object 0 takes a step to s'. */
  lemma StepFrame(s: State, t: nat, k: nat, f: Frame, todo: seq<Submission>, frames: seq<Frame>, s': State)
    requires t < |s.threads| && s.threads[t] == Thread(todo, [f]) && FrameObj(f) == 0 && |s.objects| == 1
    requires Enabled(s, t, k) && frames == NewFrames(s, t, k)
    requires s' == After(s, t, Thread(todo, frames), Next(s, t, k).objects[0], Next(s, t, k).submitted, Next(s, t, k).started)
    ensures Step(s, s')
  {
    NextThreads(s, t, k);
    NextSizes(s, t, k);
    var n := Next(s, t, k);
    assert n.threads[t].stack == frames;
    assert n.threads == s'.threads;
    assert n.objects == s'.objects;
    assert n == s';
  }

  lemma StepWin(s: State, t: nat, x: Ticket, todo: seq<Submission>, q: seq<Ticket>)
    requires t < |s.threads| && s.threads[t] == Thread(todo, [AtCas(x)]) && x.sub.obj == 0
    requires s.objects == [Object(0, q)]
    ensures var frame := InProcess(0, |s.started|, x.sub.task.body);
            Step(s, After(s, t, Thread(todo, [frame]), Object(1, q), s.submitted, s.started + [x]))
  {
    var frame := InProcess(0, |s.started|, x.sub.task.body);
    StepFrame(s, t, 0, AtCas(x), todo, [frame],
      After(s, t, Thread(todo, [frame]), Object(1, q), s.submitted, s.started + [x]));
  }

  lemma StepLose(s: State, t: nat, x: Ticket, todo: seq<Submission>)
    requires t < |s.threads| && s.threads[t] == Thread(todo, [AtCas(x)]) && x.sub.obj == 0
    requires |s.objects| == 1 && s.objects[0].count != 0
    ensures Step(s, After(s, t, Thread(todo, [AtEnqueue(x)]), s.objects[0], s.submitted, s.started))
  {
    StepFrame(s, t, 0, AtCas(x), todo, [AtEnqueue(x)],
      After(s, t, Thread(todo, [AtEnqueue(x)]), s.objects[0], s.submitted, s.started));
  }

  lemma StepEnqueue(s: State, t: nat, x: Ticket, todo: seq<Submission>, c: int, q: seq<Ticket>)
    requires t < |s.threads| && s.threads[t] == Thread(todo, [AtEnqueue(x)]) && x.sub.obj == 0
    requires s.objects == [Object(c, q)]
    ensures Step(s, After(s, t, Thread(todo, [AtIncrement(0)]), Object(c, q + [x]), s.submitted, s.started))
  {
    StepFrame(s, t, 0, AtEnqueue(x), todo, [AtIncrement(0)],
      After(s, t, Thread(todo, [AtIncrement(0)]), Object(c, q + [x]), s.submitted, s.started));
  }

  lemma StepIncrement(s: State, t: nat, todo: seq<Submission>, c: int, q: seq<Ticket>)
    requires t < |s.threads| && s.threads[t] == Thread(todo, [AtIncrement(0)])
    requires s.objects == [Object(c, q)]
    ensures Step(s, After(s, t, Thread(todo, if c == 0 then [AtDequeue(0)] else []), Object(c + 1, q), s.submitted, s.started))
  {
    var frames := if c == 0 then [AtDequeue(0)] else [];
    StepFrame(s, t, 0, AtIncrement(0), todo, frames,
      After(s, t, Thread(todo, frames), Object(c + 1, q), s.submitted, s.started));
  }

  lemma StepFinish(s: State, t: nat, start: nat, todo: seq<Submission>)
    requires t < |s.threads| && s.threads[t] == Thread(todo, [InProcess(0, start, [])]) && |s.objects| == 1
    ensures Step(s, After(s, t, Thread(todo, [AtDecrement(0)]), s.objects[0], s.submitted, s.started))
  {
    StepFrame(s, t, 0, InProcess(0, start, []), todo, [AtDecrement(0)],
      After(s, t, Thread(todo, [AtDecrement(0)]), s.objects[0], s.submitted, s.started));
  }

  lemma StepDecrement(s: State, t: nat, todo: seq<Submission>, c: int, q: seq<Ticket>)
    requires t < |s.threads| && s.threads[t] == Thread(todo, [AtDecrement(0)])
    requires s.objects == [Object(c, q)]
    ensures Step(s, After(s, t, Thread(todo, if c > 1 then [AtDequeue(0)] else []), Object(c - 1, q), s.submitted, s.started))
  {
    var frames := if c > 1 then [AtDequeue(0)] else [];
    StepFrame(s, t, 0, AtDecrement(0), todo, frames,
      After(s, t, Thread(todo, frames), Object(c - 1, q), s.submitted, s.started));
  }

  /** The second element, of another thread than the first. */
  lemma StepDequeue(s: State, t: nat, todo: seq<Submission>, c: int, y: Ticket, x: Ticket)
    requires t < |s.threads| && s.threads[t] == Thread(todo, [AtDequeue(0)]) && y.who != x.who
    requires s.objects == [Object(c, [y, x])]
    ensures var frame := InProcess(0, |s.started|, x.sub.task.body);
            Step(s, After(s, t, Thread(todo, [frame]), Object(c, [y]), s.submitted, s.started + [x]))
  {
    assert [y, x][..1] + [y, x][2..] == [y];
    var frame := InProcess(0, |s.started|, x.sub.task.body);
    StepFrame(s, t, 1, AtDequeue(0), todo, [frame],
      After(s, t, Thread(todo, [frame]), Object(c, [y]), s.submitted, s.started + [x]));
  }

  // -------------------------------------------------------------------
  // The run
  // -------------------------------------------------------------------

  const FIRST := Ticket(0, 1, Outside, Plain(1))
  const SECOND := Ticket(0, 3, Outside, Plain(2))
  const OTHER := Ticket(1, 0, Outside, Plain(3))
  const UNCOUNTED := Ticket(1, 2, Outside, Plain(4))

  function Begun(): State {
    State([Object(0, [])], [Thread([Plain(1), Plain(2)], []), Thread([Plain(3), Plain(4)], [])], [], [])
  }

  /** Thread 1 has run its first task while thread 0 lost the CAS with its own, and has left. */
  function Lost(): State {
    State([Object(0, [])], [Thread([Plain(2)], [AtEnqueue(FIRST)]), Thread([Plain(4)], [])],
          [OTHER, FIRST], [OTHER])
  }

  /** Thread 0 has queued its task and become the runner; thread 1 has queued another and not counted it. */
  function Uncounted(): State {
    State([Object(1, [FIRST, UNCOUNTED])], [Thread([Plain(2)], [AtDequeue(0)]), Thread([], [AtIncrement(0)])],
          [OTHER, FIRST, UNCOUNTED], [OTHER])
  }

  /** The runner has consumed the task that is not counted and, seeing the count reach zero, has left. */
  function Drained(): State {
    State([Object(0, [FIRST])], [Thread([Plain(2)], []), Thread([], [AtIncrement(0)])],
          [OTHER, FIRST, UNCOUNTED], [OTHER, UNCOUNTED])
  }

  /** Thread 0 has started its second task. */
  function Overtaken(): State {
    State([Object(1, [FIRST])], [Thread([], [InProcess(0, 2, [])]), Thread([], [AtIncrement(0)])],
          [OTHER, FIRST, UNCOUNTED, SECOND], [OTHER, UNCOUNTED, SECOND])
  }

  lemma RunLose(r0: seq<State>) returns (r: seq<State>)
    requires IsRun(r0) && Last(r0) == Begun()
    ensures IsRun(r) && r[0] == r0[0] && Last(r) == Lost()
  {
    hide IsRun;
    hide Step;
    hide Next;
    r := r0;
    var s0 := Begun();
    StepCall(s0, 1, OTHER, [Plain(4)]);
    var s1 := After(s0, 1, Thread([Plain(4)], [AtCas(OTHER)]), s0.objects[0], [] + [OTHER], s0.started);
    r := ExtendRun(r, s1);
    StepWin(s1, 1, OTHER, [Plain(4)], []);
    var s2 := After(s1, 1, Thread([Plain(4)], [InProcess(0, 0, [])]), Object(1, []), s1.submitted, [] + [OTHER]);
    r := ExtendRun(r, s2);
    StepCall(s2, 0, FIRST, [Plain(2)]);
    var s3 := After(s2, 0, Thread([Plain(2)], [AtCas(FIRST)]), s2.objects[0], s2.submitted + [FIRST], s2.started);
    r := ExtendRun(r, s3);
    StepLose(s3, 0, FIRST, [Plain(2)]);
    var s4 := After(s3, 0, Thread([Plain(2)], [AtEnqueue(FIRST)]), s3.objects[0], s3.submitted, s3.started);
    r := ExtendRun(r, s4);
    StepFinish(s4, 1, 0, [Plain(4)]);
    var s5 := After(s4, 1, Thread([Plain(4)], [AtDecrement(0)]), s4.objects[0], s4.submitted, s4.started);
    r := ExtendRun(r, s5);
    StepDecrement(s5, 1, [Plain(4)], 1, []);
    var s6 := After(s5, 1, Thread([Plain(4)], []), Object(0, []), s5.submitted, s5.started);
    r := ExtendRun(r, s6);
    assert s6.objects == Lost().objects && s6.threads == Lost().threads && s6.submitted == Lost().submitted;
    assert s6 == Lost();
  }

  lemma RunUncounted(r0: seq<State>) returns (r: seq<State>)
    requires IsRun(r0) && Last(r0) == Lost()
    ensures IsRun(r) && r[0] == r0[0] && Last(r) == Uncounted()
  {
    hide IsRun;
    hide Step;
    hide Next;
    r := r0;
    var s0 := Lost();
    StepEnqueue(s0, 0, FIRST, [Plain(2)], 0, []);
    var s1 := After(s0, 0, Thread([Plain(2)], [AtIncrement(0)]), Object(0, [] + [FIRST]), s0.submitted, s0.started);
    r := ExtendRun(r, s1);
    StepIncrement(s1, 0, [Plain(2)], 0, [] + [FIRST]);
    var s2 := After(s1, 0, Thread([Plain(2)], [AtDequeue(0)]), Object(1, [] + [FIRST]), s1.submitted, s1.started);
    r := ExtendRun(r, s2);
    StepCall(s2, 1, UNCOUNTED, []);
    var s3 := After(s2, 1, Thread([], [AtCas(UNCOUNTED)]), s2.objects[0], s2.submitted + [UNCOUNTED], s2.started);
    r := ExtendRun(r, s3);
    StepLose(s3, 1, UNCOUNTED, []);
    var s4 := After(s3, 1, Thread([], [AtEnqueue(UNCOUNTED)]), s3.objects[0], s3.submitted, s3.started);
    r := ExtendRun(r, s4);
    StepEnqueue(s4, 1, UNCOUNTED, [], 1, [] + [FIRST]);
    var s5 := After(s4, 1, Thread([], [AtIncrement(0)]), Object(1, [] + [FIRST] + [UNCOUNTED]), s4.submitted, s4.started);
    r := ExtendRun(r, s5);
    assert [] + [FIRST] + [UNCOUNTED] == [FIRST, UNCOUNTED];
    assert s5.objects == Uncounted().objects && s5.threads == Uncounted().threads && s5.submitted == Uncounted().submitted;
    assert s5 == Uncounted();
  }

  lemma RunDrain(r0: seq<State>) returns (r: seq<State>)
    requires IsRun(r0) && Last(r0) == Uncounted()
    ensures IsRun(r) && r[0] == r0[0] && Last(r) == Drained()
  {
    hide IsRun;
    hide Step;
    hide Next;
    r := r0;
    var s0 := Uncounted();
    StepDequeue(s0, 0, [Plain(2)], 1, FIRST, UNCOUNTED);
    var s1 := After(s0, 0, Thread([Plain(2)], [InProcess(0, 1, [])]), Object(1, [FIRST]), s0.submitted, s0.started + [UNCOUNTED]);
    r := ExtendRun(r, s1);
    StepFinish(s1, 0, 1, [Plain(2)]);
    var s2 := After(s1, 0, Thread([Plain(2)], [AtDecrement(0)]), s1.objects[0], s1.submitted, s1.started);
    r := ExtendRun(r, s2);
    StepDecrement(s2, 0, [Plain(2)], 1, [FIRST]);
    var s3 := After(s2, 0, Thread([Plain(2)], []), Object(0, [FIRST]), s2.submitted, s2.started);
    r := ExtendRun(r, s3);
    assert s3.objects == Drained().objects && s3.threads == Drained().threads && s3.started == Drained().started;
    assert s3 == Drained();
  }

  lemma RunOvertake(r0: seq<State>) returns (r: seq<State>)
    requires IsRun(r0) && Last(r0) == Drained()
    ensures IsRun(r) && r[0] == r0[0] && Last(r) == Overtaken()
  {
    hide IsRun;
    hide Step;
    hide Next;
    r := r0;
    var s0 := Drained();
    StepCall(s0, 0, SECOND, []);
    var s1 := After(s0, 0, Thread([], [AtCas(SECOND)]), s0.objects[0], s0.submitted + [SECOND], s0.started);
    r := ExtendRun(r, s1);
    StepWin(s1, 0, SECOND, [], [FIRST]);
    var s2 := After(s1, 0, Thread([], [InProcess(0, 2, [])]), Object(1, [FIRST]), s1.submitted, s1.started + [SECOND]);
    r := ExtendRun(r, s2);
    assert s2.objects == Overtaken().objects && s2.threads == Overtaken().threads;
    assert s2.submitted == Overtaken().submitted && s2.started == Overtaken().started;
    assert s2 == Overtaken();
  }

  /**
   Thread 0 submits task 1, then task 2, and task 2 starts while task 1 is queued: thread 1 has enqueued a
   task without counting it, so the runner, thread 0 itself, takes that task for the one it had counted.
  */
  lemma CallerOrderIsNotKept() returns (run: seq<State>)
    ensures IsRun(run)
    ensures |run[0].threads| == 2 && run[0].threads[0].todo == [Plain(1), Plain(2)]
    ensures var last := Last(run);
            && last.started == [OTHER, UNCOUNTED, SECOND]
            && |last.objects| == 1 && last.objects[0].queue == [FIRST]
    ensures !InCallerOrder(Last(run), 0, 0)
  {
    run := [Begun()];
    assert Init(run[0]);
    run := RunLose(run);
    run := RunUncounted(run);
    run := RunDrain(run);
    run := RunOvertake(run);
    OutOfOrder();
  }

  lemma OutOfOrder()
    ensures !InCallerOrder(Overtaken(), 0, 0)
  {
    var p := By(0, 0);
    assert [OTHER, UNCOUNTED] + [SECOND] == Overtaken().started;
    ThoseSnoc(p, [OTHER, UNCOUNTED], SECOND);
    ThoseNone(p, [OTHER, UNCOUNTED]);
    assert [OTHER] + ([FIRST] + [UNCOUNTED, SECOND]) == Overtaken().submitted;
    ThoseConcat(p, [OTHER], [FIRST] + [UNCOUNTED, SECOND]);
    ThoseConcat(p, [FIRST], [UNCOUNTED, SECOND]);
    ThoseNone(p, [OTHER]);
    ThoseAll(p, [FIRST]);
    assert Those(p, Overtaken().started)[0] == SECOND;
    assert Those(p, Overtaken().submitted)[0] == FIRST;
  }
}
