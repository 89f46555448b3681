/**
 The order in which submissions are made is that of the program: of the body of the task that makes them, or
 of the calls of a caller outside any task. So what is proved of the order of submission is about the order
 in which the program text has the calls.
*/
module SerializerProgram {
  import opened Sums
  import opened Serializer
  import opened SerializerOrder
  import opened SerializerProgress

  // -------------------------------------------------------------------
  // Who has submitted what
  // -------------------------------------------------------------------

  /** The submissions that the call of Process number k in `started` has made. */
  ghost function From(k: nat): Ticket -> bool { (x: Ticket) => x.from == Within(k) }

  ghost function MadeBy(s: State, k: nat): seq<Submission> { Subs(Those(From(k), s.submitted)) }

  /** Those that thread t has made outside any task. */
  ghost function Outer(t: nat): Ticket -> bool { (x: Ticket) => x.from == Outside && x.who == t }

  ghost function MadeOutside(s: State, t: nat): seq<Submission> { Subs(Those(Outer(t), s.submitted)) }

  ghost function StartOf(k: nat): Frame -> nat { (f: Frame) => if f.InProcess? && f.start == k then 1 else 0 }

  /** Frame a of thread t is the call of Process number k. */
  ghost predicate RunsAt(s: State, k: nat, t: nat, a: nat) {
    t < |s.threads| && a < |s.threads[t].stack| && s.threads[t].stack[a].InProcess? && s.threads[t].stack[a].start == k
  }

  lemma SubsSnoc(xs: seq<Ticket>, x: Ticket)
    ensures Subs(xs + [x]) == Subs(xs) + [x.sub]
  {
  }

  /** One more ticket. */
  lemma MadeSnoc(p: Ticket -> bool, tickets: seq<Ticket>, x: Ticket)
    ensures Subs(Those(p, tickets + [x])) == if p(x) then Subs(Those(p, tickets)) + [x.sub] else Subs(Those(p, tickets))
  {
    ThoseSnoc(p, tickets, x);
    SubsSnoc(Those(p, tickets), x);
  }

  // -------------------------------------------------------------------
  // Invariant
  // -------------------------------------------------------------------

  /** A call of Process that goes on has made the first of the submissions of its body, and has the rest to make. */
  ghost predicate GoesOn(s: State, k: nat, t: nat, a: nat)
    requires RunsAt(s, k, t, a)
  {
    k < |s.started| && MadeBy(s, k) + s.threads[t].stack[a].rest == s.started[k].sub.task.body
  }

  ghost predicate ProgramInv(s: State, k: nat) {
    && Total(s, StartOf(k)) <= (if k < |s.started| then 1 else 0)
    && (k >= |s.started| ==> MadeBy(s, k) == [])
    && (k < |s.started| && Total(s, StartOf(k)) == 0 ==> MadeBy(s, k) == s.started[k].sub.task.body)
    && (forall t: nat, a: nat :: RunsAt(s, k, t, a) ==> GoesOn(s, k, t, a))
  }

  /** Two frames that f counts. */
  lemma TwoFrames(s: State, f: Frame -> nat, t: nat, a: nat, u: nat, b: nat)
    requires t < |s.threads| && a < |s.threads[t].stack| && u < |s.threads| && b < |s.threads[u].stack|
    requires f(s.threads[t].stack[a]) >= 1 && f(s.threads[u].stack[b]) >= 1
    ensures Total(s, f) >= if t == u && a == b then 1 else 2
  {
    SumSplit(s.threads[t].stack, a, f);
    SumSplit(s.threads[u].stack, b, f);
    if t == u {
      SumSplit(s.threads, t, OnStack(f));
      if a < b {
        SumPair(s.threads[t].stack, a, b, f);
      } else if b < a {
        SumPair(s.threads[t].stack, b, a, f);
      }
    } else {
      SumPair(s.threads, if t < u then t else u, if t < u then u else t, OnStack(f));
    }
  }

  lemma InitProgram(s: State, k: nat)
    requires Init(s)
    ensures ProgramInv(s, k)
  {
    SumZero(s.threads, OnStack(StartOf(k)));
  }

  /** A call from outside any task. */
  lemma CallProgram(s: State, u: nat, j: nat, k: nat)
    requires Enabled(s, u, j) && s.threads[u].stack == [] && ProgramInv(s, k)
    ensures ProgramInv(Next(s, u, j), k)
  {
    hide Those;
    hide Sum;
    var s' := Next(s, u, j);
    MadeSnoc(From(k), s.submitted, Called(s, u, Outside, s.threads[u].todo[0]));
    TotalCall(s, u, s'.threads[u], StartOf(k));
    forall t: nat, a: nat | RunsAt(s', k, t, a) ensures GoesOn(s', k, t, a) {
      assert RunsAt(s, k, t, a);
    }
  }

  /** The frames that stay. */
  lemma OldFrames(s: State, u: nat, j: nat, k: nat, t: nat, a: nat)
    requires Enabled(s, u, j) && s.threads[u].stack != [] && RunsAt(Next(s, u, j), k, t, a)
    requires t != u || a < |s.threads[u].stack| - 1
    ensures RunsAt(s, k, t, a) && Next(s, u, j).threads[t].stack[a] == s.threads[t].stack[a]
  {
    NextThreads(s, u, j);
  }

  /** The frame in the place of the one that moved, and one on top of it, which is not in Process. */
  lemma NewFrame(s: State, u: nat, j: nat, k: nat, a: nat)
    requires Enabled(s, u, j) && s.threads[u].stack != [] && RunsAt(Next(s, u, j), k, u, a)
    requires a >= |s.threads[u].stack| - 1
    ensures a == |s.threads[u].stack| - 1 && NewFrames(s, u, j) != []
    ensures Next(s, u, j).threads[u].stack[a] == NewFrames(s, u, j)[0]
  {
    NextThreads(s, u, j);
  }

  /** What a step adds to what call k has made. */
  lemma StepMade(s: State, u: nat, j: nat, k: nat)
    requires Enabled(s, u, j) && s.threads[u].stack != []
    ensures var f := Top(s.threads[u]);
            MadeBy(Next(s, u, j), k) ==
              if f.InProcess? && f.start == k && f.rest != [] then MadeBy(s, k) + [f.rest[0]] else MadeBy(s, k)
  {
    hide Those;
    hide Next;
    StepHistories(s, u, j);
    var f := Top(s.threads[u]);
    if f.InProcess? && f.rest != [] {
      MadeSnoc(From(k), s.submitted, Called(s, u, Within(f.start), f.rest[0]));
    }
  }

  /** What a step starts. */
  lemma StepStarts(s: State, u: nat, j: nat)
    requires Enabled(s, u, j) && s.threads[u].stack != []
    ensures var f := Top(s.threads[u]); var frames := NewFrames(s, u, j);
            if Starts(s, u, j) == []
            then frames != [] && frames[0].InProcess? ==>
                   f.InProcess? && f.rest != [] && frames[0].start == f.start && frames[0].rest == f.rest[1..]
            else !f.InProcess? && |Starts(s, u, j)| == 1 && |frames| == 1
                 && frames[0] == InProcess(FrameObj(f), |s.started|, Starts(s, u, j)[0].sub.task.body)
  {
  }

  lemma FrameProgram(s: State, u: nat, j: nat, k: nat)
    requires WellFormed(s) && Enabled(s, u, j) && s.threads[u].stack != [] && ProgramInv(s, k)
    ensures ProgramInv(Next(s, u, j), k)
  {
    hide Those;
    hide Sum;
    hide Next;
    hide NewFrames;
    hide WellFormed;
    hide MadeBy;
    hide Starts;
    var s' := Next(s, u, j);
    var f := Top(s.threads[u]);
    var n := |s.threads[u].stack| - 1;
    StepHistories(s, u, j);
    StepStarts(s, u, j);
    StepMade(s, u, j, k);
    StepTotal(s, u, j, StartOf(k));
    LastFrame(s, u, j);
    if f.InProcess? && f.start == k {
      assert RunsAt(s, k, u, n) && GoesOn(s, k, u, n);
    }
    forall t: nat, a: nat | RunsAt(s', k, t, a) ensures GoesOn(s', k, t, a) {
      if t != u || a < n {
        OldFrames(s, u, j, k, t, a);
        assert GoesOn(s, k, t, a);
        if f.InProcess? && f.start == k {
          TwoFrames(s, StartOf(k), t, a, u, n);
        }
      } else {
        NewFrame(s, u, j, k, a);
      }
    }
  }

  /** At most the last of the new frames is above another. */
  lemma LastFrame(s: State, u: nat, j: nat)
    requires Enabled(s, u, j) && s.threads[u].stack != []
    ensures |NewFrames(s, u, j)| > 1 ==> NewFrames(s, u, j)[1].AtCas?
    ensures NewFrames(s, u, j) == [] || !NewFrames(s, u, j)[0].InProcess? ==>
              forall k :: StartOf(k)(if NewFrames(s, u, j) == [] then AtIncrement(0) else NewFrames(s, u, j)[0]) == 0
    ensures Top(s.threads[u]).InProcess? && Top(s.threads[u]).rest != [] ==>
              NewFrames(s, u, j) != [] && NewFrames(s, u, j)[0].InProcess?
  {
  }

  lemma StepProgram(s: State, s': State, k: nat)
    requires WellFormed(s) && Step(s, s') && ProgramInv(s, k)
    ensures ProgramInv(s', k)
  {
    hide ProgramInv;
    hide WellFormed;
    var u: nat, j: nat :| Enabled(s, u, j) && s' == Next(s, u, j);
    if s.threads[u].stack == [] {
      CallProgram(s, u, j, k);
    } else {
      FrameProgram(s, u, j, k);
    }
  }

  lemma {:induction false} RunProgram(run: seq<State>, i: nat, k: nat)
    requires IsRun(run) && i < |run|
    ensures ProgramInv(run[i], k)
  {
    hide ProgramInv;
    hide Step;
    if i == 0 {
      InitProgram(run[0], k);
    } else {
      RunProgram(run, i - 1, k);
      RunInv(run, i - 1);
      assert Step(run[i - 1], run[i - 1 + 1]);
      StepProgram(run[i - 1], run[i], k);
    }
  }

  // -------------------------------------------------------------------
  // The order of the program
  // -------------------------------------------------------------------

  /**
   In every reachable state, for any number of threads, what a started task has submitted so far is the
   first of what its body submits, in the order of the body, and all of it once its call has returned.
  */
  lemma ProgramOrder(run: seq<State>, i: nat, k: nat)
    requires IsRun(run) && i < |run| && k < |run[i].started|
    ensures MadeBy(run[i], k) <= run[i].started[k].sub.task.body
    ensures (forall t: nat, a: nat :: !RunsAt(run[i], k, t, a)) ==> MadeBy(run[i], k) == run[i].started[k].sub.task.body
  {
    hide IsRun;
    hide Those;
    RunProgram(run, i, k);
    var s := run[i];
    if Total(s, StartOf(k)) > 0 {
      var t := SumWitness(s.threads, OnStack(StartOf(k)));
      var a := SumWitness(s.threads[t].stack, StartOf(k));
      assert RunsAt(s, k, t, a) && GoesOn(s, k, t, a);
    }
  }

  lemma {:induction false} RunCaller(run: seq<State>, i: nat, t: nat)
    requires IsRun(run) && i < |run| && t < |run[0].threads|
    ensures |run[i].threads| == |run[0].threads|
    ensures MadeOutside(run[i], t) + run[i].threads[t].todo == run[0].threads[t].todo
  {
    RunSizes(run, i);
    if i > 0 {
      RunCaller(run, i - 1, t);
      RunSizes(run, i - 1);
      assert Step(run[i - 1], run[i - 1 + 1]);
      StepCaller(run[i - 1], run[i], t);
    }
  }

  lemma StepCaller(s: State, s': State, t: nat)
    requires Step(s, s') && t < |s.threads|
    ensures |s'.threads| == |s.threads|
    ensures MadeOutside(s', t) + s'.threads[t].todo == MadeOutside(s, t) + s.threads[t].todo
  {
    hide Those;
    var u: nat, j: nat :| Enabled(s, u, j) && s' == Next(s, u, j);
    StepHistories(s, u, j);
    if s.threads[u].stack == [] {
      MadeSnoc(Outer(t), s.submitted, Called(s, u, Outside, s.threads[u].todo[0]));
    } else {
      NextThreads(s, u, j);
      var f := Top(s.threads[u]);
      if f.InProcess? && f.rest != [] {
        MadeSnoc(Outer(t), s.submitted, Called(s, u, Within(f.start), f.rest[0]));
      }
    }
  }

  /** What a caller outside any task has submitted so far is the first of its calls, in their order. */
  lemma CallerProgram(run: seq<State>, i: nat, t: nat)
    requires IsRun(run) && i < |run| && t < |run[0].threads|
    ensures |run[i].threads| == |run[0].threads|
    ensures MadeOutside(run[i], t) <= run[0].threads[t].todo
    ensures run[i].threads[t].todo == [] ==> MadeOutside(run[i], t) == run[0].threads[t].todo
  {
    hide IsRun;
    hide Those;
    RunCaller(run, i, t);
  }

  /** The sends of a broadcast are submitted in the order of the connections, whatever other threads do. */
  lemma BroadcastOrder(run: seq<State>, i: nat, k: nat, id: nat, connections: seq<nat>, send: Task)
    requires IsRun(run) && i < |run| && k < |run[i].started|
    requires run[i].started[k].sub.task == Receive(id, connections, send)
    ensures |MadeBy(run[i], k)| <= |connections|
    ensures forall j :: 0 <= j < |MadeBy(run[i], k)| ==> MadeBy(run[i], k)[j] == Submission(connections[j], send)
    ensures (forall t: nat, a: nat :: !RunsAt(run[i], k, t, a)) ==> |MadeBy(run[i], k)| == |connections|
  {
    hide IsRun;
    hide Those;
    ProgramOrder(run, i, k);
    BroadcastAt(connections, send);
  }

  lemma {:induction false} BroadcastAt(connections: seq<nat>, send: Task)
    ensures |Broadcast(connections, send)| == |connections|
    ensures forall j :: 0 <= j < |connections| ==> Broadcast(connections, send)[j] == Submission(connections[j], send)
  {
    if connections != [] {
      BroadcastAt(connections[1..], send);
    }
  }

  // -------------------------------------------------------------------
  // The order in which the tasks start
  // -------------------------------------------------------------------

  ghost function Both(p: Ticket -> bool, q: Ticket -> bool): Ticket -> bool { (x: Ticket) => p(x) && q(x) }

  /** The submissions to object o, in order. */
  function OnTo(o: nat, subs: seq<Submission>): seq<Submission> {
    if subs == [] then []
    else
      var n := |subs| - 1;
      OnTo(o, subs[..n]) + if subs[n].obj == o then [subs[n]] else []
  }

  lemma {:induction false} ThoseBoth(p: Ticket -> bool, q: Ticket -> bool, tickets: seq<Ticket>)
    ensures Those(Both(p, q), tickets) == Those(p, Those(q, tickets))
  {
    if tickets != [] {
      var n := |tickets| - 1;
      ThoseBoth(p, q, tickets[..n]);
      assert tickets == tickets[..n] + [tickets[n]];
      ThoseSnoc(Both(p, q), tickets[..n], tickets[n]);
      ThoseSnoc(q, tickets[..n], tickets[n]);
      ThoseSnoc(p, Those(q, tickets[..n]), tickets[n]);
    }
  }

  lemma {:induction false} SubsOnTo(o: nat, tickets: seq<Ticket>)
    ensures Subs(Those(To(o), tickets)) == OnTo(o, Subs(tickets))
  {
    if tickets != [] {
      var n := |tickets| - 1;
      SubsOnTo(o, tickets[..n]);
      SubsSnoc(Those(To(o), tickets[..n]), tickets[n]);
      assert tickets == tickets[..n] + [tickets[n]];
      SubsSnoc(tickets[..n], tickets[n]);
      assert Subs(tickets)[..n] == Subs(tickets[..n]);
    }
  }

  lemma ThosePrefix(p: Ticket -> bool, a: seq<Ticket>, b: seq<Ticket>)
    requires a <= b
    ensures Those(p, a) <= Those(p, b)
  {
    hide Those;
    assert b == a + b[|a|..];
    ThoseConcat(p, a, b[|a|..]);
  }

  lemma {:induction false} OnToConcat(o: nat, a: seq<Submission>, b: seq<Submission>)
    ensures OnTo(o, a + b) == OnTo(o, a) + OnTo(o, b)
  {
    if b == [] {
      assert a + b == a;
    } else {
      var n := |b| - 1;
      OnToConcat(o, a, b[..n]);
      assert (a + b)[..|a| + n] == a + b[..n];
    }
  }

  lemma OnToPrefix(o: nat, a: seq<Submission>, b: seq<Submission>)
    requires a <= b
    ensures OnTo(o, a) <= OnTo(o, b)
  {
    hide OnTo;
    assert b == a + b[|a|..];
    OnToConcat(o, a, b[|a|..]);
  }

  /** Of tickets that r selects in the same order from both, those that p selects too. */
  lemma SelectedInOrder(p: Ticket -> bool, r: Ticket -> bool, o: nat, started: seq<Ticket>, submitted: seq<Ticket>)
    requires Those(r, started) <= Those(r, submitted)
    requires forall x :: p(x) && To(o)(x) <==> p(x) && r(x)
    ensures Subs(Those(Both(p, To(o)), started)) <= OnTo(o, Subs(Those(p, submitted)))
    ensures Those(r, started) == Those(r, submitted) ==>
              Subs(Those(Both(p, To(o)), started)) == OnTo(o, Subs(Those(p, submitted)))
  {
    hide Those;
    hide OnTo;
    ThoseSame(Both(p, To(o)), Both(p, r), started);
    ThoseBoth(p, r, started);
    ThosePrefix(p, Those(r, started), Those(r, submitted));
    ThoseBoth(p, r, submitted);
    ThoseSame(Both(p, r), Both(To(o), p), submitted);
    ThoseBoth(To(o), p, submitted);
    SubsOnTo(o, Those(p, submitted));
  }

  /**
   Whatever other threads do: as long as the tasks of a caller on an object start in the order of their
   submission, those the caller submits outside any task start in the order of its calls.
  */
  lemma CallerStartsInOrder(run: seq<State>, i: nat, o: nat, t: nat)
    requires IsRun(run) && i < |run| && t < |run[0].threads| && InCallerOrder(run[i], o, t)
    ensures Subs(Those(Both(Outer(t), To(o)), run[i].started)) <= OnTo(o, run[0].threads[t].todo)
  {
    hide IsRun;
    hide Those;
    hide OnTo;
    CallerProgram(run, i, t);
    SelectedInOrder(Outer(t), By(o, t), o, run[i].started, run[i].submitted);
    OnToPrefix(o, MadeOutside(run[i], t), run[0].threads[t].todo);
  }

  /** With a single thread nothing overtakes, and when it has finished everything submitted has started. */
  lemma SameOrder(run: seq<State>, i: nat, o: nat)
    requires IsRun(run) && i < |run| && |run[0].threads| == 1 && o < |run[i].objects|
    ensures |run[i].threads| == 1
    ensures Those(To(o), run[i].started) <= Those(To(o), run[i].submitted)
    ensures Finished(run[i].threads[0]) ==> Those(To(o), run[i].started) == Those(To(o), run[i].submitted)
  {
    hide Those;
    SingleThreadOrder(run, i, o);
    if Finished(run[i].threads[0]) {
      FinishedIsQuiescent(run, i);
    }
  }

  /** A single thread: on each object the tasks of one body start in the order of the body. */
  lemma BodyStartsInOrder(run: seq<State>, i: nat, o: nat, k: nat)
    requires IsRun(run) && i < |run| && |run[0].threads| == 1 && o < |run[i].objects| && k < |run[i].started|
    ensures |run[i].threads| == 1
    ensures var body := run[i].started[k].sub.task.body;
            && Subs(Those(Both(From(k), To(o)), run[i].started)) <= OnTo(o, body)
            && (Finished(run[i].threads[0]) ==> Subs(Those(Both(From(k), To(o)), run[i].started)) == OnTo(o, body))
  {
    hide IsRun;
    hide Those;
    hide OnTo;
    SameOrder(run, i, o);
    ProgramOrder(run, i, k);
    SelectedInOrder(From(k), To(o), o, run[i].started, run[i].submitted);
    OnToPrefix(o, MadeBy(run[i], k), run[i].started[k].sub.task.body);
  }

  /** A single thread: on each object the tasks called for outside any task start in the order of the calls. */
  lemma CallsStartInOrder(run: seq<State>, i: nat, o: nat)
    requires IsRun(run) && i < |run| && |run[0].threads| == 1 && o < |run[i].objects|
    ensures |run[i].threads| == 1
    ensures var calls := run[0].threads[0].todo;
            && Subs(Those(Both(Outer(0), To(o)), run[i].started)) <= OnTo(o, calls)
            && (Finished(run[i].threads[0]) ==> Subs(Those(Both(Outer(0), To(o)), run[i].started)) == OnTo(o, calls))
  {
    hide IsRun;
    hide Those;
    hide OnTo;
    SameOrder(run, i, o);
    CallerProgram(run, i, 0);
    SelectedInOrder(Outer(0), To(o), o, run[i].started, run[i].submitted);
    OnToPrefix(o, MadeOutside(run[i], 0), run[0].threads[0].todo);
  }

  // -------------------------------------------------------------------
  // Tasks that submit nothing
  // -------------------------------------------------------------------

  ghost predicate Flat(calls: seq<Submission>) {
    forall sub :: sub in calls ==> sub.task.body == []
  }

  /** Then every call of Serialize is made outside any task. */
  lemma {:induction false} RunFlat(run: seq<State>, i: nat)
    requires IsRun(run) && i < |run| && |run[0].threads| == 1 && Flat(run[0].threads[0].todo)
    ensures forall x :: x in run[i].submitted ==> x.from == Outside
  {
    hide Step;
    if i > 0 {
      RunFlat(run, i - 1);
      assert Step(run[i - 1], run[i - 1 + 1]);
      FlatStep(run, i - 1);
    }
  }

  /** A started task was submitted, by the one caller there is, and so is one of its calls. */
  lemma FlatStart(run: seq<State>, i: nat, k: nat)
    requires IsRun(run) && i < |run| && |run[0].threads| == 1 && Flat(run[0].threads[0].todo)
    requires forall x :: x in run[i].submitted ==> x.from == Outside
    requires k < |run[i].started| && run[i].started[k].sub.obj < |run[i].objects|
    ensures run[i].started[k].sub.task.body == []
  {
    hide IsRun;
    hide Those;
    var s := run[i];
    var x := s.started[k];
    SameOrder(run, i, x.sub.obj);
    ThoseIn(To(x.sub.obj), s.started, x);
    ThoseIn(To(x.sub.obj), s.submitted, x);
    AllOutside(run, i);
    CallerProgram(run, i, 0);
    var j :| 0 <= j < |s.submitted| && s.submitted[j] == x;
    assert Subs(s.submitted)[j] in run[0].threads[0].todo;
  }

  lemma AllOutside(run: seq<State>, i: nat)
    requires IsRun(run) && i < |run| && |run[0].threads| == 1
    requires forall x :: x in run[i].submitted ==> x.from == Outside
    ensures MadeOutside(run[i], 0) == Subs(run[i].submitted)
  {
    hide Those;
    RunOnlyCaller(run, i);
    ThoseAll(Outer(0), run[i].submitted);
  }

  /** What has started is a task of an object there is. */
  lemma {:induction false} RunStarted(run: seq<State>, i: nat)
    requires IsRun(run) && i < |run|
    ensures forall x :: x in run[i].started ==> x.sub.obj < |run[i].objects|
  {
    hide Step;
    if i > 0 {
      RunStarted(run, i - 1);
      RunInv(run, i - 1);
      assert Step(run[i - 1], run[i - 1 + 1]);
      StepStarted(run[i - 1], run[i]);
    }
  }

  lemma StepStarted(s: State, s': State)
    requires WellFormed(s) && Step(s, s') && forall x :: x in s.started ==> x.sub.obj < |s.objects|
    ensures forall x :: x in s'.started ==> x.sub.obj < |s'.objects|
  {
    var u: nat, j: nat :| Enabled(s, u, j) && s' == Next(s, u, j);
    StepHistories(s, u, j);
    NextSizes(s, u, j);
    if Starts(s, u, j) != [] && Top(s.threads[u]).AtDequeue? {
      assert QueueReaches(FrameObj(Top(s.threads[u])), s.objects[FrameObj(Top(s.threads[u]))].queue, |s.objects|);
    }
  }

  /** A task that submitted something would be one of the calls. */
  lemma FlatStep(run: seq<State>, i: nat)
    requires IsRun(run) && i + 1 < |run| && |run[0].threads| == 1 && Flat(run[0].threads[0].todo)
    requires forall x :: x in run[i].submitted ==> x.from == Outside
    ensures forall x :: x in run[i + 1].submitted ==> x.from == Outside
  {
    hide Those;
    hide WellFormed;
    hide ObjectInv;
    hide Next;
    hide Init;
    var s := run[i];
    assert Step(run[i], run[i + 1]);
    var u: nat, j: nat :| Enabled(s, u, j) && run[i + 1] == Next(s, u, j);
    StepHistories(s, u, j);
    var th := s.threads[u];
    if th.stack != [] && Top(th).InProcess? && Top(th).rest != [] {
      var k := Top(th).start;
      RunProgram(run, i, k);
      assert RunsAt(s, k, u, |th.stack| - 1) && GoesOn(s, k, u, |th.stack| - 1);
      RunStarted(run, i);
      FlatStart(run, i, k);
      assert false;
    }
  }

  /** A single thread, and tasks that submit nothing: on each object they start in the order of the calls. */
  lemma FlatStartsInOrder(run: seq<State>, i: nat, o: nat)
    requires IsRun(run) && i < |run| && |run[0].threads| == 1 && o < |run[i].objects| && Flat(run[0].threads[0].todo)
    ensures |run[i].threads| == 1
    ensures var calls := run[0].threads[0].todo;
            && Subs(Those(To(o), run[i].started)) <= OnTo(o, calls)
            && (Finished(run[i].threads[0]) ==> Subs(Those(To(o), run[i].started)) == OnTo(o, calls))
  {
    hide IsRun;
    hide Those;
    hide OnTo;
    RunFlat(run, i);
    AllOutside(run, i);
    SameOrder(run, i, o);
    CallerProgram(run, i, 0);
    SubsOnTo(o, run[i].submitted);
    OnToPrefix(o, MadeOutside(run[i], 0), run[0].threads[0].todo);
    SubsPrefix(Those(To(o), run[i].started), Those(To(o), run[i].submitted));
  }

  lemma SubsPrefix(a: seq<Ticket>, b: seq<Ticket>)
    requires a <= b
    ensures Subs(a) <= Subs(b)
  {
  }
}
