/**
 Termination of the serializer protocol and exactly-once processing: every schedule
 of finitely many tasks, each submitting finitely many, ends with all counts zero,
 all queues empty and every submitted task started once.
*/
module SerializerProgress {
  import opened Sums
  import opened Serializer

  // -------------------------------------------------------------------
  // Sums over the submissions a submission leads to
  // -------------------------------------------------------------------

  /** The sum of f over a submission and everything its task submits, at any depth. */
  ghost function Tree(f: Submission -> nat, sub: Submission): nat
    decreases sub, 1
  {
    f(sub) + Forest(f, sub.task.body)
  }

  ghost function Forest(f: Submission -> nat, subs: seq<Submission>): nat
    decreases subs, 0
  {
    if subs == [] then 0 else Tree(f, subs[0]) + Forest(f, subs[1..])
  }

  ghost function One(): Submission -> nat { (sub: Submission) => 1 }

  ghost function Is(x: Submission): Submission -> nat { (sub: Submission) => if sub == x then 1 else 0 }

  // -------------------------------------------------------------------
  // Potentials: a sum over what is still to be submitted, the frames and the queues
  // -------------------------------------------------------------------

  /** A weight for submissions still to be made, `scale` times f, one for frames and one for queued tasks. */
  datatype Weights = Weights(scale: nat, f: Submission -> nat, frame: Frame -> nat, queued: Ticket -> nat)

  ghost function ThreadWeight(w: Weights): Thread -> nat {
    (th: Thread) => w.scale * Forest(w.f, th.todo) + Sum(th.stack, w.frame)
  }

  ghost function ObjectWeight(w: Weights): Object -> nat {
    (ob: Object) => Sum(ob.queue, w.queued)
  }

  ghost function Potential(s: State, w: Weights): nat {
    Sum(s.threads, ThreadWeight(w)) + Sum(s.objects, ObjectWeight(w))
  }

  ghost function FramesWeight(frames: seq<Frame>, w: Weights): nat
    requires |frames| <= 2
  {
    (if |frames| > 0 then w.frame(frames[0]) else 0) + (if |frames| > 1 then w.frame(frames[1]) else 0)
  }

  lemma ReplaceWeight(s: State, t: nat, frames: seq<Frame>, w: Weights)
    requires t < |s.threads| && s.threads[t].stack != [] && |frames| <= 2
    ensures Sum(Replace(s, t, frames).threads, ThreadWeight(w)) ==
            Sum(s.threads, ThreadWeight(w)) - w.frame(Top(s.threads[t])) + FramesWeight(frames, w)
    ensures w.frame(Top(s.threads[t])) <= Sum(s.threads, ThreadWeight(w))
  {
    hide Sum;
    var th := s.threads[t];
    var n := |th.stack| - 1;
    SumUpdate(s.threads, t, th.(stack := th.stack[..n] + frames), ThreadWeight(w));
    SumConcat(th.stack[..n], frames, w.frame);
    SumShort(frames, w.frame);
    assert th.stack == th.stack[..n] + [th.stack[n]];
    SumSnoc(th.stack[..n], th.stack[n], w.frame);
  }

  lemma QueueWeight(s: State, o: nat, ob: Object, w: Weights)
    requires o < |s.objects|
    ensures Sum(s.objects[o := ob], ObjectWeight(w)) ==
            Sum(s.objects, ObjectWeight(w)) - Sum(s.objects[o].queue, w.queued) + Sum(ob.queue, w.queued)
    ensures Sum(s.objects[o].queue, w.queued) <= Sum(s.objects, ObjectWeight(w))
  {
    SumUpdate(s.objects, o, ob, ObjectWeight(w));
  }

  /** What a step adds to and removes from the queues. */
  lemma StepObjects(s: State, t: nat, k: nat, w: Weights)
    requires Enabled(s, t, k) && s.threads[t].stack != []
    ensures var f := Top(s.threads[t]);
            Sum(Next(s, t, k).objects, ObjectWeight(w))
            + (if f.AtDequeue? && s.objects[f.obj].queue != [] then w.queued(s.objects[f.obj].queue[k]) else 0)
            == Sum(s.objects, ObjectWeight(w))
            + (if f.AtEnqueue? then w.queued(f.ticket) else 0)
  {
    var f := Top(s.threads[t]);
    var o := FrameObj(f);
    var ob := s.objects[o];
    match f
    case AtCas(_) => QueueWeight(s, o, ob.(count := 1), w);
    case AtEnqueue(x) =>
      QueueWeight(s, o, ob.(queue := ob.queue + [x]), w);
      SumSnoc(ob.queue, x, w.queued);
    case AtIncrement(_) => QueueWeight(s, o, ob.(count := ob.count + 1), w);
    case AtDequeue(_) =>
      if ob.queue != [] {
        QueueWeight(s, o, ob.(queue := ob.queue[..k] + ob.queue[k + 1..]), w);
        SumRemove(ob.queue, k, w.queued);
      }
    case InProcess(_, _, _) =>
    case AtDecrement(_) => QueueWeight(s, o, ob.(count := ob.count - 1), w);
  }

  lemma StepPotential(s: State, t: nat, k: nat, w: Weights)
    requires Enabled(s, t, k) && s.threads[t].stack != []
    ensures var f := Top(s.threads[t]);
            Potential(Next(s, t, k), w) + w.frame(f)
            + (if f.AtDequeue? && s.objects[f.obj].queue != [] then w.queued(s.objects[f.obj].queue[k]) else 0)
            == Potential(s, w) + FramesWeight(NewFrames(s, t, k), w)
            + (if f.AtEnqueue? then w.queued(f.ticket) else 0)
  {
    StepObjects(s, t, k, w);
    NextThreads(s, t, k);
    ReplaceWeight(s, t, NewFrames(s, t, k), w);
  }

  lemma CallPotential(s: State, t: nat, k: nat, w: Weights)
    requires Enabled(s, t, k) && s.threads[t].stack == []
    ensures var todo := s.threads[t].todo;
            Potential(Next(s, t, k), w) + w.scale * Forest(w.f, todo)
            == Potential(s, w) + w.scale * Forest(w.f, todo[1..]) + w.frame(AtCas(Called(s, t, Outside, todo[0])))
  {
    var todo := s.threads[t].todo;
    SumUpdate(s.threads, t, Thread(todo[1..], [AtCas(Called(s, t, Outside, todo[0]))]), ThreadWeight(w));
    SumShort([AtCas(Called(s, t, Outside, todo[0]))], w.frame);
  }

  // -------------------------------------------------------------------
  // Exactly once
  // -------------------------------------------------------------------

  ghost function UnstartedFrame(f: Submission -> nat): Frame -> nat {
    (fr: Frame) =>
      if fr.AtCas? || fr.AtEnqueue? then Tree(f, fr.ticket.sub)
      else if fr.InProcess? then Forest(f, fr.rest)
      else 0
  }

  ghost function Weigh(f: Submission -> nat): Ticket -> nat { (x: Ticket) => f(x.sub) }

  ghost function UnstartedQueued(f: Submission -> nat): Ticket -> nat {
    (q: Ticket) => Tree(f, q.sub)
  }

  /** How much f weighs in what has not started yet. */
  ghost function Unstarted(f: Submission -> nat): Weights {
    Weights(1, f, UnstartedFrame(f), UnstartedQueued(f))
  }

  /** What starts in a step weighs what the frames and queues lose in it. */
  lemma FrameConserves(s: State, t: nat, k: nat, f: Submission -> nat)
    requires Enabled(s, t, k) && s.threads[t].stack != []
    ensures Sum(Next(s, t, k).started, Weigh(f)) + Potential(Next(s, t, k), Unstarted(f))
            == Sum(s.started, Weigh(f)) + Potential(s, Unstarted(f))
  {
    hide Sum;
    hide Potential;
    StepPotential(s, t, k, Unstarted(f));
    match Top(s.threads[t])
    case AtCas(x) => SumSnoc(s.started, x, Weigh(f));
    case AtDequeue(o) =>
      if s.objects[o].queue != [] {
        SumSnoc(s.started, s.objects[o].queue[k], Weigh(f));
      }
    case _ =>
  }

  /** Nothing is lost and nothing is duplicated: what has started and what has not add up to a constant. */
  lemma StepConserves(s: State, s': State, f: Submission -> nat)
    requires Step(s, s')
    ensures Sum(s'.started, Weigh(f)) + Potential(s', Unstarted(f)) == Sum(s.started, Weigh(f)) + Potential(s, Unstarted(f))
  {
    hide Sum;
    hide Potential;
    var t: nat, k: nat :| Enabled(s, t, k) && s' == Next(s, t, k);
    if s.threads[t].stack == [] {
      CallPotential(s, t, k, Unstarted(f));
    } else {
      FrameConserves(s, t, k, f);
    }
  }

  lemma {:induction false} RunConserves(run: seq<State>, i: nat, f: Submission -> nat)
    requires IsRun(run) && i < |run|
    ensures Sum(run[i].started, Weigh(f)) + Potential(run[i], Unstarted(f)) == Potential(run[0], Unstarted(f))
  {
    hide Sum;
    hide Potential;
    if i == 0 {
      SumZero(run[0].started, Weigh(f));
    } else {
      RunConserves(run, i - 1, f);
      assert Step(run[i - 1], run[i - 1 + 1]);
      StepConserves(run[i - 1], run[i], f);
    }
  }

  ghost function Subs(tickets: seq<Ticket>): (r: seq<Submission>)
    ensures |r| == |tickets|
  {
    seq(|tickets|, j requires 0 <= j < |tickets| => tickets[j].sub)
  }

  /** How often x has started. */
  ghost function StartCount(s: State, x: Submission): nat { multiset(Subs(s.started))[x] }

  lemma {:induction false} Occurrences(tickets: seq<Ticket>, x: Submission)
    ensures Sum(tickets, Weigh(Is(x))) == multiset(Subs(tickets))[x]
  {
    if tickets != [] {
      var n := |tickets| - 1;
      Occurrences(tickets[..n], x);
      assert Subs(tickets) == Subs(tickets[..n]) + [tickets[n].sub];
    }
  }

  ghost function TodoCount(x: Submission): Thread -> nat {
    (th: Thread) => Forest(Is(x), th.todo)
  }

  /** How often x occurs among all the submissions the callers of s lead to, at any depth. */
  ghost function Demand(s: State, x: Submission): nat {
    Sum(s.threads, TodoCount(x))
  }

  lemma InitialPotential(s: State, x: Submission)
    requires Init(s)
    ensures Potential(s, Unstarted(Is(x))) == Demand(s, x)
  {
    SumZero(s.objects, ObjectWeight(Unstarted(Is(x))));
    SumLe(s.threads, TodoCount(x), ThreadWeight(Unstarted(Is(x))));
    SumLe(s.threads, ThreadWeight(Unstarted(Is(x))), TodoCount(x));
  }

  /** Nothing left to do anywhere. */
  ghost predicate Quiescent(s: State) {
    && (forall t :: 0 <= t < |s.threads| ==> Finished(s.threads[t]))
    && (forall o :: 0 <= o < |s.objects| ==> s.objects[o] == Object(0, []))
  }

  /** When all threads have finished, every count is zero and every queue empty. */
  lemma FinishedIsQuiescent(run: seq<State>, i: nat)
    requires IsRun(run) && i < |run|
    requires forall t :: 0 <= t < |run[i].threads| ==> Finished(run[i].threads[t])
    ensures Quiescent(run[i])
  {
    RunInv(run, i);
    var s := run[i];
    forall o | 0 <= o < |s.objects| ensures s.objects[o] == Object(0, []) {
      assert ObjectInv(s, o);
      SumZero(s.threads, OnStack(RunnerOf(o)));
      SumZero(s.threads, OnStack(HolderOf(o)));
      SumZero(s.threads, OnStack(BetweenOf(o)));
    }
  }

  /** In a run that has finished every submission has started as often as it was demanded: neither lost nor repeated. */
  lemma ExactlyOnce(run: seq<State>, i: nat, x: Submission)
    requires IsRun(run) && i < |run|
    requires forall t :: 0 <= t < |run[i].threads| ==> Finished(run[i].threads[t])
    ensures StartCount(run[i], x) == Demand(run[0], x)
  {
    FinishedIsQuiescent(run, i);
    RunConserves(run, i, Is(x));
    InitialPotential(run[0], x);
    Occurrences(run[i].started, x);
    SumZero(run[i].threads, ThreadWeight(Unstarted(Is(x))));
    SumZero(run[i].objects, ObjectWeight(Unstarted(Is(x))));
  }

  // -------------------------------------------------------------------
  // Termination
  // -------------------------------------------------------------------

  /** An upper bound on the steps a frame still leads to. */
  ghost function FrameCost(): Frame -> nat {
    (f: Frame) => match f
      case AtCas(x) => 8 * Tree(One(), x.sub) - 1
      case AtEnqueue(x) => 8 * Tree(One(), x.sub) - 2
      case AtIncrement(_) => 2
      case AtDequeue(_) => 1
      case InProcess(_, _, rest) => 3 + 8 * Forest(One(), rest)
      case AtDecrement(_) => 2
  }

  ghost function QueuedCost(): Ticket -> nat {
    (q: Ticket) => 8 * Tree(One(), q.sub) - 5
  }

  ghost function Cost(): Weights { Weights(8, One(), FrameCost(), QueuedCost()) }

  /** An upper bound on the steps a state still leads to. */
  ghost function Measure(s: State): nat { Potential(s, Cost()) }

  lemma FrameDecreases(s: State, t: nat, k: nat)
    requires Enabled(s, t, k) && s.threads[t].stack != []
    requires Top(s.threads[t]).AtDequeue? ==> s.objects[Top(s.threads[t]).obj].queue != []
    ensures Measure(Next(s, t, k)) < Measure(s)
  {
    hide Sum;
    hide Potential;
    StepPotential(s, t, k, Cost());
  }

  lemma StepDecreases(s: State, s': State)
    requires Inv(s) && Step(s, s')
    ensures Measure(s') < Measure(s)
  {
    hide Sum;
    hide Potential;
    hide ObjectInv;
    var t: nat, k: nat :| Enabled(s, t, k) && s' == Next(s, t, k);
    if s.threads[t].stack == [] {
      CallPotential(s, t, k, Cost());
    } else {
      if Top(s.threads[t]).AtDequeue? {
        InvDrain(s, t);
      }
      FrameDecreases(s, t, k);
    }
  }

  /** Every run, under any scheduling, is over within the measure of its first state. */
  lemma {:induction false} RunsAreBounded(run: seq<State>, i: nat)
    requires IsRun(run) && i < |run|
    ensures i + Measure(run[i]) <= Measure(run[0])
  {
    if i > 0 {
      RunsAreBounded(run, i - 1);
      RunInv(run, i - 1);
      assert Step(run[i - 1], run[i - 1 + 1]);
      StepDecreases(run[i - 1], run[i]);
    }
  }

  ghost predicate CanStep(s: State, t: nat) {
    exists k: nat :: Enabled(s, t, k)
  }

  /** A thread that has not finished can always take a step: nobody ever waits for another thread. */
  lemma NobodyWaits(run: seq<State>, i: nat, t: nat)
    requires IsRun(run) && i < |run| && t < |run[i].threads| && !Finished(run[i].threads[t])
    ensures CanStep(run[i], t)
  {
    RunInv(run, i);
    var s := run[i];
    if s.threads[t].stack != [] {
      var n := |s.threads[t].stack| - 1;
      assert FrameReaches(s.threads[t].stack[n], |s.objects|);
    }
    assert Enabled(s, t, 0);
  }

  ghost function Last(run: seq<State>): State
    requires run != []
  {
    run[|run| - 1]
  }

  /**
   Termination and exactly-once together: a run that cannot be extended has every thread finished,
   every count zero, every queue empty, and every submission started as often as it was demanded.
  */
  lemma StuckMeansDone(run: seq<State>, x: Submission)
    requires IsRun(run) && forall t: nat :: !CanStep(Last(run), t)
    ensures Quiescent(Last(run))
    ensures StartCount(Last(run), x) == Demand(run[0], x)
  {
    var i := |run| - 1;
    assert run[i] == Last(run);
    forall t | 0 <= t < |run[i].threads| ensures Finished(run[i].threads[t]) {
      if !Finished(run[i].threads[t]) {
        NobodyWaits(run, i, t);
      }
    }
    FinishedIsQuiescent(run, i);
    ExactlyOnce(run, i, x);
  }

  // -------------------------------------------------------------------
  // The broadcast of a chat message
  // -------------------------------------------------------------------

  /** The submissions of the broadcast loop: one SendChatMessage to every connection in the map. */
  function Broadcast(connections: seq<nat>, send: Task): seq<Submission> {
    if connections == [] then [] else [Submission(connections[0], send)] + Broadcast(connections[1..], send)
  }

  /** The task that handles a received message on a connection. */
  function Receive(id: nat, connections: seq<nat>, send: Task): Task {
    Task(id, Broadcast(connections, send))
  }

  lemma {:induction false} BroadcastCount(connections: seq<nat>, send: Task, c: nat)
    requires send.body == []
    ensures Forest(Is(Submission(c, send)), Broadcast(connections, send)) == multiset(connections)[c]
  {
    if connections == [] {
      assert multiset(connections)[c] == 0;
    } else {
      BroadcastCount(connections[1..], send, c);
      assert connections == [connections[0]] + connections[1..];
      var subs := Broadcast(connections, send);
      var x := Submission(c, send);
      assert subs[1..] == Broadcast(connections[1..], send);
      assert Tree(Is(x), subs[0]) == Is(x)(subs[0]) + Forest(Is(x), []);
      assert Forest(Is(x), subs) == Tree(Is(x), subs[0]) + Forest(Is(x), subs[1..]);
    }
  }

  /** How often x is demanded by the threads other than t. */
  ghost function Others(s: State, t: nat, x: Submission): nat
    requires t < |s.threads|
  {
    Sum(s.threads[..t], TodoCount(x)) + Sum(s.threads[t + 1..], TodoCount(x))
  }

  /**
   A message received on a connection r, itself among the connections or not, by any of any number of
   threads, the others submitting to the same connections as they please: when the run is over the send
   task has started exactly once on every connection of the map for this message, and beyond that as often
   as the others demanded it, by the messages that they have received or otherwise.
  */
  lemma BroadcastDelivers(run: seq<State>, t: nat, r: nat, id: nat, connections: seq<nat>, send: Task, c: nat)
    requires IsRun(run) && send.body == [] && connections != []
    requires forall i, j :: 0 <= i < j < |connections| ==> connections[i] != connections[j]
    requires t < |run[0].threads| && run[0].threads[t].todo == [Submission(r, Receive(id, connections, send))]
    requires forall u: nat :: !CanStep(Last(run), u)
    ensures var x := Submission(c, send);
            StartCount(Last(run), x) == (if c in connections then 1 else 0) + Others(run[0], t, x)
  {
    var x := Submission(c, send);
    StuckMeansDone(run, x);
    SumSplit(run[0].threads, t, TodoCount(x));
    BroadcastCount(connections, send, c);
    var todo := run[0].threads[t].todo;
    assert Forest(Is(x), todo) == Tree(Is(x), todo[0]) + Forest(Is(x), todo[1..]);
    DistinctMultiplicity(connections, c);
  }

  /** If nothing else sends it, the task starts exactly once on each connection, and on no other. */
  lemma BroadcastOnly(run: seq<State>, t: nat, r: nat, id: nat, connections: seq<nat>, send: Task, c: nat)
    requires IsRun(run) && send.body == [] && connections != []
    requires forall i, j :: 0 <= i < j < |connections| ==> connections[i] != connections[j]
    requires t < |run[0].threads| && run[0].threads[t].todo == [Submission(r, Receive(id, connections, send))]
    requires forall u :: 0 <= u < |run[0].threads| && u != t ==> Forest(Is(Submission(c, send)), run[0].threads[u].todo) == 0
    requires forall u: nat :: !CanStep(Last(run), u)
    ensures StartCount(Last(run), Submission(c, send)) == if c in connections then 1 else 0
  {
    hide CanStep;
    BroadcastDelivers(run, t, r, id, connections, send, c);
    SumZero(run[0].threads[..t], TodoCount(Submission(c, send)));
    SumZero(run[0].threads[t + 1..], TodoCount(Submission(c, send)));
  }

  lemma {:induction false} DistinctMultiplicity(xs: seq<nat>, c: nat)
    requires forall i, j :: 0 <= i < j < |xs| ==> xs[i] != xs[j]
    ensures multiset(xs)[c] == if c in xs then 1 else 0
  {
    if xs == [] {
      assert c !in xs;
    } else {
      DistinctMultiplicity(xs[1..], c);
      assert xs == [xs[0]] + xs[1..];
    }
  }

  lemma ExtendRun(run: seq<State>, s': State) returns (longer: seq<State>)
    requires IsRun(run) && Step(Last(run), s')
    ensures IsRun(longer) && longer == run + [s'] && longer[0] == run[0] && Last(longer) == s'
  {
    longer := run + [s'];
    forall i | 0 <= i < |longer| - 1 ensures Step(longer[i], longer[i + 1]) {
      if i < |run| - 1 {
        assert Step(run[i], run[i + 1]);
      }
    }
  }
}
