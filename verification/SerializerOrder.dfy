/**
 The order in which the tasks of one caller start: exactly when it is the order of their submission,
 for any number of threads, and a run of two threads in which it is not.
*/
module SerializerOrder {
  import opened Sums
  import opened Serializer

  // -------------------------------------------------------------------
  // The tickets of one caller
  // -------------------------------------------------------------------

  /** The tickets that p selects, in order. */
  ghost function Those(p: Ticket -> bool, tickets: seq<Ticket>): (r: seq<Ticket>)
    ensures |r| <= |tickets|
  {
    if tickets == [] then []
    else
      var n := |tickets| - 1;
      Those(p, tickets[..n]) + if p(tickets[n]) then [tickets[n]] else []
  }

  /** The submissions of thread t to object o. */
  ghost function By(o: nat, t: nat): Ticket -> bool { (x: Ticket) => x.who == t && x.sub.obj == o }

  /** The submissions to object o. */
  ghost function To(o: nat): Ticket -> bool { (x: Ticket) => x.sub.obj == o }

  lemma ThoseSnoc(p: Ticket -> bool, tickets: seq<Ticket>, x: Ticket)
    ensures Those(p, tickets + [x]) == if p(x) then Those(p, tickets) + [x] else Those(p, tickets)
  {
    assert (tickets + [x])[..|tickets|] == tickets;
  }

  lemma {:induction false} ThoseConcat(p: Ticket -> bool, a: seq<Ticket>, b: seq<Ticket>)
    ensures Those(p, a + b) == Those(p, a) + Those(p, b)
  {
    if b == [] {
      assert a + b == a;
    } else {
      var n := |b| - 1;
      assert a + b == (a + b[..n]) + [b[n]];
      ThoseConcat(p, a, b[..n]);
      ThoseSnoc(p, a + b[..n], b[n]);
    }
  }

  lemma {:induction false} ThoseNone(p: Ticket -> bool, tickets: seq<Ticket>)
    requires forall i :: 0 <= i < |tickets| ==> !p(tickets[i])
    ensures Those(p, tickets) == []
  {
    if tickets != [] {
      hide Those;
      var n := |tickets| - 1;
      ThoseNone(p, tickets[..n]);
      ThoseSnoc(p, tickets[..n], tickets[n]);
      assert tickets == tickets[..n] + [tickets[n]];
    }
  }

  lemma {:induction false} ThoseAll(p: Ticket -> bool, tickets: seq<Ticket>)
    requires forall i :: 0 <= i < |tickets| ==> p(tickets[i])
    ensures Those(p, tickets) == tickets
  {
    if tickets != [] {
      hide Those;
      var n := |tickets| - 1;
      ThoseAll(p, tickets[..n]);
      ThoseSnoc(p, tickets[..n], tickets[n]);
      assert tickets == tickets[..n] + [tickets[n]];
    }
  }

  lemma {:induction false} ThoseSame(p: Ticket -> bool, q: Ticket -> bool, tickets: seq<Ticket>)
    requires forall x :: x in tickets ==> p(x) == q(x)
    ensures Those(p, tickets) == Those(q, tickets)
  {
    if tickets != [] {
      ThoseSame(p, q, tickets[..|tickets| - 1]);
    }
  }

  /** Whatever is selected was there. */
  lemma {:induction false} ThoseIn(p: Ticket -> bool, tickets: seq<Ticket>, x: Ticket)
    ensures x in Those(p, tickets) <==> x in tickets && p(x)
  {
    if tickets != [] {
      var n := |tickets| - 1;
      ThoseIn(p, tickets[..n], x);
      assert tickets == tickets[..n] + [tickets[n]];
    }
  }

  lemma ThoseOne(p: Ticket -> bool, x: Ticket)
    ensures Those(p, [x]) == if p(x) then [x] else []
  {
    assert [x][..0] == [];
  }

  /** An eligible element is the first of its thread in the queue. */
  lemma EligibleFirst(queue: seq<Ticket>, k: nat, o: nat, t: nat)
    requires Eligible(queue, k)
    ensures Those(By(o, t), queue) ==
            (if By(o, t)(queue[k]) then [queue[k]] else []) + Those(By(o, t), queue[..k] + queue[k + 1..])
  {
    hide Those;
    var p := By(o, t);
    var front, back := queue[..k], queue[k + 1..];
    assert queue == front + ([queue[k]] + back);
    ThoseConcat(p, front, [queue[k]] + back);
    ThoseConcat(p, [queue[k]], back);
    ThoseConcat(p, front, back);
    ThoseOne(p, queue[k]);
    if p(queue[k]) {
      ThoseNone(p, front);
    }
  }

  // -------------------------------------------------------------------
  // What a step does to the histories and to one queue
  // -------------------------------------------------------------------

  /** What the step of thread u submits, and what it starts. */
  ghost function Submits(s: State, u: nat): seq<Ticket>
    requires u < |s.threads| && !Finished(s.threads[u])
  {
    var th := s.threads[u];
    if th.stack == [] then [Called(s, u, Outside, th.todo[0])]
    else if Top(th).InProcess? && Top(th).rest != [] then [Called(s, u, Within(Top(th).start), Top(th).rest[0])]
    else []
  }

  ghost function Starts(s: State, u: nat, k: nat): seq<Ticket>
    requires Enabled(s, u, k)
  {
    var th := s.threads[u];
    if th.stack == [] then []
    else if Top(th).AtCas? && s.objects[Top(th).ticket.sub.obj].count == 0 then [Top(th).ticket]
    else if Top(th).AtDequeue? && s.objects[Top(th).obj].queue != [] then [s.objects[Top(th).obj].queue[k]]
    else []
  }

  lemma StepHistories(s: State, u: nat, k: nat)
    requires Enabled(s, u, k)
    ensures Next(s, u, k).submitted == s.submitted + Submits(s, u)
    ensures Next(s, u, k).started == s.started + Starts(s, u, k)
    ensures Submits(s, u) == [] ==> Next(s, u, k).submitted == s.submitted
    ensures Starts(s, u, k) == [] ==> Next(s, u, k).started == s.started
  {
  }

  lemma StepQueue(s: State, u: nat, k: nat, o: nat)
    requires Enabled(s, u, k) && s.threads[u].stack != [] && o < |s.objects|
    ensures |Next(s, u, k).objects| == |s.objects|
    ensures var f := Top(s.threads[u]); var q := s.objects[o].queue;
            Next(s, u, k).objects[o].queue ==
              if FrameObj(f) == o && f.AtEnqueue? then q + [f.ticket]
              else if FrameObj(f) == o && f.AtDequeue? && q != [] then q[..k] + q[k + 1..]
              else q
  {
  }

  /** A call of thread t on o that has not enqueued yet. */
  ghost function Pending(s: State, o: nat, t: nat): seq<Ticket>
    requires t < |s.threads|
  {
    var th := s.threads[t];
    if th.stack != [] && (Top(th).AtCas? || Top(th).AtEnqueue?) && Top(th).ticket.sub.obj == o then [Top(th).ticket] else []
  }

  lemma StepPending(s: State, u: nat, k: nat, o: nat, t: nat)
    requires Enabled(s, u, k) && s.threads[u].stack != [] && StackShape(s.threads[u].stack) && t < |s.threads|
    ensures |Next(s, u, k).threads| == |s.threads|
    ensures var f := Top(s.threads[u]);
            Pending(Next(s, u, k), o, t) ==
            if t != u then Pending(s, o, t)
            else if f.AtCas? then if FrameObj(f) == o && s.objects[o].count != 0 then [f.ticket] else []
            else if f.InProcess? && f.rest != [] && f.rest[0].obj == o then Submits(s, u)
            else []
  {
    NextThreads(s, u, k);
  }

  // -------------------------------------------------------------------
  // Lined up
  // -------------------------------------------------------------------

  /** What t has submitted to o has started, or is in the queue, or is about to be, in this order. */
  ghost predicate Lined(s: State, o: nat, t: nat)
    requires o < |s.objects| && t < |s.threads|
  {
    Those(By(o, t), s.submitted)
    == Those(By(o, t), s.started) + Those(By(o, t), s.objects[o].queue) + Pending(s, o, t)
  }

  /** Thread t is about to win a CAS on o. */
  ghost predicate WinsNext(s: State, o: nat, t: nat) {
    && t < |s.threads| && s.threads[t].stack != [] && Top(s.threads[t]).AtCas?
    && Top(s.threads[t]).ticket.sub.obj == o < |s.objects| && s.objects[o].count == 0
  }

  /** Step s to s' is a CAS on o won by thread t. */
  ghost predicate Wins(s: State, s': State, o: nat, t: nat) {
    WinsNext(s, o, t) && s' == Next(s, t, 0)
  }

  /** A task of t is in the queue of o. */
  ghost predicate HasQueued(s: State, o: nat, t: nat) {
    o < |s.objects| && exists x :: x in s.objects[o].queue && x.who == t
  }

  /** Thread t wins a CAS on o while a task of its own is in the queue. */
  ghost predicate Overtakes(s: State, s': State, o: nat, t: nat) {
    Wins(s, s', o, t) && HasQueued(s, o, t)
  }

  /** The choice of an element to dequeue does not matter to a CAS. */
  lemma AnyChoice(s: State, o: nat, t: nat, k: nat)
    requires WinsNext(s, o, t) && Enabled(s, t, k)
    ensures Next(s, t, k) == Next(s, t, 0)
  {
  }

  lemma QueueIsOf(s: State, o: nat, t: nat)
    requires WellFormed(s) && o < |s.objects| && !HasQueued(s, o, t)
    ensures Those(By(o, t), s.objects[o].queue) == []
  {
    ThoseNone(By(o, t), s.objects[o].queue);
  }

  lemma OwnTicketOf(s: State, u: nat)
    requires WellFormed(s) && u < |s.threads|
    ensures OwnTicket(s.threads[u], u) && StackShape(s.threads[u].stack)
  {
  }

  /** A step of another thread. */
  lemma OtherLined(s: State, u: nat, k: nat, o: nat, t: nat)
    requires WellFormed(s) && Enabled(s, u, k) && s.threads[u].stack != []
    requires o < |s.objects| && t < |s.threads| && t != u && Lined(s, o, t)
    ensures |Next(s, u, k).objects| == |s.objects| && |Next(s, u, k).threads| == |s.threads|
    ensures Lined(Next(s, u, k), o, t)
  {
    hide Those;
    hide Next;
    hide WellFormed;
    var p := By(o, t);
    OwnTicketOf(s, u);
    StepHistories(s, u, k);
    StepQueue(s, u, k, o);
    StepPending(s, u, k, o, t);
    var f := Top(s.threads[u]);
    match f
    case AtCas(x) => ThoseSnoc(p, s.started, x);
    case AtEnqueue(x) => ThoseSnoc(p, s.objects[o].queue, x);
    case AtDequeue(_) => DequeueLined(s, u, k, o, t);
    case InProcess(_, start, rest) =>
      if rest != [] {
        ThoseSnoc(p, s.submitted, Called(s, u, Within(start), rest[0]));
      }
    case _ =>
  }

  /** Whoever dequeues, from whichever object. */
  lemma DequeueLined(s: State, u: nat, k: nat, o: nat, t: nat)
    requires WellFormed(s) && Enabled(s, u, k) && s.threads[u].stack != [] && Top(s.threads[u]).AtDequeue?
    requires o < |s.objects| && t < |s.threads|
    ensures |Next(s, u, k).objects| == |s.objects|
    ensures var s' := Next(s, u, k); var p := By(o, t);
            Those(p, s'.started) + Those(p, s'.objects[o].queue) == Those(p, s.started) + Those(p, s.objects[o].queue)
  {
    hide Those;
    hide Next;
    hide Reaches;
    StepHistories(s, u, k);
    StepQueue(s, u, k, o);
    var b := Top(s.threads[u]).obj;
    var q := s.objects[b].queue;
    if q != [] {
      assert QueueReaches(b, q, |s.objects|);
      ThoseSnoc(By(o, t), s.started, q[k]);
      if b == o {
        EligibleFirst(q, k, o, t);
      }
    }
  }

  /** The thread itself enqueues. */
  lemma EnqueueLined(p: Ticket -> bool, started: seq<Ticket>, q: seq<Ticket>, x: Ticket)
    requires p(x)
    ensures Those(p, started) + Those(p, q + [x]) + [] == Those(p, started) + Those(p, q) + [x]
  {
    hide Those;
    ThoseSnoc(p, q, x);
  }

  /** The thread itself makes its CAS. */
  lemma CasLined(s: State, k: nat, o: nat, t: nat)
    requires WellFormed(s) && Enabled(s, t, k) && s.threads[t].stack != [] && Top(s.threads[t]).AtCas?
    requires o < |s.objects| && Lined(s, o, t) && !(WinsNext(s, o, t) && HasQueued(s, o, t))
    ensures |Next(s, t, k).objects| == |s.objects| && |Next(s, t, k).threads| == |s.threads|
    ensures Lined(Next(s, t, k), o, t)
  {
    hide Those;
    hide Next;
    hide Reaches;
    StepHistories(s, t, k);
    StepQueue(s, t, k, o);
    StepPending(s, t, k, o, t);
    ThoseSnoc(By(o, t), s.started, Top(s.threads[t]).ticket);
    if WinsNext(s, o, t) {
      QueueIsOf(s, o, t);
    }
  }

  /** The thread's task submits. */
  lemma SubmitLined(s: State, k: nat, o: nat, t: nat)
    requires Enabled(s, t, k) && s.threads[t].stack != [] && StackShape(s.threads[t].stack) && Top(s.threads[t]).InProcess?
    requires o < |s.objects| && Lined(s, o, t)
    ensures |Next(s, t, k).objects| == |s.objects| && |Next(s, t, k).threads| == |s.threads|
    ensures Lined(Next(s, t, k), o, t)
  {
    hide Those;
    hide Next;
    StepHistories(s, t, k);
    StepQueue(s, t, k, o);
    StepPending(s, t, k, o, t);
    var f := Top(s.threads[t]);
    if f.rest != [] {
      ThoseSnoc(By(o, t), s.submitted, Called(s, t, Within(f.start), f.rest[0]));
    }
  }

  /** A step of the thread itself. */
  lemma OwnLined(s: State, k: nat, o: nat, t: nat)
    requires WellFormed(s) && Enabled(s, t, k) && s.threads[t].stack != []
    requires o < |s.objects| && Lined(s, o, t) && !(WinsNext(s, o, t) && HasQueued(s, o, t))
    ensures |Next(s, t, k).objects| == |s.objects| && |Next(s, t, k).threads| == |s.threads|
    ensures Lined(Next(s, t, k), o, t)
  {
    hide Those;
    hide Next;
    hide WellFormed;
    var f := Top(s.threads[t]);
    OwnTicketOf(s, t);
    if f.AtCas? {
      CasLined(s, k, o, t);
    } else if f.InProcess? {
      SubmitLined(s, k, o, t);
    } else {
      StepHistories(s, t, k);
      StepQueue(s, t, k, o);
      StepPending(s, t, k, o, t);
      if f.AtEnqueue? && f.ticket.sub.obj == o {
        EnqueueLined(By(o, t), s.started, s.objects[o].queue, f.ticket);
      } else if f.AtDequeue? {
        DequeueLined(s, t, k, o, t);
      }
    }
  }

  lemma StepLined(s: State, s': State, o: nat, t: nat)
    requires WellFormed(s) && Step(s, s') && o < |s.objects| && t < |s.threads|
    requires Lined(s, o, t) && !Overtakes(s, s', o, t)
    ensures |s'.objects| == |s.objects| && |s'.threads| == |s.threads|
    ensures Lined(s', o, t)
  {
    hide Lined;
    hide WellFormed;
    var u: nat, k: nat :| Enabled(s, u, k) && s' == Next(s, u, k);
    if s.threads[u].stack == [] {
      CallLined(s, u, k, o, t);
    } else if u == t {
      if WinsNext(s, o, t) {
        AnyChoice(s, o, t, k);
      }
      OwnLined(s, k, o, t);
    } else {
      OtherLined(s, u, k, o, t);
    }
  }

  /** A call from outside any task. */
  lemma CallLined(s: State, u: nat, k: nat, o: nat, t: nat)
    requires Enabled(s, u, k) && s.threads[u].stack == [] && o < |s.objects| && t < |s.threads| && Lined(s, o, t)
    ensures |Next(s, u, k).objects| == |s.objects| && |Next(s, u, k).threads| == |s.threads|
    ensures Lined(Next(s, u, k), o, t)
  {
    hide Those;
    var x := Called(s, u, Outside, s.threads[u].todo[0]);
    ThoseSnoc(By(o, t), s.submitted, x);
    assert t != u ==> Pending(Next(s, u, k), o, t) == Pending(s, o, t);
    assert t == u ==> Pending(s, o, t) == [];
    assert t == u ==> Pending(Next(s, u, k), o, t) == if x.sub.obj == o then [x] else [];
  }

  // -------------------------------------------------------------------
  // Out of line for good
  // -------------------------------------------------------------------

  /** What has started of t's submissions to o is the first of them, in the order of submission. */
  ghost predicate InCallerOrder(s: State, o: nat, t: nat) {
    Those(By(o, t), s.started) <= Those(By(o, t), s.submitted)
  }

  /** At place p something else has started than was submitted. */
  ghost predicate Differs(s: State, o: nat, t: nat, p: nat) {
    && p < |Those(By(o, t), s.started)| && p < |Those(By(o, t), s.submitted)|
    && Those(By(o, t), s.started)[p] != Those(By(o, t), s.submitted)[p]
  }

  lemma DiffersForGood(s: State, s': State, o: nat, t: nat, p: nat)
    requires Step(s, s') && Differs(s, o, t, p)
    ensures Differs(s', o, t, p)
  {
    hide Those;
    var u: nat, k: nat :| Enabled(s, u, k) && s' == Next(s, u, k);
    hide Next;
    StepHistories(s, u, k);
    ThoseConcat(By(o, t), s.submitted, Submits(s, u));
    ThoseConcat(By(o, t), s.started, Starts(s, u, k));
  }

  /** The number of a submission is its place among all. */
  ghost predicate Numbered(s: State) {
    forall i :: 0 <= i < |s.submitted| ==> s.submitted[i].num == i
  }

  lemma StepNumbered(s: State, s': State)
    requires Step(s, s') && Numbered(s)
    ensures Numbered(s')
  {
    var u: nat, k: nat :| Enabled(s, u, k) && s' == Next(s, u, k);
    hide Next;
    StepHistories(s, u, k);
  }

  lemma {:induction false} RunNumbered(run: seq<State>, i: nat)
    requires IsRun(run) && i < |run|
    ensures Numbered(run[i])
  {
    hide Step;
    if i > 0 {
      RunNumbered(run, i - 1);
      assert Step(run[i - 1], run[i - 1 + 1]);
      StepNumbered(run[i - 1], run[i]);
    }
  }

  /** What is selected of numbered tickets has distinct numbers. */
  lemma {:induction false} ThoseIncrease(p: Ticket -> bool, tickets: seq<Ticket>, i: nat, j: nat)
    requires forall k :: 0 <= k < |tickets| ==> tickets[k].num == k
    requires i < j < |Those(p, tickets)|
    ensures Those(p, tickets)[i].num < Those(p, tickets)[j].num
  {
    var n := |tickets| - 1;
    if j < |Those(p, tickets[..n])| {
      ThoseIncrease(p, tickets[..n], i, j);
    } else {
      ThoseIn(p, tickets[..n], Those(p, tickets[..n])[i]);
    }
  }

  /** One that overtakes has started where one that was submitted before it should have. */
  lemma OvertakingDiffers(s: State, s': State, o: nat, t: nat)
    requires WellFormed(s) && Overtakes(s, s', o, t) && Lined(s, o, t) && Numbered(s)
    ensures Differs(s', o, t, |Those(By(o, t), s.started)|)
  {
    hide Those;
    hide Reaches;
    var p := By(o, t);
    var x := Top(s.threads[t]).ticket;
    ThoseSnoc(p, s.started, x);
    var q := s.objects[o].queue;
    assert QueueReaches(o, q, |s.objects|);
    var y :| y in q && y.who == t;
    ThoseIn(p, q, y);
    var n := |Those(p, s.started)|;
    var m := |Those(p, s.submitted)| - 1;
    assert Those(p, s.submitted)[m] == x;
    ThoseIncrease(p, s.submitted, n, m);
  }

  // -------------------------------------------------------------------
  // Exactly when the order is kept
  // -------------------------------------------------------------------

  ghost predicate NeverOvertakes(run: seq<State>, i: nat, o: nat, t: nat)
    requires i < |run|
  {
    forall j :: 0 <= j < i ==> !Overtakes(run[j], run[j + 1], o, t)
  }

  lemma {:induction false} RunSizes(run: seq<State>, i: nat)
    requires IsRun(run) && i < |run|
    ensures |run[i].objects| == |run[0].objects| && |run[i].threads| == |run[0].threads|
  {
    if i > 0 {
      RunSizes(run, i - 1);
      assert Step(run[i - 1], run[i - 1 + 1]);
      var u: nat, k: nat :| Enabled(run[i - 1], u, k) && run[i] == Next(run[i - 1], u, k);
      NextSizes(run[i - 1], u, k);
    }
  }

  /** A caller's submissions are lined up until it overtakes itself, and then something differs for good. */
  lemma {:induction false} LinedOrDiffers(run: seq<State>, i: nat, o: nat, t: nat)
    requires IsRun(run) && i < |run| && o < |run[i].objects| && t < |run[i].threads|
    ensures if NeverOvertakes(run, i, o, t) then Lined(run[i], o, t) else exists p :: Differs(run[i], o, t, p)
  {
    hide Lined;
    hide Differs;
    hide Overtakes;
    hide Step;
    if i == 0 {
      InitLined(run[0], o, t);
    } else {
      RunSizes(run, i - 1);
      RunSizes(run, i);
      LinedOrDiffers(run, i - 1, o, t);
      RunInv(run, i - 1);
      RunNumbered(run, i - 1);
      assert Step(run[i - 1], run[i - 1 + 1]);
      if !NeverOvertakes(run, i - 1, o, t) {
        var p :| Differs(run[i - 1], o, t, p);
        DiffersForGood(run[i - 1], run[i], o, t, p);
      } else if Overtakes(run[i - 1], run[i - 1 + 1], o, t) {
        OvertakingDiffers(run[i - 1], run[i], o, t);
      } else {
        StepLined(run[i - 1], run[i], o, t);
      }
    }
  }

  lemma InitLined(s: State, o: nat, t: nat)
    requires Init(s) && o < |s.objects| && t < |s.threads|
    ensures Lined(s, o, t)
  {
    assert s.objects[o] == Object(0, []);
    assert s.threads[t].stack == [];
  }

  lemma LinedInOrder(s: State, o: nat, t: nat)
    requires o < |s.objects| && t < |s.threads| && Lined(s, o, t)
    ensures InCallerOrder(s, o, t)
  {
    hide Those;
  }

  /**
   With any number of threads, the tasks that a thread submits to an object start in the order in which it
   submitted them, none of them left out, if and only if the thread never wins a CAS on the object while
   a task of its own is in the queue.
  */
  lemma CallerOrderExactly(run: seq<State>, i: nat, o: nat, t: nat)
    requires IsRun(run) && i < |run| && o < |run[i].objects| && t < |run[i].threads|
    ensures InCallerOrder(run[i], o, t) <==> NeverOvertakes(run, i, o, t)
  {
    hide Overtakes;
    hide Lined;
    hide IsRun;
    LinedOrDiffers(run, i, o, t);
    if NeverOvertakes(run, i, o, t) {
      LinedInOrder(run[i], o, t);
    } else {
      hide Those;
      var p :| Differs(run[i], o, t, p);
    }
  }

  /** So it is kept if no CAS of the thread on the object is won while a call is between the enqueue and the increment. */
  lemma CallerOrderIfCounted(run: seq<State>, i: nat, o: nat, t: nat)
    requires IsRun(run) && i < |run| && o < |run[i].objects| && t < |run[i].threads|
    requires forall j :: 0 <= j < i && Wins(run[j], run[j + 1], o, t) ==> Total(run[j], BetweenOf(o)) == 0
    ensures InCallerOrder(run[i], o, t) && NeverOvertakes(run, i, o, t)
  {
    forall j | 0 <= j < i ensures !Overtakes(run[j], run[j + 1], o, t) {
      if Wins(run[j], run[j + 1], o, t) {
        FastPathOvertakes(run, j, t, 0);
      }
    }
    CallerOrderExactly(run, i, o, t);
  }

  // -------------------------------------------------------------------
  // One thread
  // -------------------------------------------------------------------

  lemma OnlyThreadTotals(s: State, o: nat)
    requires |s.threads| == 1 && StackShape(s.threads[0].stack)
    ensures Total(s, BetweenOf(o)) ==
            if s.threads[0].stack != [] && Top(s.threads[0]) == AtIncrement(o) then 1 else 0
  {
    var stack := s.threads[0].stack;
    assert s.threads == [] + [s.threads[0]];
    SumSnoc([], s.threads[0], OnStack(BetweenOf(o)));
    if stack != [] {
      var n := |stack| - 1;
      SumZero(stack[..n], BetweenOf(o));
      assert stack == stack[..n] + [stack[n]];
      SumSnoc(stack[..n], stack[n], BetweenOf(o));
    }
  }

  /** Every ticket is of the only thread. */
  ghost predicate OnlyCaller(s: State) {
    && (forall x :: x in s.submitted || x in s.started ==> x.who == 0)
    && (forall o, x :: 0 <= o < |s.objects| && x in s.objects[o].queue ==> x.who == 0)
  }

  lemma StepOnlyCaller(s: State, s': State)
    requires WellFormed(s) && Step(s, s') && |s.threads| == 1 && OnlyCaller(s)
    ensures OnlyCaller(s')
  {
    var u: nat, k: nat :| Enabled(s, u, k) && s' == Next(s, u, k);
    StepHistories(s, u, k);
    NextSizes(s, u, k);
    if s.threads[u].stack != [] {
      hide Next;
      OwnTicketOf(s, u);
      forall o, x | 0 <= o < |s'.objects| && x in s'.objects[o].queue ensures x.who == 0 {
        StepQueue(s, u, k, o);
      }
    }
  }

  lemma {:induction false} RunOnlyCaller(run: seq<State>, i: nat)
    requires IsRun(run) && i < |run| && |run[0].threads| == 1
    ensures OnlyCaller(run[i]) && |run[i].threads| == 1
  {
    hide Step;
    RunSizes(run, i);
    if i > 0 {
      RunOnlyCaller(run, i - 1);
      RunInv(run, i - 1);
      assert Step(run[i - 1], run[i - 1 + 1]);
      StepOnlyCaller(run[i - 1], run[i]);
    } else {
      assert forall o :: 0 <= o < |run[0].objects| ==> run[0].objects[o] == Object(0, []);
    }
  }

  /** A single thread at a CAS is not between an enqueue and an increment. */
  lemma OnlyThreadNeverOvertakes(run: seq<State>, i: nat, o: nat)
    requires IsRun(run) && i < |run| && |run[0].threads| == 1 && o < |run[i].objects|
    ensures NeverOvertakes(run, i, o, 0)
  {
    RunSizes(run, i);
    forall j | 0 <= j < i && Wins(run[j], run[j + 1], o, 0) ensures Total(run[j], BetweenOf(o)) == 0 {
      RunInv(run, j);
      RunSizes(run, j);
      OnlyThreadTotals(run[j], o);
    }
    CallerOrderIfCounted(run, i, o, 0);
  }

  /**
   With a single thread the tasks of each object start in the order in which they were
   submitted, nested submissions included: those not started yet are the queue, in order,
   and the one call that has not yet reached it.
  */
  lemma SingleThreadOrder(run: seq<State>, i: nat, o: nat)
    requires IsRun(run) && i < |run| && |run[0].threads| == 1 && o < |run[i].objects|
    ensures |run[i].threads| == 1
    ensures Those(To(o), run[i].submitted) ==
            Those(To(o), run[i].started) + run[i].objects[o].queue + Pending(run[i], o, 0)
  {
    hide Those;
    var s := run[i];
    RunOnlyCaller(run, i);
    OnlyThreadNeverOvertakes(run, i, o);
    LinedOrDiffers(run, i, o, 0);
    ThoseSame(To(o), By(o, 0), s.submitted);
    ThoseSame(To(o), By(o, 0), s.started);
    RunInv(run, i);
    assert QueueReaches(o, s.objects[o].queue, |s.objects|);
    ThoseAll(By(o, 0), s.objects[o].queue);
  }
}
