/**
 The optimistic claim protocol of one producer's queue: consumers reserve on
 dequeueOptimisticCount, learn from tailIndex how much of the reservation is backed by
 elements, give the rest back on dequeueOvercommit and claim indices on headIndex. One
 atomic operation per step, any number of consumers, single and bulk dequeues mixed; a
 single dequeue is a bulk dequeue of at most one element. The counters are unbounded
 here; module Circular relates them to the wrapping ones.
*/
module Claims {
  import opened Sums
  import Integers

  // -------------------------------------------------------------------
  // State
  // -------------------------------------------------------------------

  datatype Outcome = Undecided | Decided(got: nat)

  /** A fetch_add on dequeueOptimisticCount: how much, the overcommit read before it, and what came of it. */
  datatype Reservation = Reservation(want: nat, snap: int, outcome: Outcome)

  /** A fetch_add on headIndex: the indices start .. start + len now belong to this consumer. */
  datatype Claim = Claim(who: nat, start: int, len: nat)

  /** The operation a consumer executes next. */
  datatype Pc =
    | Idle
    | LoadTail(max: nat)                                   // tailIndex.load
    | LoadOver(max: nat, tail: int)                        // dequeueOvercommit.load
    | LoadOptimistic(max: nat, tail: int, over: int)       // dequeueOptimisticCount.load and first test
    | Reserve(want: nat, over: int)                        // dequeueOptimisticCount.fetch_add
    | ReloadTail(id: nat, want: nat, mine: int, over: int) // tailIndex.load and second test
    | Refund(extra: nat, got: nat, claims: bool)           // dequeueOvercommit.fetch_add
    | TakeHead(got: nat)                                   // headIndex.fetch_add

  /** `history` lists the reservations in the order of their fetch_add, `claims` the claims in theirs. */
  datatype State = State(tail: int, optimistic: int, overcommit: int, head: int,
                         threads: seq<Pc>, history: seq<Reservation>, claims: seq<Claim>)

  /** The producer publishes n more elements, or thread t moves; an idle one starts a dequeue of at most max. */
  datatype Action = Publish(n: nat) | Move(t: nat, max: nat)

  // -------------------------------------------------------------------
  // Steps
  // -------------------------------------------------------------------

  predicate Enabled(s: State, a: Action) {
    a.Move? ==> a.t < |s.threads| && (s.threads[a.t].ReloadTail? ==> s.threads[a.t].id < |s.history|)
  }

  function Go(s: State, t: nat, pc: Pc): State
    requires t < |s.threads|
  {
    s.(threads := s.threads[t := pc])
  }

  function Next(s: State, a: Action): State
    requires Enabled(s, a)
  {
    match a
    case Publish(n) => s.(tail := s.tail + n)
    case Move(t, max) =>
      match s.threads[t]
      case Idle => Go(s, t, LoadTail(max))
      case LoadTail(m) => Go(s, t, LoadOver(m, s.tail))
      case LoadOver(m, tail) => Go(s, t, LoadOptimistic(m, tail, s.overcommit))
      case LoadOptimistic(m, tail, over) =>
        var desired := tail - (s.optimistic - over);
        if desired > 0 then Go(s, t, Reserve(Integers.Min(desired, m), over)) else Go(s, t, Idle)
      case Reserve(want, over) =>
        Go(s.(optimistic := s.optimistic + want, history := s.history + [Reservation(want, over, Undecided)]),
           t, ReloadTail(|s.history|, want, s.optimistic, over))
      case ReloadTail(id, want, mine, over) =>
        var actual := s.tail - (mine - over);
        if actual > 0 then
          var got := Integers.Min(want, actual);
          Go(s.(history := s.history[id := s.history[id].(outcome := Decided(got))]),
             t, if got < want then Refund(want - got, got, true) else TakeHead(got))
        else
          Go(s.(history := s.history[id := s.history[id].(outcome := Decided(0))]),
             t, Refund(want, 0, false))
      case Refund(extra, got, claims) =>
        Go(s.(overcommit := s.overcommit + extra), t, if claims then TakeHead(got) else Idle)
      case TakeHead(got) =>
        Go(s.(head := s.head + got, claims := s.claims + [Claim(t, s.head, got)]), t, Idle)
  }

  ghost predicate Step(s: State, s': State) {
    exists a: Action :: Enabled(s, a) && s' == Next(s, a)
  }

  ghost predicate Init(s: State) {
    && s.tail == s.optimistic == s.overcommit == s.head == 0
    && s.history == [] && s.claims == []
    && forall t :: 0 <= t < |s.threads| ==> s.threads[t] == Idle
  }

  ghost predicate IsRun(run: seq<State>) {
    && run != []
    && Init(run[0])
    && forall i :: 0 <= i < |run| - 1 ==> Step(run[i], run[i + 1])
  }

  // -------------------------------------------------------------------
  // Conservation of the counters
  // -------------------------------------------------------------------

  /** What a consumer has reserved and neither claimed nor given back. */
  ghost function InFlight(): Pc -> nat {
    (pc: Pc) =>
      if pc.ReloadTail? then pc.want else if pc.Refund? then pc.extra + pc.got else if pc.TakeHead? then pc.got else 0
  }

  /** What a consumer has yet to give back. */
  ghost function Owed(): Pc -> nat {
    (pc: Pc) => if pc.Refund? then pc.extra else 0
  }

  /** What a consumer has yet to claim. */
  ghost function Due(): Pc -> nat {
    (pc: Pc) => if pc.Refund? || pc.TakeHead? then pc.got else 0
  }

  // -------------------------------------------------------------------
  // Invariant: the history of reservations
  // -------------------------------------------------------------------

  ghost function Want(): Reservation -> nat { (r: Reservation) => r.want }

  /** The part of a reservation known not to be backed by elements. */
  ghost function Unbacked(): Reservation -> nat {
    (r: Reservation) => if r.outcome.Decided? && r.outcome.got <= r.want then r.want - r.outcome.got else 0
  }

  ghost function Got(): Reservation -> nat {
    (r: Reservation) => if r.outcome.Decided? then r.outcome.got else 0
  }

  ghost predicate ThreadInv(s: State, t: nat)
    requires t < |s.threads|
  {
    match s.threads[t]
    case LoadOptimistic(_, _, over) => over <= s.overcommit
    case Reserve(_, over) => over <= s.overcommit
    case ReloadTail(id, want, mine, over) =>
      && id < |s.history|
      && s.history[id] == Reservation(want, over, Undecided)
      && mine == Sum(s.history[..id], Want())
    case Refund(_, got, claims) => !claims ==> got == 0
    case _ => true
  }

  ghost predicate DistinctIds(s: State) {
    forall t, u :: 0 <= t < u < |s.threads| && s.threads[t].ReloadTail? && s.threads[u].ReloadTail?
      ==> s.threads[t].id != s.threads[u].id
  }

  /** Reservation k was made with a snapshot no larger than what earlier reservations proved unbacked. */
  ghost predicate SnapInv(h: seq<Reservation>, k: nat)
    requires k < |h|
  {
    h[k].snap <= Sum(h[..k], Unbacked())
  }

  /** A reservation that got something leaves room for everything earlier ones got or may still get. */
  ghost predicate RoomInv(h: seq<Reservation>, k: nat, tail: int)
    requires k < |h|
  {
    h[k].outcome.Decided? ==>
      && h[k].outcome.got <= h[k].want
      && (h[k].outcome.got > 0 ==>
            Sum(h[..k], Want()) - Sum(h[..k], Unbacked()) + h[k].outcome.got <= tail)
  }

  ghost predicate Counters(s: State) {
    && 0 <= s.tail && 0 <= s.head && 0 <= s.overcommit
    && s.optimistic == Sum(s.history, Want())
    && s.overcommit + Sum(s.threads, Owed()) == Sum(s.history, Unbacked())
    && s.head + Sum(s.threads, Due()) == Sum(s.history, Got())
    && s.optimistic == s.head + s.overcommit + Sum(s.threads, InFlight())
  }

  /** The claims follow each other without gap or overlap, from 0 to the head. */
  ghost predicate Contiguous(claims: seq<Claim>, head: int) {
    && (forall i :: 0 <= i < |claims| ==> claims[i].start == EndBefore(claims, i))
    && head == EndBefore(claims, |claims|)
  }

  ghost function EndBefore(claims: seq<Claim>, i: nat): int
    requires i <= |claims|
  {
    if i == 0 then 0 else claims[i - 1].start + claims[i - 1].len
  }

  ghost predicate Inv(s: State) {
    && Counters(s)
    && Contiguous(s.claims, s.head)
    && DistinctIds(s)
    && (forall t :: 0 <= t < |s.threads| ==> ThreadInv(s, t))
    && (forall k :: 0 <= k < |s.history| ==> SnapInv(s.history, k) && RoomInv(s.history, k, s.tail))
  }

  lemma {:induction false} InitInv(s: State)
    requires Init(s)
    ensures Inv(s)
  {
    SumZero(s.threads, Owed());
    SumZero(s.threads, Due());
    SumZero(s.threads, InFlight());
  }

  /** How prefix sums of the history move when one reservation is decided. */
  lemma PrefixUpdate(h: seq<Reservation>, id: nat, r: Reservation, k: nat, f: Reservation -> nat)
    requires id < |h| && k <= |h|
    ensures Sum(h[id := r][..k], f) == Sum(h[..k], f) + if id < k then f(r) - f(h[id]) else 0
  {
    if id < k {
      assert h[id := r][..k] == h[..k][id := r];
      SumUpdate(h[..k], id, r, f);
    } else {
      assert h[id := r][..k] == h[..k];
    }
  }

  lemma PrefixExtend(h: seq<Reservation>, r: Reservation, k: nat)
    requires k <= |h|
    ensures (h + [r])[..k] == h[..k]
  {
  }

  /** How the three thread totals move when thread t moves. */
  lemma ThreadTotals(s: State, t: nat, pc: Pc)
    requires t < |s.threads|
    ensures var ts := s.threads[t := pc];
            && Sum(ts, Owed()) == Sum(s.threads, Owed()) - Owed()(s.threads[t]) + Owed()(pc)
            && Sum(ts, Due()) == Sum(s.threads, Due()) - Due()(s.threads[t]) + Due()(pc)
            && Sum(ts, InFlight()) == Sum(s.threads, InFlight()) - InFlight()(s.threads[t]) + InFlight()(pc)
  {
    SumUpdate(s.threads, t, pc, Owed());
    SumUpdate(s.threads, t, pc, Due());
    SumUpdate(s.threads, t, pc, InFlight());
  }

  lemma StepCounters(s: State, a: Action)
    requires Inv(s) && Enabled(s, a)
    ensures Counters(Next(s, a))
  {
    hide Sum;
    hide SnapInv;
    hide RoomInv;
    hide Contiguous;
    if a.Move? {
      var s' := Next(s, a);
      var t := a.t;
      ThreadTotals(s, t, s'.threads[t]);
      assert ThreadInv(s, t);
      match s.threads[t]
      case Reserve(want, over) =>
        var r := Reservation(want, over, Undecided);
        SumSnoc(s.history, r, Want());
        SumSnoc(s.history, r, Unbacked());
        SumSnoc(s.history, r, Got());
      case ReloadTail(id, want, mine, over) =>
        SumUpdate(s.history, id, s'.history[id], Want());
        SumUpdate(s.history, id, s'.history[id], Unbacked());
        SumUpdate(s.history, id, s'.history[id], Got());
      case _ =>
    }
  }

  /** Deciding reservation id, with what the tail backs, keeps the history in order. */
  lemma DecideHistory(h: seq<Reservation>, id: nat, got: nat, mine: int, tail: int, k: nat)
    requires id < |h| && h[id].outcome.Undecided? && k < |h| && got <= h[id].want
    requires SnapInv(h, k) && RoomInv(h, k, tail) && SnapInv(h, id)
    requires mine == Sum(h[..id], Want()) && (got > 0 ==> got <= tail - (mine - h[id].snap))
    ensures SnapInv(h[id := h[id].(outcome := Decided(got))], k)
    ensures RoomInv(h[id := h[id].(outcome := Decided(got))], k, tail)
  {
    hide Sum;
    var r := h[id].(outcome := Decided(got));
    PrefixUpdate(h, id, r, k, Want());
    PrefixUpdate(h, id, r, k, Unbacked());
  }

  lemma StepHistory(s: State, a: Action, k: nat)
    requires Inv(s) && Enabled(s, a) && k < |Next(s, a).history|
    ensures SnapInv(Next(s, a).history, k) && RoomInv(Next(s, a).history, k, Next(s, a).tail)
  {
    hide Sum;
    hide Contiguous;
    if a.Move? {
      var pc := s.threads[a.t];
      assert ThreadInv(s, a.t);
      if pc.Reserve? {
        var r := Reservation(pc.want, pc.over, Undecided);
        assert Next(s, a).history == s.history + [r];
        PrefixExtend(s.history, r, k);
        if k == |s.history| {
          assert s.history[..k] == s.history;
        } else {
          assert SnapInv(s.history, k) && RoomInv(s.history, k, s.tail);
        }
      } else if pc.ReloadTail? {
        var actual := s.tail - (pc.mine - pc.over);
        DecideHistory(s.history, pc.id, if actual > 0 then Integers.Min(pc.want, actual) else 0, pc.mine, s.tail, k);
      }
    }
  }

  lemma StepThreads(s: State, a: Action, u: nat)
    requires Inv(s) && Enabled(s, a) && u < |s.threads|
    ensures ThreadInv(Next(s, a), u)
  {
    hide Sum;
    hide Contiguous;
    hide SnapInv;
    hide RoomInv;
    assert ThreadInv(s, u);
    if a.Move? {
      var pc, other := s.threads[a.t], s.threads[u];
      assert ThreadInv(s, a.t);
      if pc.Reserve? {
        var r := Reservation(pc.want, pc.over, Undecided);
        PrefixExtend(s.history, r, |s.history|);
        assert s.history[..|s.history|] == s.history;
        if other.ReloadTail? {
          PrefixExtend(s.history, r, other.id);
        }
      } else if pc.ReloadTail? && other.ReloadTail? && u != a.t {
        var s' := Next(s, a);
        PrefixUpdate(s.history, pc.id, s'.history[pc.id], other.id, Want());
      }
    }
  }

  lemma StepClaims(s: State, a: Action)
    requires Enabled(s, a) && Contiguous(s.claims, s.head)
    ensures Contiguous(Next(s, a).claims, Next(s, a).head)
  {
    hide Contiguous;
    if a.Move? && s.threads[a.t].TakeHead? {
      AppendClaim(s.claims, s.head, Claim(a.t, s.head, s.threads[a.t].got));
    }
  }

  /** A new reservation gets an id that no consumer has yet. */
  lemma StepDistinct(s: State, a: Action)
    requires Enabled(s, a) && DistinctIds(s) && forall t :: 0 <= t < |s.threads| ==> ThreadInv(s, t)
    ensures DistinctIds(Next(s, a))
  {
    hide Sum;
    if a.Move? {
      IdsInRange(s);
      hide ThreadInv;
    }
  }

  lemma IdsInRange(s: State)
    requires forall t :: 0 <= t < |s.threads| ==> ThreadInv(s, t)
    ensures forall t :: 0 <= t < |s.threads| && s.threads[t].ReloadTail? ==> s.threads[t].id < |s.history|
  {
    hide Sum;
    forall t | 0 <= t < |s.threads| && s.threads[t].ReloadTail? ensures s.threads[t].id < |s.history| {
      assert ThreadInv(s, t);
    }
  }

  lemma AppendClaim(claims: seq<Claim>, head: int, c: Claim)
    requires Contiguous(claims, head) && c.start == head
    ensures Contiguous(claims + [c], head + c.len)
  {
    var all := claims + [c];
    forall i: nat | i <= |claims| ensures EndBefore(all, i) == EndBefore(claims, i) {
    }
  }

  /** Every step keeps the invariant. */
  lemma StepInv(s: State, s': State)
    requires Inv(s) && Step(s, s')
    ensures Inv(s')
  {
    hide Sum;
    hide Contiguous;
    hide DistinctIds;
    var a: Action :| Enabled(s, a) && s' == Next(s, a);
    StepCounters(s, a);
    StepClaims(s, a);
    StepDistinct(s, a);
    forall k | 0 <= k < |s'.history| ensures SnapInv(s'.history, k) && RoomInv(s'.history, k, s'.tail) {
      StepHistory(s, a, k);
    }
    forall u | 0 <= u < |s'.threads| ensures ThreadInv(s', u) {
      StepThreads(s, a, u);
    }
  }

  lemma {:induction false} RunInv(run: seq<State>, i: nat)
    requires IsRun(run) && i < |run|
    ensures Inv(run[i])
  {
    if i == 0 {
      InitInv(run[0]);
    } else {
      RunInv(run, i - 1);
      assert Step(run[i - 1], run[i - 1 + 1]);
      StepInv(run[i - 1], run[i]);
    }
  }

  // -------------------------------------------------------------------
  // Claim safety
  // -------------------------------------------------------------------

  /** What the first k reservations got never exceeds what they wanted less what they proved unbacked. */
  lemma {:induction false} GotBound(h: seq<Reservation>, k: nat, tail: int)
    requires k <= |h| && forall j :: 0 <= j < |h| ==> RoomInv(h, j, tail)
    ensures Sum(h[..k], Got()) <= Sum(h[..k], Want()) - Sum(h[..k], Unbacked())
  {
    if k > 0 {
      GotBound(h, k - 1, tail);
      assert h[..k] == h[..k - 1] + [h[k - 1]];
      SumSnoc(h[..k - 1], h[k - 1], Got());
      SumSnoc(h[..k - 1], h[k - 1], Want());
      SumSnoc(h[..k - 1], h[k - 1], Unbacked());
      assert RoomInv(h, k - 1, tail);
    }
  }

  /** All that the reservations got fits below the tail. */
  lemma {:induction false} AllGotFits(h: seq<Reservation>, k: nat, tail: int)
    requires k <= |h| && 0 <= tail && forall j :: 0 <= j < |h| ==> RoomInv(h, j, tail)
    ensures Sum(h[..k], Got()) <= tail
  {
    if k > 0 {
      AllGotFits(h, k - 1, tail);
      assert h[..k] == h[..k - 1] + [h[k - 1]];
      SumSnoc(h[..k - 1], h[k - 1], Got());
      assert RoomInv(h, k - 1, tail);
      GotBound(h, k - 1, tail);
    }
  }

  /**
   In every state of every run nobody has claimed an index at or past the tail, and even the claims
   already decided but not yet executed will fit below it.
  */
  lemma HeadNeverPassesTail(run: seq<State>, i: nat)
    requires IsRun(run) && i < |run|
    ensures 0 <= run[i].head <= run[i].head + Sum(run[i].threads, Due()) <= run[i].tail
  {
    RunInv(run, i);
    InvHead(run[i]);
  }

  lemma InvHead(s: State)
    requires Inv(s)
    ensures 0 <= s.head <= s.head + Sum(s.threads, Due()) <= s.tail
  {
    AllGotFits(s.history, |s.history|, s.tail);
    assert s.history[..|s.history|] == s.history;
  }

  /** Every index of a claim is an element already published, and no two claims share one. */
  lemma ClaimsAreDisjoint(run: seq<State>, i: nat, a: nat, b: nat)
    requires IsRun(run) && i < |run| && a < b < |run[i].claims|
    ensures 0 <= run[i].claims[a].start
    ensures run[i].claims[a].start + run[i].claims[a].len <= run[i].claims[b].start
    ensures run[i].claims[b].start + run[i].claims[b].len <= run[i].tail
  {
    RunInv(run, i);
    HeadNeverPassesTail(run, i);
    var s := run[i];
    ClaimOrder(s.claims, s.head, a, b);
    ClaimOrder(s.claims, s.head, b, |s.claims|);
  }

  lemma {:induction false} EndGrows(claims: seq<Claim>, head: int, a: nat, b: nat)
    requires Contiguous(claims, head) && a <= b <= |claims|
    ensures EndBefore(claims, a) <= EndBefore(claims, b)
    decreases b
  {
    hide Contiguous;
    if a < b {
      EndGrows(claims, head, a, b - 1);
      ClaimStart(claims, head, b - 1);
    }
  }

  lemma ClaimStart(claims: seq<Claim>, head: int, i: nat)
    requires Contiguous(claims, head) && i < |claims|
    ensures claims[i].start == EndBefore(claims, i) && EndBefore(claims, i + 1) == claims[i].start + claims[i].len
  {
  }

  lemma ClaimOrder(claims: seq<Claim>, head: int, a: nat, b: nat)
    requires Contiguous(claims, head) && a < b <= |claims|
    ensures 0 <= claims[a].start
    ensures claims[a].start + claims[a].len <= if b < |claims| then claims[b].start else head
  {
    hide EndBefore;
    ClaimStart(claims, head, a);
    EndGrows(claims, head, 0, a);
    EndGrows(claims, head, a + 1, b);
    NoneBefore(claims);
  }

  lemma NoneBefore(claims: seq<Claim>)
    ensures EndBefore(claims, 0) == 0
  {
  }

  /** Nothing reserved gets lost: it is claimed, given back, or still in a consumer's hands. */
  lemma CountersConserved(run: seq<State>, i: nat)
    requires IsRun(run) && i < |run|
    ensures run[i].optimistic == run[i].head + run[i].overcommit + Sum(run[i].threads, InFlight())
  {
    RunInv(run, i);
  }

  // -------------------------------------------------------------------
  // A dequeue on its own
  // -------------------------------------------------------------------

  /** n steps of thread t alone. */
  function Alone(s: State, t: nat, max: nat, n: nat): State
    requires t < |s.threads|
    decreases n
  {
    if n == 0 || !Enabled(s, Move(t, max)) then s else Alone(Next(s, Move(t, max)), t, max, n - 1)
  }

  /**
   When no dequeue is in flight, one that runs alone gets exactly as many elements as it asks for
   or as there are, whichever is less, from the head on; in particular a single dequeue succeeds
   if and only if the queue is not empty. It takes four steps to find the queue empty, seven to take elements.
  */
  lemma LoneDequeue(run: seq<State>, i: nat, t: nat, max: nat)
    requires IsRun(run) && i < |run| && t < |run[i].threads| && max > 0
    requires forall u :: 0 <= u < |run[i].threads| ==> run[i].threads[u] == Idle
    ensures var s := run[i];
            var got := Integers.Min(max, s.tail - s.head);
            0 <= got && (got > 0 <==> s.head < s.tail) &&
            (if got == 0 then Alone(s, t, max, 4) == s
             else Alone(s, t, max, 7) ==
                  s.(optimistic := s.optimistic + got, head := s.head + got,
                     history := s.history + [Reservation(got, s.overcommit, Decided(got))],
                     claims := s.claims + [Claim(t, s.head, got)]))
  {
    RunInv(run, i);
    HeadNeverPassesTail(run, i);
    var s := run[i];
    SumZero(s.threads, InFlight());
    var m := Move(t, max);
    var s1 := Next(s, m);
    var s2 := Next(s1, m);
    var s3 := Next(s2, m);
    assert s3.threads[t] == LoadOptimistic(max, s.tail, s.overcommit);
    var s4 := Next(s3, m);
    assert Alone(s, t, max, 4) == s4;
    if s.head == s.tail {
      assert s4.threads == s.threads;
    } else {
      LoneClaim(s, s4, t, max);
    }
  }

  lemma LoneClaim(s: State, s4: State, t: nat, max: nat)
    requires t < |s.threads| && s.threads[t] == Idle && max > 0 && s.head < s.tail
    requires s.optimistic == s.head + s.overcommit
    requires var got := Integers.Min(max, s.tail - s.head); s4 == Go(s, t, Reserve(got, s.overcommit))
    ensures var got := Integers.Min(max, s.tail - s.head);
            Alone(s4, t, max, 3) ==
                  s.(optimistic := s.optimistic + got, head := s.head + got,
                     history := s.history + [Reservation(got, s.overcommit, Decided(got))],
                     claims := s.claims + [Claim(t, s.head, got)])
  {
    var got := Integers.Min(max, s.tail - s.head);
    var m := Move(t, max);
    var s5 := Next(s4, m);
    assert s5.threads[t] == ReloadTail(|s.history|, got, s.optimistic, s.overcommit);
    var s6 := Next(s5, m);
    assert s6.threads[t] == TakeHead(got);
    var h6 := s.history + [Reservation(got, s.overcommit, Decided(got))];
    assert s6.history == h6;
    var s7 := Next(s6, m);
    assert s7.threads == s.threads;
    assert Alone(s4, t, max, 3) == s7;
  }

  // -------------------------------------------------------------------
  // A reservation that is only partly backed
  // -------------------------------------------------------------------

  /** What the second test of a dequeue finds behind its reservation. */
  function Backing(s: State, t: nat): int
    requires t < |s.threads| && s.threads[t].ReloadTail?
  {
    s.tail - (s.threads[t].mine - s.threads[t].over)
  }

  /**
   In every reachable state the second test finds behind a reservation what is in the queue, less what the
   others have in flight, as far as it was not reserved later, and less what has been given back since the
   overcommit was read.
  */
  lemma BackingIs(run: seq<State>, i: nat, t: nat)
    requires IsRun(run) && i < |run| && t < |run[i].threads| && run[i].threads[t].ReloadTail?
    ensures var s := run[i]; var pc := s.threads[t];
            && pc.id < |s.history|
            && Backing(s, t) == s.tail - s.head - (Sum(s.threads, InFlight()) - pc.want) - (s.overcommit - pc.over)
                                + Sum(s.history[pc.id + 1..], Want())
  {
    hide Step;
    RunInv(run, i);
    var s := run[i];
    var id := s.threads[t].id;
    assert ThreadInv(s, t);
    SumSplit(s.history, id, Want());
  }

  /**
   The last reservation, with a current snapshot and nothing else in flight, gets as many elements as it
   wants or as there are, whichever is less, even if others have taken elements since it was worked out;
   it gives the rest back, and its indices are the first ones.
  */
  lemma PartlyBacked(run: seq<State>, i: nat, t: nat, max: nat)
    requires IsRun(run) && i < |run| && t < |run[i].threads| && run[i].threads[t].ReloadTail?
    requires var s := run[i]; var pc := s.threads[t];
             pc.id + 1 == |s.history| && pc.over == s.overcommit && Sum(s.threads, InFlight()) == pc.want
    ensures var s := run[i]; var pc := s.threads[t];
            var got := Integers.Min(pc.want, s.tail - s.head);
            0 <= got &&
            Alone(s, t, max, if 0 < got < pc.want then 3 else 2) ==
              s.(overcommit := s.overcommit + pc.want - got, head := s.head + got,
                 threads := s.threads[t := Idle],
                 history := s.history[pc.id := s.history[pc.id].(outcome := Decided(got))],
                 claims := s.claims + if s.head < s.tail then [Claim(t, s.head, got)] else [])
  {
    hide Sum;
    BackingIs(run, i, t);
    HeadNeverPassesTail(run, i);
    var s := run[i];
    assert Sum(s.history[s.threads[t].id + 1..], Want()) == 0 by { SumZero(s.history[s.threads[t].id + 1..], Want()); }
    var m := Move(t, max);
    var s1 := Next(s, m);
    var s2 := Next(s1, m);
    assert Alone(s, t, max, 2) == s2;
    if s2.threads[t].TakeHead? {
      var s3 := Next(s2, m);
      assert Alone(s1, t, max, 2) == s3;
      assert s3.threads == s.threads[t := Idle];
    } else {
      assert s2.threads == s.threads[t := Idle];
      assert s.claims + [] == s.claims;
    }
  }
}
