/**
 What the calls of the free list do for their callers: a call that runs alone, from any state that others
 have left behind; a call that is interrupted anywhere and then runs alone; and, in any run, a try_get that
 comes back without a node.
*/
module FreeListCalls {
  import opened Sums
  import opened FreeList

  // -------------------------------------------------------------------
  // A thread that moves alone
  // -------------------------------------------------------------------

  /** Thread t, moving alone, comes in k steps to s', where it is idle for the first time. */
  ghost predicate Ends(s: State, t: nat, k: nat, s': State)
    requires t < |s.threads|
    decreases k
  {
    if s.threads[t].pc.Idle? then k == 0 && s' == s
    else k > 0 && Enabled(s, t, Get) && Ends(Next(s, t, Get), t, k - 1, s')
  }

  /** Thread t calls c and, moving alone, comes in k steps to s', where it has returned. */
  ghost predicate Finishes(s: State, t: nat, c: Call, k: nat, s': State) {
    Enabled(s, t, c) && s.threads[t].pc.Idle? && k > 0 && Ends(Next(s, t, c), t, k - 1, s')
  }

  /** A thread can always go on, and the invariant is kept. */
  lemma GoesOn(s: State, t: nat, c: Call, l: seq<nat>)
    requires InvWith(s, l) && t < |s.threads|
    requires s.threads[t].pc.Idle? && c.Add? ==> c.n in s.threads[t].owned && c.n < |s.nodes|
    ensures Enabled(s, t, c) && InvWith(Next(s, t, c), NextList(s, t, l)) && |Next(s, t, c).threads| == |s.threads|
  {
    hide NodeInv;
    hide Next;
    hide NextList;
    hide Chain;
    assert ThreadInv(s, t);
    StepNodes(s, t, c);
    StepInvWith(s, t, c, l);
  }

  /** The step of a thread inside a call, and what is left of the call after it. */
  lemma Onward(s: State, t: nat, l: seq<nat>) returns (n: State)
    requires InvWith(s, l) && t < |s.threads| && !s.threads[t].pc.Idle?
    ensures Enabled(s, t, Get) && n == Next(s, t, Get) && |n.threads| == |s.threads|
    ensures InvWith(n, NextList(s, t, l))
    ensures forall k: nat, s' :: Ends(n, t, k, s') ==> Ends(s, t, k + 1, s')
  {
    hide InvWith;
    hide Next;
    hide NextList;
    GoesOn(s, t, Get, l);
    n := Next(s, t, Get);
  }

  lemma HeadIs(s: State, l: seq<nat>)
    requires InvWith(s, l)
    ensures s.head == PtrAt(l, 0)
  {
  }

  /** A node on the list can be referred to, and belongs to nobody. */
  lemma ListedNode(s: State, l: seq<nat>, h: nat)
    requires InvWith(s, l) && h in l
    ensures h < |s.nodes|
    ensures 1 <= s.nodes[h].refs < SHOULD_BE_ON_FREELIST - 1 && Count(s.nodes[h].refs) == s.nodes[h].refs
    ensures forall t :: 0 <= t < |s.threads| ==> h !in s.threads[t].owned
  {
    hide Sum;
    assert NodeInv(s, l, h);
    RefsBound(s.threads, h);
    Halves(s.nodes[h].refs);
    forall t | 0 <= t < |s.threads| ensures h !in s.threads[t].owned {
      SumUpdate(s.threads, t, s.threads[t], OwnerOf(h));
    }
  }

  lemma SecondIs(s: State, l: seq<nat>)
    requires InvWith(s, l) && l != []
    ensures s.head == At(l[0]) && l[0] < |s.nodes| && s.nodes[l[0]].next == PtrAt(l, 1)
  {
  }

  // -------------------------------------------------------------------
  // A call that runs alone
  // -------------------------------------------------------------------

  /** From the load of the reference count of the head on. */
  lemma LoneTake(s: State, t: nat, l: seq<nat>) returns (s': State)
    requires InvWith(s, l) && l != [] && t < |s.threads| && s.threads[t].pc == LoadRefs(l[0])
    ensures Ends(s, t, 5, s') && InvWith(s', l[1..])
    ensures s'.head == PtrAt(l, 1) && s'.threads == s.threads[t := Thread(s.threads[t].owned + {l[0]}, Idle)]
    ensures l[0] < |s.nodes| && s'.nodes == s.nodes[l[0] := s.nodes[l[0]].(refs := s.nodes[l[0]].refs - 1)]
    ensures l[0] !in s.threads[t].owned
  {
    hide InvWith;
    hide Count;
    ListedNode(s, l, l[0]);
    SecondIs(s, l);
    var refs := s.nodes[l[0]].refs;
    PlusExact(refs, 1);
    PlusExact(refs + 1, -2);
    var s1 := Onward(s, t, l);
    var s2 := Onward(s1, t, l);
    var s3 := Onward(s2, t, l);
    var s4 := Onward(s3, t, l);
    s' := Onward(s4, t, l[1..]);
    assert Ends(s', t, 0, s');
  }

  /**
   Whatever the other threads are in the middle of: try_get, run alone, returns the node at the head and
   takes it off the list, or returns nothing, and then only because the list is empty.
  */
  lemma LoneGet(s: State, t: nat, l: seq<nat>) returns (s': State)
    requires InvWith(s, l) && t < |s.threads| && s.threads[t].pc.Idle?
    ensures if l == [] then Finishes(s, t, Get, 2, s') && s' == s
            else
              && Finishes(s, t, Get, 7, s') && InvWith(s', l[1..])
              && s'.head == PtrAt(l, 1) && l[0] !in s.threads[t].owned
              && s'.threads == s.threads[t := Thread(s.threads[t].owned + {l[0]}, Idle)]
              && l[0] < |s.nodes| && s'.nodes == s.nodes[l[0] := s.nodes[l[0]].(refs := s.nodes[l[0]].refs - 1)]
  {
    hide InvWith;
    hide Count;
    hide Plus;
    GoesOn(s, t, Get, l);
    var s1 := Next(s, t, Get);
    var s2 := Onward(s1, t, l);
    HeadIs(s, l);
    if l == [] {
      assert s2.threads == s.threads;
      s' := s2;
      assert Ends(s2, t, 0, s');
    } else {
      s' := LoneTake(s2, t, l);
    }
  }

  /** A node that somebody owns is not marked, not on the list, and referred to by those only who look at it. */
  lemma OwnedNode(s: State, t: nat, l: seq<nat>, n: nat)
    requires InvWith(s, l) && t < |s.threads| && n < |s.nodes| && n in s.threads[t].owned
    ensures 0 <= s.nodes[n].refs < SHOULD_BE_ON_FREELIST && n !in l
  {
    hide Sum;
    assert NodeInv(s, l, n);
    SumUpdate(s.threads, t, s.threads[t], OwnerOf(n));
  }

  /** From the store of the next pointer on, with the head that is still the head. */
  lemma LoneLink(s: State, t: nat, n: nat, k: Then, l: seq<nat>) returns (s': State)
    requires InvWith(s, l) && t < |s.threads| && s.threads[t].pc == LinkStoreNext(n, s.head, k)
    ensures n < |s.nodes| && InvWith(s', [n] + l) && |s'.threads| == |s.threads|
    ensures s'.head == At(n) && s'.threads == s.threads[t := s.threads[t].(pc := Continue(k))]
    ensures s'.nodes == s.nodes[n := Node(1, s.head)]
    ensures forall i: nat, s'' :: Ends(s', t, i, s'') ==> Ends(s, t, i + 3, s'')
  {
    hide InvWith;
    var s1 := Onward(s, t, l);
    var s2 := Onward(s1, t, l);
    s' := Onward(s2, t, l);
    forall i: nat, s'' | Ends(s', t, i, s'') ensures Ends(s, t, i + 3, s'') {
      assert Ends(s2, t, i + 1, s'');
      assert Ends(s1, t, i + 2, s'');
    }
  }

  /**
   Whatever the other threads are in the middle of: add, run alone, puts the node at the head, unless some
   thread still refers to it, when it is left, marked, to the last of those.
  */
  lemma LoneAdd(s: State, t: nat, l: seq<nat>, n: nat) returns (s': State)
    requires InvWith(s, l) && t < |s.threads| && s.threads[t].pc.Idle? && n in s.threads[t].owned && n < |s.nodes|
    ensures s'.threads == s.threads[t := Thread(s.threads[t].owned - {n}, Idle)]
    ensures n !in l
    ensures if s.nodes[n].refs == 0
            then
              && Finishes(s, t, Add(n), 6, s') && InvWith(s', [n] + l)
              && s'.head == At(n) && s'.nodes == s.nodes[n := Node(1, s.head)]
            else
              && Finishes(s, t, Add(n), 2, s') && InvWith(s', l)
              && s'.head == s.head
              && s'.nodes == s.nodes[n := s.nodes[n].(refs := s.nodes[n].refs + SHOULD_BE_ON_FREELIST)]
              && exists u :: 0 <= u < |s.threads| && RefsOf(n)(s.threads[u]) > 0
  {
    hide InvWith;
    OwnedNode(s, t, l, n);
    GoesOn(s, t, Add(n), l);
    PlusExact(s.nodes[n].refs, SHOULD_BE_ON_FREELIST);
    var s1 := Next(s, t, Add(n));
    var s2 := Onward(s1, t, l);
    if s.nodes[n].refs == 0 {
      var s3 := Onward(s2, t, l);
      s' := LoneLink(s3, t, n, Return, l);
      assert Ends(s', t, 0, s');
    } else {
      s' := s2;
      assert Ends(s', t, 0, s');
      ReferredTo(s, l, n);
    }
  }

  /** A node off the list with references: some thread refers to it. */
  lemma ReferredTo(s: State, l: seq<nat>, n: nat)
    requires InvWith(s, l) && n < |s.nodes| && n !in l && 0 < s.nodes[n].refs < SHOULD_BE_ON_FREELIST
    ensures exists u :: 0 <= u < |s.threads| && RefsOf(n)(s.threads[u]) > 0
  {
    hide Sum;
    assert NodeInv(s, l, n);
    Halves(s.nodes[n].refs);
    var u := SumWitness(s.threads, RefsOf(n));
  }

  // -------------------------------------------------------------------
  // A call that others have interrupted
  // -------------------------------------------------------------------

  /** Back at the load of the head. */
  lemma FromLoadHead(s: State, t: nat, l: seq<nat>) returns (k: nat, s': State)
    requires InvWith(s, l) && t < |s.threads| && s.threads[t].pc == LoadHead
    ensures Ends(s, t, k, s') && k <= 6
  {
    hide InvWith;
    HeadIs(s, l);
    var n := Onward(s, t, l);
    k, s' := FromFresh(n, t, l);
    k := k + 1;
  }

  /** With a local head that is the head. */
  lemma FromFresh(s: State, t: nat, l: seq<nat>) returns (k: nat, s': State)
    requires InvWith(s, l) && t < |s.threads| && s.threads[t].pc == Loop(s.head)
    ensures Ends(s, t, k, s') && k <= 5
  {
    hide InvWith;
    HeadIs(s, l);
    if l == [] {
      k, s' := 0, s;
    } else {
      s' := LoneTake(s, t, l);
      k := 5;
    }
  }

  /** With a local head that is on the list: it is not the last to refer to it. */
  lemma FromListed(s: State, t: nat, l: seq<nat>, h: nat) returns (k: nat, s': State)
    requires InvWith(s, l) && t < |s.threads| && s.threads[t].pc == LoadRefs(h) && h in l
    ensures Ends(s, t, k, s') && k <= 10
  {
    hide InvWith;
    hide Count;
    HeadIs(s, l);
    if h == l[0] {
      k, s' := FromFresh(s, t, l);
    } else {
      ListedNode(s, l, h);
      PlusExact(s.nodes[h].refs, 1);
      PlusExact(s.nodes[h].refs + 1, -1);
      var s1 := Onward(s, t, l);
      var s2 := Onward(s1, t, l);
      var s3 := Onward(s2, t, l);
      var s4 := Onward(s3, t, l);
      assert s4.threads[t].pc == Drop(h, s.head);
      var s5 := Onward(s4, t, l);
      k, s' := FromFresh(s5, t, l);
      assert Ends(s4, t, k + 1, s');
      assert Ends(s3, t, k + 2, s');
      assert Ends(s2, t, k + 3, s');
      assert Ends(s1, t, k + 4, s');
      k := k + 5;
    }
  }

  /** The node that it was the last to refer to goes back first; then the head that was is second on the list. */
  lemma FromRelink(s: State, t: nat, l: seq<nat>, n: nat) returns (k: nat, s': State)
    requires InvWith(s, l) && t < |s.threads| && s.threads[t].pc == LinkStoreNext(n, s.head, Resume(s.head))
    ensures Ends(s, t, k, s') && k <= 13
  {
    hide InvWith;
    HeadIs(s, l);
    var s1 := LoneLink(s, t, n, Resume(s.head), l);
    if l == [] {
      k, s' := 0, s1;
    } else {
      assert l[0] == ([n] + l)[1];
      k, s' := FromListed(s1, t, [n] + l, l[0]);
    }
    assert Ends(s1, t, k, s');
    k := k + 3;
  }

  /** When the CAS of the head fails, the local head becomes the head. */
  lemma FromDropFresh(s: State, t: nat, l: seq<nat>, h: nat) returns (k: nat, s': State)
    requires InvWith(s, l) && t < |s.threads| && s.threads[t].pc == Drop(h, s.head)
    ensures Ends(s, t, k, s') && k <= 15
  {
    hide InvWith;
    hide Count;
    hide Plus;
    var n := Onward(s, t, l);
    if n.threads[t].pc.LinkLoadHead? {
      var n1 := Onward(n, t, l);
      k, s' := FromRelink(n1, t, l, h);
      k := k + 2;
    } else {
      k, s' := FromFresh(n, t, l);
      k := k + 1;
    }
  }

  /** The CAS of the head. */
  lemma FromCasHead(s: State, t: nat, l: seq<nat>) returns (k: nat, s': State)
    requires InvWith(s, l) && t < |s.threads| && s.threads[t].pc.CasHead?
    ensures Ends(s, t, k, s') && k <= 16
  {
    hide InvWith;
    hide Count;
    hide Plus;
    var n := Onward(s, t, l);
    if n.threads[t].pc.Release? {
      s' := Onward(n, t, NextList(s, t, l));
      assert Ends(s', t, 0, s');
      k := 2;
    } else {
      k, s' := FromDropFresh(n, t, l, s.threads[t].pc.h);
      k := k + 1;
    }
  }

  /** A reference taken. */
  lemma FromLoadNext(s: State, t: nat, l: seq<nat>) returns (k: nat, s': State)
    requires InvWith(s, l) && t < |s.threads| && s.threads[t].pc.LoadNext?
    ensures Ends(s, t, k, s') && k <= 17
  {
    hide InvWith;
    var n := Onward(s, t, l);
    k, s' := FromCasHead(n, t, l);
    k := k + 1;
  }

  /** The CAS of the reference count, which fails if the count is zero or has changed. */
  lemma FromCasRefs(s: State, t: nat, l: seq<nat>) returns (k: nat, s': State)
    requires InvWith(s, l) && t < |s.threads| && s.threads[t].pc.CasRefs?
    ensures Ends(s, t, k, s') && k <= 18
  {
    hide InvWith;
    hide Count;
    hide Plus;
    var n := Onward(s, t, l);
    if n.threads[t].pc.LoadHead? {
      k, s' := FromLoadHead(n, t, l);
    } else {
      k, s' := FromLoadNext(n, t, l);
    }
    k := k + 1;
  }

  /** With any local head, however old. */
  lemma FromLoop(s: State, t: nat, l: seq<nat>, p: Ptr) returns (k: nat, s': State)
    requires InvWith(s, l) && t < |s.threads| && s.threads[t].pc == Loop(p)
    ensures Ends(s, t, k, s') && k <= 19
  {
    hide InvWith;
    if p.Null? {
      k, s' := 0, s;
    } else {
      var n := Onward(s, t, l);
      k, s' := FromCasRefs(n, t, l);
      k := k + 1;
    }
  }

  /** The node is linked, or left to others. */
  lemma FromContinue(s: State, t: nat, l: seq<nat>, f: Then) returns (k: nat, s': State)
    requires InvWith(s, l) && t < |s.threads| && s.threads[t].pc == Continue(f)
    ensures Ends(s, t, k, s') && k <= 19
  {
    hide InvWith;
    if f.Return? {
      k, s' := 0, s;
    } else {
      k, s' := FromLoop(s, t, l, f.cur);
    }
  }

  /** Linking, with the head that is still the head. */
  lemma FromLinkFresh(s: State, t: nat, l: seq<nat>, n: nat, f: Then) returns (k: nat, s': State)
    requires InvWith(s, l) && t < |s.threads| && s.threads[t].pc == LinkStoreNext(n, s.head, f)
    ensures Ends(s, t, k, s') && k <= 22
  {
    hide InvWith;
    var s1 := LoneLink(s, t, n, f, l);
    k, s' := FromContinue(s1, t, [n] + l, f);
    k := k + 3;
  }

  /** Linking, from the start. */
  lemma FromLinkLoad(s: State, t: nat, l: seq<nat>) returns (k: nat, s': State)
    requires InvWith(s, l) && t < |s.threads| && s.threads[t].pc.LinkLoadHead?
    ensures Ends(s, t, k, s') && k <= 23
  {
    hide InvWith;
    var n := Onward(s, t, l);
    k, s' := FromLinkFresh(n, t, l, s.threads[t].pc.n, s.threads[t].pc.k);
    k := k + 1;
  }

  /** The CAS with which a node is linked; when it fails, the next attempt is with the head. */
  lemma FromLinkCas(s: State, t: nat, l: seq<nat>) returns (k: nat, s': State)
    requires InvWith(s, l) && t < |s.threads| && s.threads[t].pc.LinkCas?
    ensures Ends(s, t, k, s') && k <= 24
  {
    hide InvWith;
    hide Count;
    hide Plus;
    var pc := s.threads[t].pc;
    var n := Onward(s, t, l);
    if s.head == pc.dest {
      k, s' := FromContinue(n, t, [pc.n] + l, pc.k);
      k := k + 1;
    } else {
      var n1 := Onward(n, t, l);
      if s.nodes[pc.n].refs == 1 {
        k, s' := FromLinkFresh(n1, t, l, pc.n, pc.k);
      } else {
        k, s' := FromContinue(n1, t, l, pc.k);
      }
      k := k + 2;
    }
  }

  /** Linking, with whatever was the head. */
  lemma FromLinkStore(s: State, t: nat, l: seq<nat>) returns (k: nat, s': State)
    requires InvWith(s, l) && t < |s.threads| && (s.threads[t].pc.LinkStoreNext? || s.threads[t].pc.LinkStoreRefs?)
    ensures Ends(s, t, k, s') && k <= 26
  {
    hide InvWith;
    var n := Onward(s, t, l);
    if s.threads[t].pc.LinkStoreNext? {
      var n1 := Onward(n, t, l);
      k, s' := FromLinkCas(n1, t, l);
      k := k + 2;
    } else {
      k, s' := FromLinkCas(n, t, l);
      k := k + 1;
    }
  }

  /** After a failed attempt, with the head that was then. */
  lemma FromLinkFail(s: State, t: nat, l: seq<nat>) returns (k: nat, s': State)
    requires InvWith(s, l) && t < |s.threads| && s.threads[t].pc.LinkFail?
    ensures Ends(s, t, k, s') && k <= 27
  {
    hide InvWith;
    hide Count;
    hide Plus;
    var pc := s.threads[t].pc;
    var n := Onward(s, t, l);
    if n.threads[t].pc == LinkStoreNext(pc.n, pc.dest, pc.k) {
      k, s' := FromLinkStore(n, t, l);
    } else {
      k, s' := FromContinue(n, t, l, pc.k);
    }
    k := k + 1;
  }

  /** A reference given back. */
  lemma FromDrop(s: State, t: nat, l: seq<nat>) returns (k: nat, s': State)
    requires InvWith(s, l) && t < |s.threads| && s.threads[t].pc.Drop?
    ensures Ends(s, t, k, s') && k <= 24
  {
    hide InvWith;
    hide Count;
    hide Plus;
    var n := Onward(s, t, l);
    if n.threads[t].pc.LinkLoadHead? {
      k, s' := FromLinkLoad(n, t, l);
    } else {
      k, s' := FromLoop(n, t, l, s.threads[t].pc.cur);
    }
    k := k + 1;
  }

  /** The last step of try_get, and the first of add. */
  lemma FromAdding(s: State, t: nat, l: seq<nat>) returns (k: nat, s': State)
    requires InvWith(s, l) && t < |s.threads| && (s.threads[t].pc.Adding? || s.threads[t].pc.Release?)
    ensures Ends(s, t, k, s') && k <= 24
  {
    hide InvWith;
    hide Count;
    hide Plus;
    var n := Onward(s, t, l);
    if n.threads[t].pc.LinkLoadHead? {
      k, s' := FromLinkLoad(n, t, l);
    } else {
      k, s' := 0, n;
    }
    k := k + 1;
  }

  lemma InvReturns(s: State, t: nat) returns (k: nat, s': State)
    requires Inv(s) && t < |s.threads|
    ensures Ends(s, t, k, s') && k <= 27
  {
    hide InvWith;
    hide Next;
    hide Enabled;
    var l :| InvWith(s, l);
    var pc := s.threads[t].pc;
    if pc.Idle? {
      k, s' := 0, s;
    } else if pc.LoadHead? {
      k, s' := FromLoadHead(s, t, l);
    } else if pc.LoadRefs? {
      k, s' := FromLoop(s, t, l, At(pc.h));
    } else if pc.CasRefs? {
      k, s' := FromCasRefs(s, t, l);
    } else if pc.LoadNext? {
      k, s' := FromLoadNext(s, t, l);
    } else if pc.CasHead? {
      k, s' := FromCasHead(s, t, l);
    } else if pc.Drop? {
      k, s' := FromDrop(s, t, l);
    } else if pc.Adding? || pc.Release? {
      k, s' := FromAdding(s, t, l);
    } else if pc.LinkLoadHead? {
      k, s' := FromLinkLoad(s, t, l);
    } else if pc.LinkCas? {
      k, s' := FromLinkCas(s, t, l);
    } else if pc.LinkFail? {
      k, s' := FromLinkFail(s, t, l);
    } else {
      k, s' := FromLinkStore(s, t, l);
    }
  }

  /**
   Nobody is ever stuck: in every reachable state a thread in the middle of try_get or of add, wherever it has
   been interrupted and however old what it has read, returns within 27 steps if the others let it run.
  */
  lemma LoneReturns(run: seq<State>, i: nat, t: nat) returns (k: nat, s': State)
    requires IsRun(run) && i < |run| && t < |run[i].threads|
    ensures Ends(run[i], t, k, s') && k <= 27
  {
    RunInv(run, i);
    k, s' := InvReturns(run[i], t);
  }

  // -------------------------------------------------------------------
  // When try_get returns nothing
  // -------------------------------------------------------------------

  /** The thread reads the head of the list into the local head of try_get next. */
  predicate ReadsHead(pc: Pc) { pc.LoadHead? || pc.CasHead? }

  /** Inside try_get, while its local head is not in use: what it holds. */
  predicate Holds(pc: Pc, p: Ptr) {
    || (pc.Drop? && pc.cur == p)
    || ((pc.LinkLoadHead? || pc.LinkStoreNext? || pc.LinkStoreRefs? || pc.LinkCas? || pc.LinkFail?) && pc.k == Resume(p))
  }

  /** Thread t last read the head in state j, it was p, and now, in state i, it still has that. */
  ghost predicate LastRead(run: seq<State>, i: nat, t: nat, p: Ptr, j: nat)
    requires i < |run|
  {
    && j < i
    && (forall m :: j <= m <= i ==> t < |run[m].threads|)
    && ReadsHead(run[j].threads[t].pc) && run[j].head == p
    && forall m :: j < m <= i ==> !ReadsHead(run[m].threads[t].pc)
  }

  lemma {:induction false} RunThreads(run: seq<State>, i: nat)
    requires IsRun(run) && i < |run|
    ensures |run[i].threads| == |run[0].threads|
  {
    hide Init;
    if i > 0 {
      RunThreads(run, i - 1);
      assert Step(run[i - 1], run[i - 1 + 1]);
      var t: nat, c: Call :| Enabled(run[i - 1], t, c) && run[i] == Next(run[i - 1], t, c);
      StepNodes(run[i - 1], t, c);
    }
  }

  /** What one thread does between two states: nothing, or a step of its own. */
  lemma ThreadMoves(s: State, s': State, t: nat)
    requires Step(s, s') && t < |s.threads|
    ensures |s'.threads| == |s.threads|
    ensures s'.threads[t] == s.threads[t] || exists c: Call :: Enabled(s, t, c) && s' == Next(s, t, c)
  {
    var u: nat, c: Call :| Enabled(s, u, c) && s' == Next(s, u, c);
    StepNodes(s, u, c);
    if u == t {
      assert Enabled(s, t, c) && s' == Next(s, t, c);
    }
  }

  /** How the local head comes to be what it is. */
  lemma HeldFrom(s: State, t: nat, c: Call, p: Ptr)
    requires Enabled(s, t, c) && Holds(Next(s, t, c).threads[t].pc, p)
    ensures (s.threads[t].pc.CasHead? && s.head == p) || Holds(s.threads[t].pc, p)
    ensures !ReadsHead(Next(s, t, c).threads[t].pc)
  {
  }

  lemma {:induction false} HeldWasRead(run: seq<State>, i: nat, t: nat, p: Ptr) returns (j: nat)
    requires IsRun(run) && i < |run| && t < |run[i].threads| && Holds(run[i].threads[t].pc, p)
    ensures LastRead(run, i, t, p, j)
  {
    hide Next;
    hide Init;
    RunThreads(run, i);
    if i == 0 {
      FirstIdle(run, t);
      assert false;
    } else {
      RunThreads(run, i - 1);
      assert Step(run[i - 1], run[i - 1 + 1]);
      ThreadMoves(run[i - 1], run[i], t);
      if run[i].threads[t] == run[i - 1].threads[t] {
        j := HeldWasRead(run, i - 1, t, p);
      } else {
        var c: Call :| Enabled(run[i - 1], t, c) && run[i] == Next(run[i - 1], t, c);
        HeldFrom(run[i - 1], t, c, p);
        if Holds(run[i - 1].threads[t].pc, p) {
          j := HeldWasRead(run, i - 1, t, p);
        } else {
          j := i - 1;
        }
      }
    }
  }

  lemma FirstIdle(run: seq<State>, t: nat)
    requires IsRun(run) && t < |run[0].threads|
    ensures run[0].threads[t].pc == Idle
  {
  }

  /** Thread t is inside try_get. */
  predicate Getting(pc: Pc) {
    || pc.LoadHead? || pc.LoadRefs? || pc.CasRefs? || pc.LoadNext? || pc.CasHead? || pc.Release? || pc.Drop?
    || ((pc.LinkLoadHead? || pc.LinkStoreNext? || pc.LinkStoreRefs? || pc.LinkCas? || pc.LinkFail?) && pc.k.Resume?)
  }

  /** A step inside try_get stays inside, or returns, and only the last one of a successful call takes a node. */
  lemma GettingGoesOn(s: State, t: nat, c: Call)
    requires Enabled(s, t, c) && Getting(s.threads[t].pc)
    ensures |Next(s, t, c).threads| == |s.threads|
    ensures Next(s, t, c).threads[t].pc.Idle? || Getting(Next(s, t, c).threads[t].pc)
    ensures if s.threads[t].pc.Release? then Next(s, t, c).threads[t].pc.Idle?
            else Next(s, t, c).threads[t].owned == s.threads[t].owned
  {
  }

  /**
   In every run, whatever the other threads do: a try_get that returns without a node last read a head that
   was null. So while the list is never empty every try_get that returns has a node.
  */
  lemma EmptyHanded(run: seq<State>, i: nat, t: nat) returns (j: nat)
    requires IsRun(run) && i + 1 < |run| && t < |run[i].threads| && t < |run[i + 1].threads|
    requires Getting(run[i].threads[t].pc) && run[i + 1].threads[t].pc.Idle?
    requires run[i + 1].threads[t].owned == run[i].threads[t].owned
    ensures j <= i && t < |run[j].threads| && ReadsHead(run[j].threads[t].pc) && run[j].head == Null
    ensures forall m :: j < m <= i ==> t < |run[m].threads| && !ReadsHead(run[m].threads[t].pc)
  {
    hide Init;
    var s := run[i];
    assert Step(run[i], run[i + 1]);
    ThreadMoves(s, run[i + 1], t);
    var c: Call :| Enabled(s, t, c) && run[i + 1] == Next(s, t, c);
    if s.threads[t].pc.Release? {
      RunInv(run, i);
      TakenNotOwned(s, t);
      assert false;
    } else if s.threads[t].pc.LoadHead? {
      j := i;
    } else {
      assert Holds(s.threads[t].pc, Null);
      j := HeldWasRead(run, i, t, Null);
    }
  }

  lemma TakenNotOwned(s: State, t: nat)
    requires Inv(s) && t < |s.threads| && s.threads[t].pc.Release?
    ensures s.threads[t].pc.h !in s.threads[t].owned
  {
    hide Sum;
    var l :| InvWith(s, l);
    var h := s.threads[t].pc.h;
    assert ThreadInv(s, t) && NodeInv(s, l, h);
    SumUpdate(s.threads, t, s.threads[t], TakerOf(h));
    SumUpdate(s.threads, t, s.threads[t], OwnerOf(h));
  }
}
