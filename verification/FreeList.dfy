/**
 The reference-counted lock-free free list of blocks, one atomic operation per step,
 for any number of threads. freeListRefs is a 32-bit word: the top bit says that the
 node should be on the list, the other 31 bits count references.
*/
module FreeList {
  import opened Sums

  const WORD := 0x1_0000_0000
  const SHOULD_BE_ON_FREELIST := 0x8000_0000

  /** freeListRefs & REFS_MASK */
  function Count(refs: int): int { refs % SHOULD_BE_ON_FREELIST }

  /** Addition on the 32-bit word; subtraction adds the negated operand. */
  function Plus(refs: int, d: int): int { (refs + d) % WORD }

  // -------------------------------------------------------------------
  // State
  // -------------------------------------------------------------------

  datatype Ptr = Null | At(n: nat)

  datatype Node = Node(refs: int, next: Ptr)

  /** What follows add_knowing_refcount_is_zero: add returns, try_get goes on with its local head. */
  datatype Then = Return | Resume(cur: Ptr)

  /** The atomic operation a thread executes next. */
  datatype Pc =
    | Idle
    | LoadHead                                  // try_get: freeListHead.load
    | LoadRefs(h: nat)                          // try_get: head->freeListRefs.load
    | CasRefs(h: nat, refs: int)                // try_get: mask test and CAS refs -> refs + 1
    | LoadNext(h: nat)                          // try_get: head->freeListNext.load
    | CasHead(h: nat, nxt: Ptr)                 // try_get: CAS freeListHead head -> next
    | Release(h: nat)                           // try_get: fetch_sub(2), then return head
    | Drop(h: nat, cur: Ptr)                    // try_get: prevHead fetch_sub(1)
    | Adding(n: nat)                            // add: fetch_add(SHOULD_BE_ON_FREELIST)
    | LinkLoadHead(n: nat, k: Then)             // add_knowing_refcount_is_zero: freeListHead.load
    | LinkStoreNext(n: nat, dest: Ptr, k: Then)    //   freeListNext.store(head)
    | LinkStoreRefs(n: nat, dest: Ptr, k: Then)    //   freeListRefs.store(1)
    | LinkCas(n: nat, dest: Ptr, k: Then)          //   CAS freeListHead head -> node
    | LinkFail(n: nat, dest: Ptr, k: Then)         //   fetch_add(SHOULD_BE_ON_FREELIST - 1)

  /** `owned`: the nodes try_get has returned to this thread, or it was born with, and has not added since. */
  datatype Thread = Thread(owned: set<nat>, pc: Pc)

  datatype State = State(head: Ptr, nodes: seq<Node>, threads: seq<Thread>)

  /** What an idle thread calls. */
  datatype Call = Get | Add(n: nat)

  // -------------------------------------------------------------------
  // Steps
  // -------------------------------------------------------------------

  /** The while loop of try_get with local head p. */
  function Loop(p: Ptr): Pc { if p.Null? then Idle else LoadRefs(p.n) }

  function Continue(k: Then): Pc { if k.Return? then Idle else Loop(k.cur) }

  predicate PtrIn(p: Ptr, n: nat) { p.At? ==> p.n < n }

  /** Every node a thread refers to exists. */
  predicate PcIn(pc: Pc, n: nat) {
    match pc
    case Idle => true
    case LoadHead => true
    case LoadRefs(h) => h < n
    case CasRefs(h, _) => h < n
    case LoadNext(h) => h < n
    case CasHead(h, p) => h < n && PtrIn(p, n)
    case Release(h) => h < n
    case Drop(h, p) => h < n && PtrIn(p, n)
    case Adding(a) => a < n
    case LinkLoadHead(a, k) => a < n && (k.Resume? ==> PtrIn(k.cur, n))
    case LinkStoreNext(a, p, k) => a < n && PtrIn(p, n) && (k.Resume? ==> PtrIn(k.cur, n))
    case LinkStoreRefs(a, p, k) => a < n && PtrIn(p, n) && (k.Resume? ==> PtrIn(k.cur, n))
    case LinkCas(a, p, k) => a < n && PtrIn(p, n) && (k.Resume? ==> PtrIn(k.cur, n))
    case LinkFail(a, p, k) => a < n && PtrIn(p, n) && (k.Resume? ==> PtrIn(k.cur, n))
  }

  /** A caller may add a node only if it owns it. */
  predicate Enabled(s: State, t: nat, c: Call) {
    && t < |s.threads|
    && PcIn(s.threads[t].pc, |s.nodes|)
    && (s.threads[t].pc.Idle? && c.Add? ==> c.n in s.threads[t].owned && c.n < |s.nodes|)
  }

  function Go(s: State, t: nat, pc: Pc): State
    requires t < |s.threads|
  {
    s.(threads := s.threads[t := s.threads[t].(pc := pc)])
  }

  function SetRefs(s: State, n: nat, refs: int): State
    requires n < |s.nodes|
  {
    s.(nodes := s.nodes[n := s.nodes[n].(refs := refs)])
  }

  function Next(s: State, t: nat, c: Call): State
    requires Enabled(s, t, c)
  {
    var th := s.threads[t];
    match th.pc
    case Idle => Go(s, t, if c.Get? then LoadHead else Adding(c.n))
    case LoadHead => Go(s, t, Loop(s.head))
    case LoadRefs(h) => Go(s, t, CasRefs(h, s.nodes[h].refs))
    case CasRefs(h, refs) =>
      if Count(refs) == 0 || s.nodes[h].refs != refs then Go(s, t, LoadHead)
      else Go(SetRefs(s, h, Plus(refs, 1)), t, LoadNext(h))
    case LoadNext(h) => Go(s, t, CasHead(h, s.nodes[h].next))
    case CasHead(h, p) =>
      if s.head == At(h) then Go(s.(head := p), t, Release(h))
      else Go(s, t, Drop(h, s.head))
    case Release(h) =>
      var s1 := SetRefs(s, h, Plus(s.nodes[h].refs, -2));
      s1.(threads := s1.threads[t := Thread(th.owned + {h}, Idle)])
    case Drop(h, cur) =>
      var old_refs := s.nodes[h].refs;
      Go(SetRefs(s, h, Plus(old_refs, -1)), t,
         if old_refs == SHOULD_BE_ON_FREELIST + 1 then LinkLoadHead(h, Resume(cur)) else Loop(cur))
    case Adding(n) =>
      var old_refs := s.nodes[n].refs;
      var s1 := SetRefs(s, n, Plus(old_refs, SHOULD_BE_ON_FREELIST));
      s1.(threads := s1.threads[t := Thread(th.owned - {n}, if old_refs == 0 then LinkLoadHead(n, Return) else Idle)])
    case LinkLoadHead(n, k) => Go(s, t, LinkStoreNext(n, s.head, k))
    case LinkStoreNext(n, h, k) =>
      Go(s.(nodes := s.nodes[n := s.nodes[n].(next := h)]), t, LinkStoreRefs(n, h, k))
    case LinkStoreRefs(n, h, k) => Go(SetRefs(s, n, 1), t, LinkCas(n, h, k))
    case LinkCas(n, h, k) =>
      if s.head == h then Go(s.(head := At(n)), t, Continue(k))
      else Go(s, t, LinkFail(n, s.head, k))
    case LinkFail(n, h, k) =>
      var old_refs := s.nodes[n].refs;
      Go(SetRefs(s, n, Plus(old_refs, SHOULD_BE_ON_FREELIST - 1)), t,
         if old_refs == 1 then LinkStoreNext(n, h, k) else Continue(k))
  }

  ghost predicate Step(s: State, s': State) {
    exists t: nat, c: Call :: Enabled(s, t, c) && s' == Next(s, t, c)
  }

  /** An empty list; every node has no references and one owner; few enough threads for 31-bit counts. */
  ghost predicate Init(s: State) {
    && s.head == Null
    && |s.threads| < 0x4000_0000 - 1
    && (forall t :: 0 <= t < |s.threads| ==> s.threads[t].pc == Idle)
    && (forall n :: 0 <= n < |s.nodes| ==> s.nodes[n] == Node(0, Null) && Sum(s.threads, OwnerOf(n)) == 1)
  }

  ghost predicate IsRun(run: seq<State>) {
    && run != []
    && Init(run[0])
    && forall i :: 0 <= i < |run| - 1 ==> Step(run[i], run[i + 1])
  }

  // -------------------------------------------------------------------
  // Who has what of node n
  // -------------------------------------------------------------------

  /** References to n counted in freeListRefs on behalf of a thread, the list's own included while it is moved. */
  ghost function RefsOf(n: nat): Thread -> nat {
    (th: Thread) => match th.pc
      case LoadNext(h) => if h == n then 1 else 0
      case CasHead(h, _) => if h == n then 1 else 0
      case Drop(h, _) => if h == n then 1 else 0
      case Release(h) => if h == n then 2 else 0
      case LinkCas(a, _, _) => if a == n then 1 else 0
      case LinkFail(a, _, _) => if a == n then 1 else 0
      case _ => 0
  }

  ghost function OwnerOf(n: nat): Thread -> nat {
    (th: Thread) => if n in th.owned then 1 else 0
  }

  /** Has taken n off the list and not returned it yet. */
  ghost function TakerOf(n: nat): Thread -> nat {
    (th: Thread) => if th.pc == Release(n) then 1 else 0
  }

  /** Is putting n on the list. */
  ghost function LinkerOf(n: nat): Thread -> nat {
    (th: Thread) =>
      if (th.pc.LinkLoadHead? || th.pc.LinkStoreNext? || th.pc.LinkStoreRefs? || th.pc.LinkCas? || th.pc.LinkFail?)
         && th.pc.n == n then 1 else 0
  }

  /** Is putting n on the list and has not yet given it its reference count. */
  ghost function PreparerOf(n: nat): Thread -> nat {
    (th: Thread) =>
      if (th.pc.LinkLoadHead? || th.pc.LinkStoreNext? || th.pc.LinkStoreRefs?) && th.pc.n == n then 1 else 0
  }

  // -------------------------------------------------------------------
  // Invariant
  // -------------------------------------------------------------------

  function PtrAt(l: seq<nat>, i: nat): Ptr { if i < |l| then At(l[i]) else Null }

  /** l is the list: distinct nodes, each linked to the one after it. */
  ghost predicate Chain(s: State, l: seq<nat>) {
    && s.head == PtrAt(l, 0)
    && (forall i :: 0 <= i < |l| ==> l[i] < |s.nodes|)
    && (forall i {:trigger s.nodes[l[i]]} :: 0 <= i < |l| ==> s.nodes[l[i]].next == PtrAt(l, i + 1))
    && (forall i, j :: 0 <= i < j < |l| ==> l[i] != l[j])
  }

  ghost function Linked(l: seq<nat>, n: nat): nat { if n in l then 1 else 0 }

  /** The should-be-on-freelist bit. */
  predicate Marked(refs: int) { refs >= SHOULD_BE_ON_FREELIST }

  /**
   Where node n is. Not marked: with one owner, with one thread linking it, with one thread taking
   it, or on the list. Marked: parked with outstanding references, or being prepared by one
   thread with none.
  */
  ghost predicate NodeInv(s: State, l: seq<nat>, n: nat)
    requires n < |s.nodes|
  {
    Placed(s.nodes[n].refs, Linked(l, n), Sum(s.threads, RefsOf(n)), Sum(s.threads, OwnerOf(n)),
           Sum(s.threads, LinkerOf(n)), Sum(s.threads, PreparerOf(n)), Sum(s.threads, TakerOf(n)))
  }

  ghost predicate Placed(refs: int, linked: nat, held: nat, owners: nat, linkers: nat, preparers: nat, takers: nat) {
    && 0 <= refs < WORD
    && Count(refs) == linked + held
    && (Marked(refs) ==>
          && owners == 0 && takers == 0 && linked == 0
          && linkers == preparers <= 1
          && (preparers == 1 <==> Count(refs) == 0))
    && (!Marked(refs) ==> preparers == 0 && owners + linkers + takers + linked == 1)
  }

  /** A thread about to CAS the head holds the current next pointer of its node. */
  ghost predicate ThreadInv(s: State, t: nat)
    requires t < |s.threads|
  {
    var pc := s.threads[t].pc;
    && PcIn(pc, |s.nodes|)
    && (pc.CasHead? ==> s.nodes[pc.h].next == pc.nxt)
    && (pc.LinkStoreRefs? || pc.LinkCas? ==> s.nodes[pc.n].next == pc.dest)
    && (pc.Adding? ==> pc.n in s.threads[t].owned)
  }

  ghost predicate InvWith(s: State, l: seq<nat>) {
    && |s.threads| < 0x4000_0000 - 1
    && Chain(s, l)
    && (forall n :: 0 <= n < |s.nodes| ==> PtrIn(s.nodes[n].next, |s.nodes|))
    && (forall t :: 0 <= t < |s.threads| ==> ThreadInv(s, t))
    && (forall n :: 0 <= n < |s.nodes| ==> NodeInv(s, l, n))
  }

  ghost predicate Inv(s: State) { exists l :: InvWith(s, l) }

  /** The list after a step. */
  ghost function NextList(s: State, t: nat, l: seq<nat>): seq<nat>
    requires t < |s.threads|
  {
    var pc := s.threads[t].pc;
    if pc.CasHead? && s.head == At(pc.h) && l != [] then l[1..]
    else if pc.LinkCas? && s.head == pc.dest then [pc.n] + l
    else l
  }

  // -------------------------------------------------------------------
  // Every step keeps the invariant
  // -------------------------------------------------------------------

  lemma {:induction false} InitInv(s: State)
    requires Init(s)
    ensures InvWith(s, [])
  {
    forall n | 0 <= n < |s.nodes| ensures NodeInv(s, [], n) {
      SumZero(s.threads, RefsOf(n));
      SumZero(s.threads, LinkerOf(n));
      SumZero(s.threads, PreparerOf(n));
      SumZero(s.threads, TakerOf(n));
    }
  }

  /** How the totals of node n move when one thread changes. */
  lemma Totals(s: State, s': State, t: nat, n: nat)
    requires t < |s.threads| && |s'.threads| == |s.threads| && s'.threads == s.threads[t := s'.threads[t]]
    ensures Sum(s'.threads, RefsOf(n)) == Sum(s.threads, RefsOf(n)) - RefsOf(n)(s.threads[t]) + RefsOf(n)(s'.threads[t])
    ensures Sum(s'.threads, OwnerOf(n)) == Sum(s.threads, OwnerOf(n)) - OwnerOf(n)(s.threads[t]) + OwnerOf(n)(s'.threads[t])
    ensures Sum(s'.threads, TakerOf(n)) == Sum(s.threads, TakerOf(n)) - TakerOf(n)(s.threads[t]) + TakerOf(n)(s'.threads[t])
    ensures Sum(s'.threads, LinkerOf(n)) == Sum(s.threads, LinkerOf(n)) - LinkerOf(n)(s.threads[t]) + LinkerOf(n)(s'.threads[t])
    ensures Sum(s'.threads, PreparerOf(n)) == Sum(s.threads, PreparerOf(n)) - PreparerOf(n)(s.threads[t]) + PreparerOf(n)(s'.threads[t])
    ensures RefsOf(n)(s.threads[t]) <= Sum(s.threads, RefsOf(n)) && OwnerOf(n)(s.threads[t]) <= Sum(s.threads, OwnerOf(n))
    ensures TakerOf(n)(s.threads[t]) <= Sum(s.threads, TakerOf(n)) && LinkerOf(n)(s.threads[t]) <= Sum(s.threads, LinkerOf(n))
    ensures PreparerOf(n)(s.threads[t]) <= Sum(s.threads, PreparerOf(n))
  {
    hide Sum;
    SumUpdate(s.threads, t, s'.threads[t], RefsOf(n));
    SumUpdate(s.threads, t, s'.threads[t], OwnerOf(n));
    SumUpdate(s.threads, t, s'.threads[t], TakerOf(n));
    SumUpdate(s.threads, t, s'.threads[t], LinkerOf(n));
    SumUpdate(s.threads, t, s'.threads[t], PreparerOf(n));
  }

  lemma {:induction false} RefsBound(threads: seq<Thread>, n: nat)
    ensures Sum(threads, RefsOf(n)) <= 2 * |threads|
  {
    if threads != [] {
      RefsBound(threads[..|threads| - 1], n);
    }
  }

  lemma Halves(refs: int)
    requires 0 <= refs < WORD
    ensures 0 <= Count(refs) < SHOULD_BE_ON_FREELIST
    ensures refs == Count(refs) + if Marked(refs) then SHOULD_BE_ON_FREELIST else 0
  {
  }

  lemma PlusExact(refs: int, d: int)
    requires 0 <= refs + d < WORD
    ensures Plus(refs, d) == refs + d
  {
  }

  /** The word arithmetic, where the count neither overflows nor underflows. */
  lemma WordArithmetic(refs: int, d: int)
    requires 0 <= refs < WORD
    requires -2 <= d <= 1 && 0 <= Count(refs) + d < SHOULD_BE_ON_FREELIST
    ensures Count(Plus(refs, d)) == Count(refs) + d && Marked(Plus(refs, d)) == Marked(refs)
    ensures 0 <= Plus(refs, d) < WORD
    ensures !Marked(refs) ==>
              var marked := Plus(refs, SHOULD_BE_ON_FREELIST + d);
              0 <= marked < WORD && Marked(marked) && Count(marked) == Count(refs) + d
    ensures refs == SHOULD_BE_ON_FREELIST + 1 <==> Marked(refs) && Count(refs) == 1
    ensures refs == 1 <==> !Marked(refs) && Count(refs) == 1
    ensures refs == 0 <==> !Marked(refs) && Count(refs) == 0
  {
    hide Count;
    hide Plus;
    Halves(refs);
    PlusExact(refs, d);
    Halves(Plus(refs, d));
    if !Marked(refs) {
      PlusExact(refs, SHOULD_BE_ON_FREELIST + d);
      Halves(Plus(refs, SHOULD_BE_ON_FREELIST + d));
    }
  }

  /** Steps that change no reference count, no owner and no list. */
  predicate Quiet(s: State, pc: Pc) {
    || pc.Idle? || pc.LoadHead? || pc.LoadRefs? || pc.LoadNext? || pc.LinkLoadHead? || pc.LinkStoreNext?
    || (pc.CasHead? && s.head != At(pc.h)) || (pc.LinkCas? && s.head != pc.dest)
  }

  lemma QuietNode(s: State, t: nat, c: Call, l: seq<nat>, n: nat)
    requires Enabled(s, t, c) && n < |s.nodes| && NodeInv(s, l, n) && Quiet(s, s.threads[t].pc)
    ensures NodeInv(Next(s, t, c), NextList(s, t, l), n)
  {
    hide Sum;
    hide Placed;
    Totals(s, Next(s, t, c), t, n);
  }

  lemma CountNode(s: State, t: nat, c: Call, l: seq<nat>, n: nat)
    requires Enabled(s, t, c) && n < |s.nodes| && NodeInv(s, l, n) && |s.threads| < 0x4000_0000 - 1
    requires s.threads[t].pc.CasRefs? || s.threads[t].pc.Drop?
    ensures NodeInv(Next(s, t, c), NextList(s, t, l), n)
  {
    hide Sum;
    hide Plus;
    hide Count;
    Totals(s, Next(s, t, c), t, n);
    RefsBound(s.threads, n);
    Halves(s.nodes[n].refs);
    var d := if s.threads[t].pc.CasRefs? then 1 else -1;
    if s.threads[t].pc.Drop? && s.threads[t].pc.h != n {
    } else {
      WordArithmetic(s.nodes[n].refs, d);
    }
  }

  lemma OwnNode(s: State, t: nat, c: Call, l: seq<nat>, n: nat)
    requires Enabled(s, t, c) && n < |s.nodes| && NodeInv(s, l, n) && ThreadInv(s, t)
    requires s.threads[t].pc.Release? || s.threads[t].pc.Adding?
    ensures NodeInv(Next(s, t, c), NextList(s, t, l), n)
  {
    hide Sum;
    hide Plus;
    hide Count;
    Totals(s, Next(s, t, c), t, n);
    Halves(s.nodes[n].refs);
    if s.threads[t].pc.Release? {
      if s.threads[t].pc.h == n {
        WordArithmetic(s.nodes[n].refs, -2);
      }
    } else {
      WordArithmetic(s.nodes[n].refs, 0);
    }
  }

  lemma LinkNode(s: State, t: nat, c: Call, l: seq<nat>, n: nat)
    requires Enabled(s, t, c) && n < |s.nodes| && NodeInv(s, l, n)
    requires s.threads[t].pc.LinkStoreRefs? || s.threads[t].pc.LinkFail?
    ensures NodeInv(Next(s, t, c), NextList(s, t, l), n)
  {
    hide Sum;
    hide Plus;
    hide Count;
    Totals(s, Next(s, t, c), t, n);
    Halves(s.nodes[n].refs);
    Halves(1);
    if s.threads[t].pc.LinkFail? && s.threads[t].pc.n == n {
      WordArithmetic(s.nodes[n].refs, -1);
    }
  }

  lemma Popped(s: State, l: seq<nat>, h: nat, n: nat)
    requires Chain(s, l) && s.head == At(h)
    ensures l != [] && l[0] == h
    ensures Linked(l, n) == Linked(l[1..], n) + if n == h then 1 else 0
  {
    assert l == [l[0]] + l[1..];
    assert l[0] !in l[1..];
  }

  lemma TakeNode(s: State, t: nat, c: Call, l: seq<nat>, n: nat)
    requires Enabled(s, t, c) && n < |s.nodes| && NodeInv(s, l, n) && Chain(s, l)
    requires s.threads[t].pc.CasHead? && s.head == At(s.threads[t].pc.h)
    ensures NodeInv(Next(s, t, c), NextList(s, t, l), n)
  {
    hide Sum;
    hide Count;
    hide Chain;
    hide Linked;
    Totals(s, Next(s, t, c), t, n);
    Popped(s, l, s.threads[t].pc.h, n);
  }

  lemma PutNode(s: State, t: nat, c: Call, l: seq<nat>, n: nat)
    requires Enabled(s, t, c) && n < |s.nodes| && NodeInv(s, l, n)
    requires s.threads[t].pc.LinkCas? && s.head == s.threads[t].pc.dest
    ensures NodeInv(Next(s, t, c), NextList(s, t, l), n)
  {
    hide Sum;
    hide Count;
    Totals(s, Next(s, t, c), t, n);
  }

  lemma StepNode(s: State, t: nat, c: Call, l: seq<nat>, n: nat)
    requires InvWith(s, l) && Enabled(s, t, c) && n < |s.nodes|
    ensures NodeInv(Next(s, t, c), NextList(s, t, l), n)
  {
    hide NodeInv;
    hide Next;
    var pc := s.threads[t].pc;
    if Quiet(s, pc) {
      QuietNode(s, t, c, l, n);
    } else if pc.CasRefs? || pc.Drop? {
      CountNode(s, t, c, l, n);
    } else if pc.Release? || pc.Adding? {
      OwnNode(s, t, c, l, n);
    } else if pc.LinkStoreRefs? || pc.LinkFail? {
      LinkNode(s, t, c, l, n);
    } else if pc.CasHead? {
      TakeNode(s, t, c, l, n);
    } else {
      PutNode(s, t, c, l, n);
    }
  }

  lemma ChainTake(s: State, s': State, l: seq<nat>)
    requires Chain(s, l) && l != [] && s'.nodes == s.nodes && s'.head == s.nodes[l[0]].next
    ensures Chain(s', l[1..])
  {
  }

  lemma ChainPut(s: State, s': State, l: seq<nat>, n: nat)
    requires Chain(s, l) && n < |s.nodes| && n !in l && s.nodes[n].next == s.head
    requires s'.nodes == s.nodes && s'.head == At(n)
    ensures Chain(s', [n] + l)
  {
    var m := [n] + l;
    forall i | 0 <= i < |m| ensures s'.nodes[m[i]].next == PtrAt(m, i + 1) {
      if i > 0 {
        assert m[i] == l[i - 1];
      }
    }
  }

  lemma ChainSame(s: State, s': State, l: seq<nat>)
    requires Chain(s, l) && s'.head == s.head && |s'.nodes| == |s.nodes|
    requires forall i :: 0 <= i < |l| ==> s'.nodes[l[i]].next == s.nodes[l[i]].next
    ensures Chain(s', l)
  {
  }

  lemma StepNodes(s: State, t: nat, c: Call)
    requires Enabled(s, t, c)
    ensures var s' := Next(s, t, c); var pc := s.threads[t].pc;
            && |s'.nodes| == |s.nodes| && |s'.threads| == |s.threads|
            && (forall n :: 0 <= n < |s.nodes| && !(pc.LinkStoreNext? && pc.n == n) ==> s'.nodes[n].next == s.nodes[n].next)
            && (pc.CasHead? && s.head == At(pc.h) ==> s'.head == pc.nxt && s'.nodes == s.nodes)
            && (pc.LinkCas? && s.head == pc.dest ==> s'.head == At(pc.n) && s'.nodes == s.nodes)
            && (!(pc.CasHead? && s.head == At(pc.h)) && !(pc.LinkCas? && s.head == pc.dest) ==> s'.head == s.head)
            && (pc.LinkStoreNext? ==> s'.nodes[pc.n].next == pc.dest)
            && (forall u :: 0 <= u < |s.threads| && u != t ==> s'.threads[u] == s.threads[u])
  {
  }

  lemma StepChain(s: State, t: nat, c: Call, l: seq<nat>)
    requires InvWith(s, l) && Enabled(s, t, c)
    ensures Chain(Next(s, t, c), NextList(s, t, l))
  {
    hide NodeInv;
    hide Next;
    var pc := s.threads[t].pc;
    var s' := Next(s, t, c);
    StepNodes(s, t, c);
    assert ThreadInv(s, t);
    if pc.CasHead? && s.head == At(pc.h) {
      Popped(s, l, pc.h, pc.h);
      ChainTake(s, s', l);
    } else if pc.LinkCas? && s.head == pc.dest {
      BeingLinked(s, l, t);
      ChainPut(s, s', l, pc.n);
    } else {
      if pc.LinkStoreNext? {
        BeingLinked(s, l, t);
      }
      ChainSame(s, s', l);
    }
  }

  /** A node being linked is not on the list, and this thread alone is linking it. */
  lemma BeingLinked(s: State, l: seq<nat>, t: nat)
    requires InvWith(s, l) && t < |s.threads| && LinkerOf(LinkNodeOf(s.threads[t].pc))(s.threads[t]) == 1
    ensures LinkNodeOf(s.threads[t].pc) !in l
    ensures forall u :: 0 <= u < |s.threads| && u != t ==> LinkerOf(LinkNodeOf(s.threads[t].pc))(s.threads[u]) == 0
    ensures s.threads[t].pc.LinkStoreNext? ==>
              forall u :: 0 <= u < |s.threads| ==> RefsOf(s.threads[t].pc.n)(s.threads[u]) == 0
  {
    hide Sum;
    var n := LinkNodeOf(s.threads[t].pc);
    assert ThreadInv(s, t);
    assert NodeInv(s, l, n);
    SumUpdate(s.threads, t, s.threads[t], LinkerOf(n));
    SumUpdate(s.threads, t, s.threads[t], PreparerOf(n));
    SumUpdate(s.threads, t, s.threads[t], RefsOf(n));
    forall u | 0 <= u < |s.threads| && u != t ensures LinkerOf(n)(s.threads[u]) == 0 {
      SumPair(s.threads, if t < u then t else u, if t < u then u else t, LinkerOf(n));
    }
    forall u | 0 <= u < |s.threads| && s.threads[t].pc.LinkStoreNext? ensures RefsOf(n)(s.threads[u]) == 0 {
      SumUpdate(s.threads, u, s.threads[u], RefsOf(n));
    }
  }

  ghost function LinkNodeOf(pc: Pc): nat {
    if pc.LinkLoadHead? || pc.LinkStoreNext? || pc.LinkStoreRefs? || pc.LinkCas? || pc.LinkFail? then pc.n else 0
  }

  /** The thread that steps. */
  lemma StepSelf(s: State, t: nat, c: Call)
    requires Enabled(s, t, c) && ThreadInv(s, t) && PtrIn(s.head, |s.nodes|)
    requires forall n :: 0 <= n < |s.nodes| ==> PtrIn(s.nodes[n].next, |s.nodes|)
    ensures ThreadInv(Next(s, t, c), t)
  {
    hide Count;
    hide Plus;
  }

  /** The others. */
  lemma StepOther(s: State, t: nat, c: Call, l: seq<nat>, u: nat)
    requires InvWith(s, l) && Enabled(s, t, c) && u < |s.threads| && u != t
    ensures ThreadInv(Next(s, t, c), u)
  {
    hide NodeInv;
    hide Next;
    assert ThreadInv(s, u);
    StepNodes(s, t, c);
    if s.threads[t].pc.LinkStoreNext? {
      BeingLinked(s, l, t);
    }
  }

  lemma StepThread(s: State, t: nat, c: Call, l: seq<nat>, u: nat)
    requires InvWith(s, l) && Enabled(s, t, c) && u < |s.threads|
    ensures |Next(s, t, c).threads| == |s.threads|
    ensures ThreadInv(Next(s, t, c), u)
  {
    hide NodeInv;
    hide Next;
    StepNodes(s, t, c);
    if u == t {
      HeadIn(s, l);
      assert ThreadInv(s, t);
      StepSelf(s, t, c);
    } else {
      StepOther(s, t, c, l, u);
    }
  }

  lemma HeadIn(s: State, l: seq<nat>)
    requires Chain(s, l)
    ensures PtrIn(s.head, |s.nodes|)
  {
  }

  lemma StepPointers(s: State, t: nat, c: Call)
    requires Enabled(s, t, c) && forall n :: 0 <= n < |s.nodes| ==> PtrIn(s.nodes[n].next, |s.nodes|)
    ensures forall n :: 0 <= n < |s.nodes| ==> PtrIn(Next(s, t, c).nodes[n].next, |s.nodes|)
  {
    hide Next;
    StepNodes(s, t, c);
  }

  lemma StepInvWith(s: State, t: nat, c: Call, l: seq<nat>)
    requires InvWith(s, l) && Enabled(s, t, c)
    ensures InvWith(Next(s, t, c), NextList(s, t, l))
  {
    hide Next;
    hide NodeInv;
    hide ThreadInv;
    hide Chain;
    hide NextList;
    StepNodes(s, t, c);
    StepChain(s, t, c, l);
    StepPointers(s, t, c);
    var s' := Next(s, t, c);
    forall u | 0 <= u < |s'.threads| ensures ThreadInv(s', u) {
      StepThread(s, t, c, l, u);
    }
    forall n | 0 <= n < |s'.nodes| ensures NodeInv(s', NextList(s, t, l), n) {
      StepNode(s, t, c, l, n);
    }
  }

  /** Every step of every thread keeps the invariant. */
  lemma StepInv(s: State, s': State)
    requires Inv(s) && Step(s, s')
    ensures Inv(s')
  {
    hide InvWith;
    var l :| InvWith(s, l);
    var t: nat, c: Call :| Enabled(s, t, c) && s' == Next(s, t, c);
    StepInvWith(s, t, c, l);
  }

  lemma {:induction false} RunInv(run: seq<State>, i: nat)
    requires IsRun(run) && i < |run|
    ensures Inv(run[i])
  {
    if i == 0 {
      InitInv(run[0]);
    } else {
      RunInv(run, i - 1);
      assert Step(run[i - 1], run[i - 1 + 1]);
      StepInv(run[i - 1], run[i]);
    }
  }

  // -------------------------------------------------------------------
  // What the list promises
  // -------------------------------------------------------------------

  /** try_get hands a node to one caller only: no node is owned by two threads. */
  lemma OneOwner(run: seq<State>, i: nat, t: nat, u: nat, n: nat)
    requires IsRun(run) && i < |run| && t < u < |run[i].threads| && n < |run[i].nodes|
    requires n in run[i].threads[t].owned
    ensures n !in run[i].threads[u].owned
  {
    RunInv(run, i);
    InvOneOwner(run[i], t, u, n);
  }

  lemma InvOneOwner(s: State, t: nat, u: nat, n: nat)
    requires Inv(s) && t < |s.threads| && u < |s.threads| && t != u && n < |s.nodes|
    requires n in s.threads[t].owned
    ensures n !in s.threads[u].owned
  {
    var l :| InvWith(s, l);
    assert NodeInv(s, l, n);
    SumPair(s.threads, if t < u then t else u, if t < u then u else t, OwnerOf(n));
  }

  /**
   No ABA: when the CAS of try_get finds its node at the head, the next pointer read earlier is still
   that node's next pointer, so the new head is the second node of the list, and once the node has been
   taken the assertion holds: its should-be-on-freelist bit is clear, until the thread returns it.
  */
  lemma HeadCasIsSafe(run: seq<State>, i: nat, t: nat) returns (l: seq<nat>)
    requires IsRun(run) && i < |run| && t < |run[i].threads|
    ensures Chain(run[i], l)
    ensures var s := run[i]; var pc := s.threads[t].pc;
            && (pc.CasHead? && s.head == At(pc.h) ==>
                  l != [] && l[0] == pc.h && s.nodes[pc.h].next == pc.nxt == PtrAt(l, 1))
            && (pc.Release? ==> pc.h < |s.nodes| && !Marked(s.nodes[pc.h].refs) && pc.h !in l && Count(s.nodes[pc.h].refs) >= 2)
  {
    RunInv(run, i);
    var s := run[i];
    l :| InvWith(s, l);
    assert ThreadInv(s, t);
    var pc := s.threads[t].pc;
    if pc.Release? {
      assert NodeInv(s, l, pc.h);
      SumUpdate(s.threads, t, s.threads[t], TakerOf(pc.h));
      SumUpdate(s.threads, t, s.threads[t], RefsOf(pc.h));
    }
  }

  /** In every reachable state there is such a list, and only one. */
  lemma ListExists(run: seq<State>, i: nat) returns (l: seq<nat>)
    requires IsRun(run) && i < |run|
    ensures Chain(run[i], l)
    ensures forall m :: Chain(run[i], m) ==> m == l
  {
    RunInv(run, i);
    l :| InvWith(run[i], l);
    forall m | Chain(run[i], m) ensures m == l {
      ChainUnique(run[i], m, l, 0);
    }
  }

  /** The head determines the list. */
  lemma {:induction false} ChainUnique(s: State, l: seq<nat>, m: seq<nat>, i: nat)
    requires Chain(s, l) && Chain(s, m) && i <= |l| && i <= |m| && l[..i] == m[..i]
    ensures l == m
    decreases |l| - i
  {
    if i > 0 {
      assert l[i - 1] == l[..i][i - 1] == m[..i][i - 1] == m[i - 1];
      assert s.nodes[l[i - 1]].next == PtrAt(l, i) && s.nodes[m[i - 1]].next == PtrAt(m, i);
    }
    assert PtrAt(l, i) == PtrAt(m, i);
    if i < |l| {
      assert l[..i + 1] == m[..i + 1];
      ChainUnique(s, l, m, i + 1);
    }
  }

  /**
   Nothing is lost and nothing is twice on the list: when no thread is inside an operation, each node is
   either on the list or owned by exactly one thread, and not both, whatever happened before.
  */
  lemma NothingLost(run: seq<State>, i: nat) returns (l: seq<nat>)
    requires IsRun(run) && i < |run|
    requires forall t :: 0 <= t < |run[i].threads| ==> run[i].threads[t].pc == Idle
    ensures Chain(run[i], l)
    ensures forall n :: 0 <= n < |run[i].nodes| ==>
              Sum(run[i].threads, OwnerOf(n)) == (if n in l then 0 else 1)
  {
    RunInv(run, i);
    var s := run[i];
    l :| InvWith(s, l);
    forall n | 0 <= n < |s.nodes| ensures Sum(s.threads, OwnerOf(n)) == if n in l then 0 else 1 {
      assert NodeInv(s, l, n);
      SumZero(s.threads, RefsOf(n));
      SumZero(s.threads, LinkerOf(n));
      SumZero(s.threads, PreparerOf(n));
      SumZero(s.threads, TakerOf(n));
    }
  }

  /**
   In every reachable state a node is in exactly one place: with one owner, on the list, being taken by
   one thread, being linked by one thread, or parked with its bit set and somebody still referring to it.
  */
  lemma OnePlace(run: seq<State>, i: nat, n: nat, l: seq<nat>)
    requires IsRun(run) && i < |run| && n < |run[i].nodes| && Chain(run[i], l)
    ensures var s := run[i];
            var parked: nat := if Marked(s.nodes[n].refs) && Count(s.nodes[n].refs) > 0 then 1 else 0;
            Sum(s.threads, OwnerOf(n)) + Linked(l, n) + Sum(s.threads, TakerOf(n)) + Sum(s.threads, LinkerOf(n)) + parked == 1
    ensures Count(run[i].nodes[n].refs) == Linked(l, n) + Sum(run[i].threads, RefsOf(n))
  {
    RunInv(run, i);
    InvOnePlace(run[i], n, l);
  }

  lemma InvOnePlace(s: State, n: nat, l: seq<nat>)
    requires Inv(s) && n < |s.nodes| && Chain(s, l)
    ensures var parked: nat := if Marked(s.nodes[n].refs) && Count(s.nodes[n].refs) > 0 then 1 else 0;
            Sum(s.threads, OwnerOf(n)) + Linked(l, n) + Sum(s.threads, TakerOf(n)) + Sum(s.threads, LinkerOf(n)) + parked == 1
    ensures Count(s.nodes[n].refs) == Linked(l, n) + Sum(s.threads, RefsOf(n))
  {
    var m :| InvWith(s, m);
    ChainUnique(s, l, m, 0);
    assert NodeInv(s, m, n);
  }

  // -------------------------------------------------------------------
  // Nodes in use change hands
  // -------------------------------------------------------------------

  /** Thread t passes a node that it owns on to thread u. */
  function HandOver(s: State, t: nat, u: nat, n: nat): State
    requires t < |s.threads| && u < |s.threads|
  {
    var given := s.threads[t := s.threads[t].(owned := s.threads[t].owned - {n})];
    s.(threads := given[u := given[u].(owned := given[u].owned + {n})])
  }

  lemma HandOverTotals(s: State, t: nat, u: nat, n: nat, m: nat)
    requires t < |s.threads| && u < |s.threads| && t != u && n in s.threads[t].owned && n !in s.threads[u].owned
    ensures var s' := HandOver(s, t, u, n);
            && Sum(s'.threads, RefsOf(m)) == Sum(s.threads, RefsOf(m))
            && Sum(s'.threads, OwnerOf(m)) == Sum(s.threads, OwnerOf(m))
            && Sum(s'.threads, TakerOf(m)) == Sum(s.threads, TakerOf(m))
            && Sum(s'.threads, LinkerOf(m)) == Sum(s.threads, LinkerOf(m))
            && Sum(s'.threads, PreparerOf(m)) == Sum(s.threads, PreparerOf(m))
  {
    hide Sum;
    var s' := HandOver(s, t, u, n);
    var given := s.(threads := s.threads[t := s.threads[t].(owned := s.threads[t].owned - {n})]);
    Totals(s, given, t, m);
    Totals(given, s', u, m);
  }

  lemma HandOverInv(s: State, t: nat, u: nat, n: nat)
    requires Inv(s) && t < |s.threads| && u < |s.threads| && t != u && n < |s.nodes|
    requires n in s.threads[t].owned && s.threads[t].pc.Idle?
    ensures Inv(HandOver(s, t, u, n))
  {
    hide Sum;
    hide Placed;
    InvOneOwner(s, t, u, n);
    var l :| InvWith(s, l);
    var s' := HandOver(s, t, u, n);
    forall v | 0 <= v < |s'.threads| ensures ThreadInv(s', v) {
      assert ThreadInv(s, v);
    }
    forall m | 0 <= m < |s'.nodes| ensures NodeInv(s', l, m) {
      assert NodeInv(s, l, m);
      HandOverTotals(s, t, u, n, m);
    }
    assert InvWith(s', l);
  }
}
