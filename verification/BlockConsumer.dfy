/** Every step of a consumer keeps the invariant of the block queue. */
module BlockConsumer {
  import opened Sums
  import opened BlockQueue
  import opened BlockRing
  import opened BlockInv
  import opened BlockProducer
  import opened BlockShared
  import Integers

  // -------------------------------------------------------------------
  // Overlap arithmetic
  // -------------------------------------------------------------------

  lemma OverlapSplit(i: int, m: int, j: int, b: int)
    requires i <= m <= j
    ensures Overlap(i, j, b) == Overlap(i, m, b) + Overlap(m, j, b)
  {
  }

  /** Indices within block b. */
  lemma OverlapWithin(i: nat, j: nat, b: nat, c: nat)
    requires b * BLOCK_SIZE <= i <= j <= b * BLOCK_SIZE + BLOCK_SIZE
    ensures Overlap(i, j, c) == if c == b then j - i else 0
  {
  }

  // -------------------------------------------------------------------
  // How the totals move when consumer t moves
  // -------------------------------------------------------------------

  lemma Moved(s: State, s': State, t: nat, f: Consumer -> nat)
    requires t < |s.cons| && |s'.cons| == |s.cons| && s'.cons == s.cons[t := s'.cons[t]]
    ensures Sum(s'.cons, f) == Sum(s.cons, f) - f(s.cons[t]) + f(s'.cons[t])
    ensures f(s.cons[t]) <= Sum(s.cons, f)
  {
    hide Sum;
    SumUpdate(s.cons, t, s'.cons[t], f);
  }

  /** Only consumer t has moved, and it has neither released nor freed anything. */
  ghost predicate OneMoved(s: State, s': State, t: nat) {
    t < |s.cons| && |s'.cons| == |s.cons| && s'.cons == s.cons[t := s'.cons[t]]
  }

  lemma LifeMoved(s: State, s': State, t: nat, b: nat)
    requires OneMoved(s, s', t) && LifeInv(s, b)
    requires b in s'.live ==> b in s.live && s'.live[b] == s.live[b]
    requires b in s'.live && s.live[b] in s.blocks ==> s.live[b] in s'.blocks
    requires b in s'.live && s.live[b] in s.blocks ==>
               var d, d' := s.blocks[s.live[b]].dequeued, s'.blocks[s.live[b]].dequeued;
               && d' + Held(b)(s'.cons[t]) - Held(b)(s.cons[t]) - d == Overlap(0, s'.head, b) - Overlap(0, s.head, b)
               && Nulling(b)(s'.cons[t]) - Nulling(b)(s.cons[t]) ==
                  (if d' == BLOCK_SIZE then 1 else 0) - (if d == BLOCK_SIZE then 1 else 0)
    ensures LifeInv(s', b)
  {
    hide Sum;
    hide Overlap;
    Moved(s, s', t, Held(b));
    Moved(s, s', t, Nulling(b));
  }

  lemma OutMoved(s: State, s': State, t: nat, x: nat)
    requires OneMoved(s, s', t) && OutInv(s, x) && s'.published == s.published
    requires Has(x)(s'.cons[t]) - Has(x)(s.cons[t]) ==
             (if x < s'.head then 1 else 0) - (if x < s.head then 1 else 0)
             - (if x in s'.out then 1 else 0) + (if x in s.out then 1 else 0)
    requires x in s'.out ==> x < |s.published| && s'.out[x] == s.published[x]
    requires x < |s.published| && x !in s'.out && x / BLOCK_SIZE in s.live ==> x / BLOCK_SIZE in s'.live
    requires x in s.out ==> x in s'.out
    ensures OutInv(s', x)
  {
    hide Sum;
    Moved(s, s', t, Has(x));
  }

  lemma PlaceMoved(s: State, s': State, t: nat, k: nat)
    requires OneMoved(s, s', t) && PlaceInv(s, k) && s'.prod == s.prod
    requires (if IsLive(s'.live, k) then 1 else 0) - (if IsLive(s.live, k) then 1 else 0)
             + Freeing(k)(s'.cons[t]) - Freeing(k)(s.cons[t])
             == (if k in s'.blocks then 1 else 0) - (if k in s.blocks then 1 else 0)
    ensures PlaceInv(s', k)
  {
    hide Sum;
    hide IsLive;
    hide InHand;
    Moved(s, s', t, Freeing(k));
  }

  lemma SlotMoved(s: State, s': State, x: nat)
    requires SlotInv(s, x) && s'.prod == s.prod && s'.published == s.published
    requires x in s.out ==> x in s'.out
    requires x / BLOCK_SIZE in s'.live ==> x / BLOCK_SIZE in s.live && s'.live[x / BLOCK_SIZE] == s.live[x / BLOCK_SIZE]
    requires x !in s'.out && x / BLOCK_SIZE in s'.live && s'.live[x / BLOCK_SIZE] in s'.blocks ==>
               var k := s.live[x / BLOCK_SIZE];
               k in s.blocks && |s'.blocks[k].slots| == |s.blocks[k].slots|
               && (|s.blocks[k].slots| == BLOCK_SIZE ==>
                     s'.blocks[k].slots[x % BLOCK_SIZE] == s.blocks[k].slots[x % BLOCK_SIZE])
    ensures SlotInv(s', x)
  {
  }

  // -------------------------------------------------------------------
  // Consumers that only look
  // -------------------------------------------------------------------

  /** Consumer t has moved on without touching anything shared: it holds the same indices. */
  ghost predicate LookStep(s: State, s': State, t: nat) {
    && t < |s.cons|
    && exists c :: s' == Go(s, t, c) && SameHoldings(s.cons[t], c)
  }

  ghost predicate SameHoldings(c: Consumer, c': Consumer) {
    && !c.CIdle? && !c'.CIdle? && c'.i == c.i && c'.j == c.j
    && !c.CCount? && !c.CNull? && !c.CFree? && !c'.CCount? && !c'.CNull? && !c'.CFree?
    && (c.CMove? ==> c.from == c.i) && (c'.CMove? ==> c'.from == c'.i)
  }

  lemma OthersKeep(s: State, s': State, t: nat)
    requires Shared(s) && Shape(s') && SameHeaders(s, s') && OneMoved(s, s', t)
    requires forall u :: 0 <= u < |s.cons| && u != t ==> Undisturbed(s, s', s.cons[u])
    requires ConsumerInv(s', s'.cons[t])
    ensures forall u :: 0 <= u < |s'.cons| ==> ConsumerInv(s', s'.cons[u])
  {
    hide LifeInv;
    hide OutInv;
    hide SlotInv;
    hide PlaceInv;
    hide ConsumerInv;
    hide SameHeaders;
    hide Undisturbed;
    forall u | 0 <= u < |s'.cons| ensures ConsumerInv(s', s'.cons[u]) {
      if u != t {
        assert s'.cons[u] == s.cons[u] && ConsumerShape(s'.cons[u], s'.headers, |s'.entries|);
        ConsumerFrame(s, s', s.cons[u]);
      }
    }
  }

  lemma LookShared(s: State, s': State, t: nat)
    requires Shared(s) && Shape(s') && LookStep(s, s', t) && ConsumerInv(s', s'.cons[t])
    ensures Shared(s')
  {
    hide ConsumerInv;
    hide LifeInv;
    hide OutInv;
    hide SlotInv;
    hide PlaceInv;
    hide IsLive;
    OthersKeep(s, s', t);
    forall b: nat ensures LifeInv(s', b) { LookLife(s, s', t, b); }
    forall x: nat ensures OutInv(s', x) { LookOut(s, s', t, x); }
    forall x: nat ensures SlotInv(s', x) { SlotMoved(s, s', x); }
    forall k: nat ensures PlaceInv(s', k) { PlaceMoved(s, s', t, k); }
  }

  lemma LookLife(s: State, s': State, t: nat, b: nat)
    requires LookStep(s, s', t) && LifeInv(s, b)
    ensures LifeInv(s', b)
  {
    hide LifeInv;
    LifeMoved(s, s', t, b);
  }

  lemma LookOut(s: State, s': State, t: nat, x: nat)
    requires LookStep(s, s', t) && OutInv(s, x)
    ensures OutInv(s', x)
  {
    assert x in s.out ==> x < |s.published| && s.out[x] == s.published[x];
    OutMoved(s, s', t, x);
  }

  /** A step that changes nothing but a consumer keeps the producer's part. */
  lemma LookOwn(s: State, s': State, t: nat)
    requires Own(s) && Shape(s') && LookStep(s, s', t)
    ensures Own(s')
  {
    hide RingOk;
    hide Shape;
  }

  lemma HeaderLook(s: State, t: nat, i: nat, j: nat)
    requires Shape(s) && t < |s.cons| && s.cons[t] == CHeader(i, j) && ConsumerInv(s, s.cons[t])
    ensures var s' := Go(s, t, CTail(i, j, |s.headers| - 1));
            Shape(s') && LookStep(s, s', t) && ConsumerInv(s', s'.cons[t])
  {
  }

  lemma TailLook(s: State, t: nat, i: nat, j: nat, h: nat)
    requires Own(s) && t < |s.cons| && s.cons[t] == CTail(i, j, h) && ConsumerInv(s, s.cons[t])
    ensures var s' := DoTail(s, t, i, j, h);
            Shape(s') && LookStep(s, s', t) && ConsumerInv(s', s'.cons[t])
  {
    var s' := DoTail(s, t, i, j, h);
    assert SameHoldings(s.cons[t], s'.cons[t]);
    if h == |s.headers| - 1 {
      InsertedCovers(s, i);
      TailPos(Cur(s), Inserted(s) - 1);
    }
    TailLookInv(s, s', t, i, j, h);
  }

  /** The blocks inserted reach past every claimed index. */
  lemma InsertedCovers(s: State, i: nat)
    requires RingInv(s) && PhaseInv(s) && i < s.head
    ensures i / BLOCK_SIZE < Inserted(s) <= s.hi
  {
  }

  lemma TailLookInv(s: State, s': State, t: nat, i: nat, j: nat, h: nat)
    requires Shape(s) && t < |s.cons| && s.cons[t] == CTail(i, j, h) && ConsumerInv(s, s.cons[t])
    requires s' == DoTail(s, t, i, j, h)
    requires h == |s.headers| - 1 ==>
               i / BLOCK_SIZE < Inserted(s) <= s.hi && Cur(s).tail == Pos(Cur(s), Inserted(s) - 1)
    ensures Shape(s') && ConsumerInv(s', s'.cons[t])
  {
    assert HeaderShape(s.headers[h], |s.entries|);
  }

  /** A consumer of index i finds the block of i live, so its number is in the window. */
  lemma SeekLive(s: State, t: nat)
    requires Shared(s) && t < |s.cons| && s.head <= |s.published|
    requires s.cons[t].CKey? || s.cons[t].CEntry? || s.cons[t].CTail? || s.cons[t].CMove?
    ensures s.cons[t].i / BLOCK_SIZE in s.live
    ensures s.live[s.cons[t].i / BLOCK_SIZE] in s.blocks
  {
    hide LifeInv;
    hide OutInv;
    hide SlotInv;
    hide PlaceInv;
    hide SameEntries;
    hide Anchor;
    hide Sum;
    var c := s.cons[t];
    assert ConsumerInv(s, c);
    assert Has(c.i)(c) == 1;
    HeldIsLive(s, t, c.i);
    LiveInBlocks(s, c.i / BLOCK_SIZE);
  }

  lemma LiveInBlocks(s: State, b: nat)
    requires LifeInv(s, b) && b in s.live
    ensures s.live[b] in s.blocks
  {
  }

  /** The key read at the tail position read earlier is the number of the block that was at the tail then. */
  lemma KeyFound(s: State, t: nat)
    requires Own(s) && Shared(s) && t < |s.cons| && s.cons[t].CKey?
    ensures var c := s.cons[t];
            && s.entries[s.headers[c.h].index[c.t]].key == Base(c.tb)
            && LookupAt(s.headers[c.h], c.t, c.tb, c.i / BLOCK_SIZE) == Pos(s.headers[c.h], c.i / BLOCK_SIZE)
  {
    hide LifeInv;
    hide OutInv;
    hide SlotInv;
    hide PlaceInv;
    hide SameEntries;
    hide NewsInv;
    hide LiveInjective;
    var c := s.cons[t];
    assert ConsumerInv(s, c);
    SeekLive(s, t);
    LookupPos(s.headers[c.h], c.tb, c.i / BLOCK_SIZE);
    assert s.entries[EntryOf(Cur(s), c.tb)].key == Base(c.tb);
  }

  lemma KeyLook(s: State, t: nat, i: nat, j: nat, h: nat, tl: nat, tb: nat)
    requires Own(s) && Shared(s) && t < |s.cons| && s.cons[t] == CKey(i, j, h, tl, tb)
    ensures s.entries[s.headers[h].index[tl]].key.Base?
    ensures var s' := DoKey(s, t, i, j, h, tl);
            Shape(s') && LookStep(s, s', t) && ConsumerInv(s', s'.cons[t])
  {
    hide LifeInv;
    hide OutInv;
    hide SlotInv;
    hide PlaceInv;
    hide Own;
    KeyFound(s, t);
    assert ConsumerInv(s, s.cons[t]);
    var s' := DoKey(s, t, i, j, h, tl);
    assert SameHoldings(s.cons[t], s'.cons[t]);
  }

  /** The entry found is the one for the block of index i, with its number as key and its block as value. */
  lemma EntryFound(s: State, t: nat)
    requires Own(s) && Shared(s) && t < |s.cons| && s.cons[t].CEntry?
    ensures var c := s.cons[t]; var b := c.i / BLOCK_SIZE;
            && b in s.live && s.live[b] in s.blocks
            && s.headers[c.h].index[c.idx] == EntryOf(Cur(s), b)
            && s.entries[s.headers[c.h].index[c.idx]] == Entry(Base(b), Ptr(s.live[b]))
  {
    hide LifeInv;
    hide OutInv;
    hide SlotInv;
    hide PlaceInv;
    hide NewsInv;
    hide LiveInjective;
    var c := s.cons[t];
    assert ConsumerInv(s, c);
    SeekLive(s, t);
    var b := c.i / BLOCK_SIZE;
    assert EntryOf(s.headers[c.h], b) == EntryOf(Cur(s), b);
    assert s.entries[EntryOf(Cur(s), b)].key == Base(b);
    assert s.entries[EntryOf(Cur(s), b)].value == LiveValue(s.live, b);
  }

  lemma EntryLook(s: State, t: nat, i: nat, j: nat, h: nat, idx: nat)
    requires Own(s) && Shared(s) && t < |s.cons| && s.cons[t] == CEntry(i, j, h, idx)
    ensures i < j && s.entries[s.headers[h].index[idx]].value.Ptr?
    ensures var s' := DoEntry(s, t, i, j, h, idx);
            Shape(s') && LookStep(s, s', t) && ConsumerInv(s', s'.cons[t])
  {
    hide LifeInv;
    hide OutInv;
    hide SlotInv;
    hide PlaceInv;
    hide Own;
    EntryFound(s, t);
    assert ConsumerInv(s, s.cons[t]);
    var s' := DoEntry(s, t, i, j, h, idx);
    assert SameHoldings(s.cons[t], s'.cons[t]);
  }

  // -------------------------------------------------------------------
  // Claiming indices
  // -------------------------------------------------------------------

  lemma ClaimShared(s: State, t: nat, n: nat)
    requires Shared(s) && t < |s.cons| && s.cons[t] == CIdle && n > 0
    ensures Shared(DoClaim(s, t, n))
  {
    hide ConsumerInv;
    hide LifeInv;
    hide OutInv;
    hide PlaceInv;
    hide SlotInv;
    var s' := DoClaim(s, t, n);
    assert ConsumerInv(s', s'.cons[t]) by { ClaimInv(s, t, n); }
    OthersKeep(s, s', t);
    forall b: nat ensures LifeInv(s', b) {
      OverlapSplit(0, s.head, s.head + n, b);
      LifeMoved(s, s', t, b);
    }
    forall x: nat ensures OutInv(s', x) { ClaimOut(s, t, n, x); }
    forall x: nat ensures SlotInv(s', x) { SlotMoved(s, s', x); }
    forall k: nat ensures PlaceInv(s', k) { PlaceMoved(s, s', t, k); }
  }

  lemma ClaimInv(s: State, t: nat, n: nat)
    requires Shape(s) && t < |s.cons| && n > 0
    ensures Shape(DoClaim(s, t, n)) && ConsumerInv(DoClaim(s, t, n), CHeader(s.head, s.head + n))
  {
  }

  lemma ClaimOut(s: State, t: nat, n: nat, x: nat)
    requires t < |s.cons| && s.cons[t] == CIdle && OutInv(s, x)
    ensures OutInv(DoClaim(s, t, n), x)
  {
    OutMoved(s, DoClaim(s, t, n), t, x);
  }

  lemma ClaimOwn(s: State, t: nat, n: nat)
    requires Own(s) && t < |s.cons| && s.cons[t] == CIdle && n <= |s.published| - s.head
    ensures Own(DoClaim(s, t, n))
  {
    hide RingOk;
  }

  // -------------------------------------------------------------------
  // Moving an element out
  // -------------------------------------------------------------------

  /** The element found in the slot is the one enqueued at this index. */
  lemma ElementFound(s: State, t: nat)
    requires Own(s) && Shared(s) && t < |s.cons| && s.cons[t].CMove?
    ensures var c := s.cons[t];
            && c.i < c.j && c.i < |s.published| && c.i !in s.out
            && c.i / BLOCK_SIZE in s.live && c.k == s.live[c.i / BLOCK_SIZE] && c.k in s.blocks
            && s.blocks[c.k].slots[c.i % BLOCK_SIZE] == Full(s.published[c.i])
  {
    hide Sum;
    hide LifeInv;
    hide PlaceInv;
    hide RingInv;
    hide NewsInv;
    hide SameEntries;
    var c := s.cons[t];
    assert ConsumerInv(s, c);
    SeekLive(s, t);
    assert Has(c.i)(c) == 1;
    HeldIsLive(s, t, c.i);
    assert SlotInv(s, c.i);
    assert s.published <= Written(s);
  }

  lemma MoveSlot(s: State, t: nat, x: nat, i: nat, j: nat, h: nat, idx: nat, e: nat, k: nat, from: nat)
    requires Shape(s) && t < |s.cons| && k in s.blocks && s.blocks[k].slots[i % BLOCK_SIZE].Full?
    requires LiveInjective(s.live) && i / BLOCK_SIZE in s.live && k == s.live[i / BLOCK_SIZE] && SlotInv(s, x)
    ensures SlotInv(DoMove(s, t, i, j, h, idx, e, k, from), x)
  {
    hide HeaderShape;
    hide ConsumerShape;
    var s' := DoMove(s, t, i, j, h, idx, e, k, from);
    if x != i {
      if x / BLOCK_SIZE in s.live && s.live[x / BLOCK_SIZE] == k {
        assert x / BLOCK_SIZE == i / BLOCK_SIZE;
      }
      SlotMoved(s, s', x);
    }
  }

  lemma MoveInv(s: State, t: nat, i: nat, j: nat, h: nat, idx: nat, e: nat, k: nat, from: nat)
    requires Shape(s) && t < |s.cons| && s.cons[t] == CMove(i, j, h, idx, e, k, from) && ConsumerInv(s, s.cons[t])
    requires k in s.blocks && s.blocks[k].slots[i % BLOCK_SIZE].Full?
    ensures var s' := DoMove(s, t, i, j, h, idx, e, k, from);
            Shape(s') && ConsumerInv(s', s'.cons[t])
  {
    hide Pos;
    hide EntryOf;
    hide HeaderShape;
    BlockEnd(i, j, from);
  }

  /** An element of the block of `from` is followed by another, or it was the last of the block or of the claim. */
  lemma BlockEnd(i: nat, j: nat, from: nat)
    requires from <= i < j && i / BLOCK_SIZE == from / BLOCK_SIZE
    ensures var end := Integers.Min(j, (from / BLOCK_SIZE + 1) * BLOCK_SIZE);
            && (i + 1 < end ==> (i + 1) / BLOCK_SIZE == from / BLOCK_SIZE)
            && (i + 1 >= end ==> i + 1 <= j && (i + 1 < j ==> (i + 1) % BLOCK_SIZE == 0))
  {
  }

  lemma MoveOut(s: State, t: nat, x: nat, i: nat, j: nat, h: nat, idx: nat, e: nat, k: nat, from: nat)
    requires Shape(s) && t < |s.cons| && s.cons[t] == CMove(i, j, h, idx, e, k, from) && OutInv(s, x)
    requires k in s.blocks && i < |s.published| && i !in s.out && i < j
    requires s.blocks[k].slots[i % BLOCK_SIZE] == Full(s.published[i])
    ensures OutInv(DoMove(s, t, i, j, h, idx, e, k, from), x)
  {
    hide Sum;
    hide HeaderShape;
    hide ConsumerShape;
    OutMoved(s, DoMove(s, t, i, j, h, idx, e, k, from), t, x);
  }

  lemma MoveLife(s: State, t: nat, b: nat, i: nat, j: nat, h: nat, idx: nat, e: nat, k: nat, from: nat)
    requires Shape(s) && t < |s.cons| && s.cons[t] == CMove(i, j, h, idx, e, k, from) && LifeInv(s, b)
    requires k in s.blocks && s.blocks[k].slots[i % BLOCK_SIZE].Full?
    ensures LifeInv(DoMove(s, t, i, j, h, idx, e, k, from), b)
  {
    hide Sum;
    hide HeaderShape;
    hide ConsumerShape;
    hide Overlap;
    hide LifeInv;
    LifeMoved(s, DoMove(s, t, i, j, h, idx, e, k, from), t, b);
  }

  lemma MoveShared(s: State, t: nat, i: nat, j: nat, h: nat, idx: nat, e: nat, k: nat, from: nat)
    requires Own(s) && Shared(s) && t < |s.cons| && s.cons[t] == CMove(i, j, h, idx, e, k, from)
    ensures i < j && k in s.blocks && s.blocks[k].slots[i % BLOCK_SIZE].Full?
    ensures Shared(DoMove(s, t, i, j, h, idx, e, k, from))
  {
    hide ConsumerInv;
    hide LifeInv;
    hide OutInv;
    hide SlotInv;
    hide PlaceInv;
    hide RingInv;
    hide PhaseInv;
    hide NewsInv;
    hide HeaderShape;
    hide ConsumerShape;
    ElementFound(s, t);
    assert ConsumerInv(s, s.cons[t]);
    var s' := DoMove(s, t, i, j, h, idx, e, k, from);
    MoveInv(s, t, i, j, h, idx, e, k, from);
    OthersKeep(s, s', t);
    forall b: nat ensures LifeInv(s', b) { MoveLife(s, t, b, i, j, h, idx, e, k, from); }
    forall x: nat ensures OutInv(s', x) { MoveOut(s, t, x, i, j, h, idx, e, k, from); }
    forall x: nat ensures SlotInv(s', x) { MoveSlot(s, t, x, i, j, h, idx, e, k, from); }
    forall n: nat ensures PlaceInv(s', n) { PlaceMoved(s, s', t, n); }
  }

  lemma MoveOwn(s: State, t: nat, i: nat, j: nat, h: nat, idx: nat, e: nat, k: nat, from: nat)
    requires Own(s) && t < |s.cons| && k in s.blocks && s.blocks[k].slots[i % BLOCK_SIZE].Full?
    requires Shape(DoMove(s, t, i, j, h, idx, e, k, from))
    ensures Own(DoMove(s, t, i, j, h, idx, e, k, from))
  {
    hide RingOk;
    hide Shape;
  }

  // -------------------------------------------------------------------
  // Counting the elements moved out
  // -------------------------------------------------------------------

  /** A block is never counted past its size. */
  lemma CountFits(s: State, t: nat)
    requires Shared(s) && t < |s.cons| && s.cons[t].CCount?
    ensures var c := s.cons[t]; var b := c.from / BLOCK_SIZE;
            && c.from < c.i && b in s.live && c.k == s.live[b] && c.k in s.blocks
            && s.blocks[c.k].dequeued + (c.i - c.from) <= BLOCK_SIZE
  {
    hide Sum;
    hide OutInv;
    hide SlotInv;
    hide PlaceInv;
    hide SameEntries;
    var c := s.cons[t];
    var b := c.from / BLOCK_SIZE;
    assert ConsumerInv(s, c);
    assert LifeInv(s, b);
    SumUpdate(s.cons, t, c, Held(b));
    OverlapSplit(c.from, c.i, c.j, b);
    OverlapWithin(c.from, c.i, b, b);
  }

  /** After a block, a consumer goes on with the next one, or it is done. */
  lemma OnwardInv(s: State, i: nat, j: nat, h: nat, idx: nat, b: nat)
    requires Shape(s) && h < |s.headers| && idx == Pos(s.headers[h], b) && i <= j <= s.head
    requires i < j ==> i / BLOCK_SIZE == b + 1 && SameEntries(s, h, b + 1, (j - 1) / BLOCK_SIZE)
    ensures ConsumerShape(Onward(s, i, j, h, idx), s.headers, |s.entries|)
    ensures ConsumerInv(s, Onward(s, i, j, h, idx))
  {
    hide SameEntries;
    hide Pos;
    assert HeaderShape(s.headers[h], |s.entries|);
    PosNext(s.headers[h], b);
  }

  lemma CountInv(s: State, t: nat, i: nat, j: nat, h: nat, idx: nat, e: nat, k: nat, from: nat)
    requires Shape(s) && t < |s.cons| && s.cons[t] == CCount(i, j, h, idx, e, k, from) && ConsumerInv(s, s.cons[t])
    requires k in s.blocks
    ensures var s' := DoCount(s, t, i, j, h, idx, e, k, from);
            Shape(s') && ConsumerInv(s', s'.cons[t])
  {
    hide Pos;
    hide EntryOf;
    hide Onward;
    OnwardInv(s, i, j, h, idx, from / BLOCK_SIZE);
    hide HeaderShape;
    OnwardKind(s, i, j, h, idx);
  }

  lemma OnwardKind(s: State, i: nat, j: nat, h: nat, idx: nat)
    requires Shape(s) && h < |s.headers|
    ensures Onward(s, i, j, h, idx).CIdle? || Onward(s, i, j, h, idx).CEntry?
  {
    hide HeaderShape;
  }

  lemma CountLife(s: State, t: nat, b: nat, i: nat, j: nat, h: nat, idx: nat, e: nat, k: nat, from: nat)
    requires Shape(s) && t < |s.cons| && s.cons[t] == CCount(i, j, h, idx, e, k, from) && LifeInv(s, b)
    requires var b0 := from / BLOCK_SIZE; from < i <= j && (i - 1) / BLOCK_SIZE == b0 && b0 in s.live && k == s.live[b0]
    requires LiveInjective(s.live) && k in s.blocks && s.blocks[k].dequeued + (i - from) <= BLOCK_SIZE
    ensures LifeInv(DoCount(s, t, i, j, h, idx, e, k, from), b)
  {
    hide Sum;
    hide HeaderShape;
    hide Overlap;
    hide LifeInv;
    OverlapSplit(from, i, j, b);
    OverlapWithin(from, i, from / BLOCK_SIZE, b);
    assert Overlap(i, i, b) == 0 by { OverlapSplit(i, i, i, b); }
    LifeMoved(s, DoCount(s, t, i, j, h, idx, e, k, from), t, b);
  }

  lemma CountShared(s: State, t: nat, i: nat, j: nat, h: nat, idx: nat, e: nat, k: nat, from: nat)
    requires Own(s) && Shared(s) && t < |s.cons| && s.cons[t] == CCount(i, j, h, idx, e, k, from)
    ensures 0 < i && k in s.blocks && s.blocks[k].dequeued + (i - from) <= BLOCK_SIZE
    ensures Shared(DoCount(s, t, i, j, h, idx, e, k, from))
  {
    hide LifeInv;
    hide OutInv;
    hide SlotInv;
    hide PlaceInv;
    hide RingInv;
    hide PhaseInv;
    hide NewsInv;
    hide HeaderShape;
    hide SameEntries;
    CountFits(s, t);
    assert ConsumerInv(s, s.cons[t]);
    var s' := DoCount(s, t, i, j, h, idx, e, k, from);
    CountInv(s, t, i, j, h, idx, e, k, from);
    assert HandInv(s') by { HandOther(s, k); }
    OthersKeep(s, s', t);
    forall b: nat ensures LifeInv(s', b) { CountLife(s, t, b, i, j, h, idx, e, k, from); }
    forall x: nat ensures OutInv(s', x) { CountOut(s, t, x, i, j, h, idx, e, k, from); }
    forall x: nat ensures SlotInv(s', x) { SlotMoved(s, s', x); }
    forall n: nat ensures PlaceInv(s', n) { PlaceMoved(s, s', t, n); }
  }

  /** A live block is not in the producer's hands. */
  lemma HandOther(s: State, k: nat)
    requires PlaceInv(s, k) && IsLive(s.live, k)
    ensures !InHand(s.prod, k)
  {
  }

  lemma CountOut(s: State, t: nat, x: nat, i: nat, j: nat, h: nat, idx: nat, e: nat, k: nat, from: nat)
    requires Shape(s) && t < |s.cons| && s.cons[t] == CCount(i, j, h, idx, e, k, from) && OutInv(s, x)
    requires k in s.blocks && i <= j
    ensures OutInv(DoCount(s, t, i, j, h, idx, e, k, from), x)
  {
    hide Sum;
    OutMoved(s, DoCount(s, t, i, j, h, idx, e, k, from), t, x);
  }

  lemma CountOwn(s: State, t: nat, i: nat, j: nat, h: nat, idx: nat, e: nat, k: nat, from: nat)
    requires Own(s) && t < |s.cons| && h < |s.headers| && k in s.blocks && from <= i
    requires Shape(DoCount(s, t, i, j, h, idx, e, k, from))
    ensures Own(DoCount(s, t, i, j, h, idx, e, k, from))
  {
    hide RingOk;
    hide HeaderShape;
    hide ConsumerShape;
  }

  // -------------------------------------------------------------------
  // Releasing a block
  // -------------------------------------------------------------------

  /**
   The consumer that counted a block to its size finds it completely claimed and held by nobody, and is
   the only one to release it.
  */
  lemma NullFacts(s: State, t: nat)
    requires Shared(s) && t < |s.cons| && s.cons[t].CNull?
    ensures var c := s.cons[t]; var b := (c.i - 1) / BLOCK_SIZE;
            && 0 < c.i && b in s.live && c.k == s.live[b] && c.k in s.blocks
            && b * BLOCK_SIZE + BLOCK_SIZE <= s.head
            && Sum(s.cons, Held(b)) == 0 && Sum(s.cons, Nulling(b)) == 1
  {
    hide Sum;
    hide OutInv;
    hide SlotInv;
    hide PlaceInv;
    hide SameEntries;
    var c := s.cons[t];
    var b := (c.i - 1) / BLOCK_SIZE;
    assert ConsumerInv(s, c);
    assert LifeInv(s, b);
    SumUpdate(s.cons, t, c, Nulling(b));
  }

  /** Then every element of the block has been moved out. */
  lemma AllOut(s: State, b: nat, x: nat)
    requires Shape(s) && Sum(s.cons, Held(b)) == 0 && b * BLOCK_SIZE + BLOCK_SIZE <= s.head
    requires x / BLOCK_SIZE == b && OutInv(s, x)
    ensures x in s.out
  {
    hide Sum;
    forall u | 0 <= u < |s.cons| ensures Has(x)(s.cons[u]) <= Held(b)(s.cons[u]) {
      assert ConsumerShape(s.cons[u], s.headers, |s.entries|);
    }
    SumLe(s.cons, Has(x), Held(b));
  }

  /** Nobody else works on the block. */
  lemma NullAlone(s: State, t: nat, u: nat)
    requires Shared(s) && t < |s.cons| && u < |s.cons| && u != t && s.cons[t].CNull?
    requires s.cons[u].CMove? || s.cons[u].CCount? || s.cons[u].CNull?
    ensures FirstBlock(s.cons[u]) != (s.cons[t].i - 1) / BLOCK_SIZE
  {
    hide LifeInv;
    hide OutInv;
    hide SlotInv;
    hide PlaceInv;
    hide SameEntries;
    hide Sum;
    NullFacts(s, t);
    var b := (s.cons[t].i - 1) / BLOCK_SIZE;
    assert ConsumerInv(s, s.cons[t]) && ConsumerInv(s, s.cons[u]);
    SumUpdate(s.cons, u, s.cons[u], Held(b));
    SumPair(s.cons, if t < u then t else u, if t < u then u else t, Nulling(b));
  }

  lemma NullInv(s: State, t: nat, i: nat, j: nat, h: nat, idx: nat, e: nat, k: nat)
    requires Shape(s) && t < |s.cons| && s.cons[t] == CNull(i, j, h, idx, e, k) && ConsumerInv(s, s.cons[t])
    requires k in s.blocks
    ensures var s' := DoNull(s, t, i, j, h, idx, e, k);
            Shape(s') && ConsumerInv(s', s'.cons[t])
  {
    var s' := DoNull(s, t, i, j, h, idx, e, k);
    assert forall g: nat, b: nat :: g < |s.headers| ==> EntryOf(s'.headers[g], b) == EntryOf(s.headers[g], b);
  }

  lemma NullLife(s: State, t: nat, c: nat, i: nat, j: nat, h: nat, idx: nat, e: nat, k: nat)
    requires t < |s.cons| && s.cons[t] == CNull(i, j, h, idx, e, k) && 0 < i && e < |s.entries| && LifeInv(s, c)
    ensures LifeInv(DoNull(s, t, i, j, h, idx, e, k), c)
  {
    hide Sum;
    hide LifeInv;
    hide Overlap;
    if c != (i - 1) / BLOCK_SIZE {
      LifeMoved(s, DoNull(s, t, i, j, h, idx, e, k), t, c);
    } else {
      GoneLife(DoNull(s, t, i, j, h, idx, e, k), c);
    }
  }

  lemma GoneLife(s: State, b: nat)
    requires b !in s.live
    ensures LifeInv(s, b)
  {
  }

  lemma NullShared(s: State, t: nat, i: nat, j: nat, h: nat, idx: nat, e: nat, k: nat)
    requires Own(s) && Shared(s) && t < |s.cons| && s.cons[t] == CNull(i, j, h, idx, e, k)
    ensures 0 < i && Shared(DoNull(s, t, i, j, h, idx, e, k))
  {
    hide ConsumerInv;
    hide LifeInv;
    hide OutInv;
    hide SlotInv;
    hide PlaceInv;
    hide RingInv;
    hide PhaseInv;
    hide NewsInv;
    hide HeaderShape;
    NullFacts(s, t);
    assert ConsumerInv(s, s.cons[t]);
    var b := (i - 1) / BLOCK_SIZE;
    var s' := DoNull(s, t, i, j, h, idx, e, k);
    NullInv(s, t, i, j, h, idx, e, k);
    forall u | 0 <= u < |s.cons| && u != t ensures Undisturbed(s, s', s.cons[u]) {
      if s.cons[u].CMove? || s.cons[u].CCount? || s.cons[u].CNull? {
        NullAlone(s, t, u);
      }
    }
    OthersKeep(s, s', t);
    forall c: nat ensures LifeInv(s', c) { NullLife(s, t, c, i, j, h, idx, e, k); }
    forall x: nat ensures OutInv(s', x) {
      if x / BLOCK_SIZE == b {
        AllOut(s, b, x);
      }
      NullOut(s, t, x, i, j, h, idx, e, k);
    }
    forall x: nat ensures SlotInv(s', x) { SlotMoved(s, s', x); }
    forall n: nat ensures PlaceInv(s', n) { NullPlace(s, t, n, i, j, h, idx, e, k); }
  }

  lemma NullOut(s: State, t: nat, x: nat, i: nat, j: nat, h: nat, idx: nat, e: nat, k: nat)
    requires t < |s.cons| && s.cons[t] == CNull(i, j, h, idx, e, k) && 0 < i && e < |s.entries| && OutInv(s, x)
    requires x / BLOCK_SIZE == (i - 1) / BLOCK_SIZE ==> x in s.out
    ensures OutInv(DoNull(s, t, i, j, h, idx, e, k), x)
  {
    hide Sum;
    OutMoved(s, DoNull(s, t, i, j, h, idx, e, k), t, x);
  }

  lemma NullPlace(s: State, t: nat, n: nat, i: nat, j: nat, h: nat, idx: nat, e: nat, k: nat)
    requires t < |s.cons| && s.cons[t] == CNull(i, j, h, idx, e, k) && 0 < i && e < |s.entries| && PlaceInv(s, n)
    requires LiveInjective(s.live) && (i - 1) / BLOCK_SIZE in s.live && k == s.live[(i - 1) / BLOCK_SIZE]
    ensures PlaceInv(DoNull(s, t, i, j, h, idx, e, k), n)
  {
    hide Sum;
    hide PlaceInv;
    var b := (i - 1) / BLOCK_SIZE;
    assert IsLive(s.live, n) <== n == k;
    if c: nat :| c in s.live && s.live[c] == n && n != k {
      assert c in s.live - {b} && (s.live - {b})[c] == n;
    }
    PlaceMoved(s, DoNull(s, t, i, j, h, idx, e, k), t, n);
  }

  lemma NullRing(s: State, t: nat, i: nat, j: nat, h: nat, idx: nat, e: nat, k: nat)
    requires Own(s) && t < |s.cons| && s.cons[t] == CNull(i, j, h, idx, e, k) && ConsumerInv(s, s.cons[t])
    ensures 0 < i && RingInv(DoNull(s, t, i, j, h, idx, e, k))
  {
    hide RingOk;
    hide SameEntries;
    RingRelease(Cur(s), s.entries, s.live, s.lo, s.hi, Inserted(s), Pending(s.prod), (i - 1) / BLOCK_SIZE);
  }

  lemma NullOwn(s: State, t: nat, i: nat, j: nat, h: nat, idx: nat, e: nat, k: nat)
    requires Own(s) && t < |s.cons| && s.cons[t] == CNull(i, j, h, idx, e, k)
    requires 0 < i && (i - 1) / BLOCK_SIZE * BLOCK_SIZE + BLOCK_SIZE <= s.head && e < |s.entries|
    ensures var s' := DoNull(s, t, i, j, h, idx, e, k);
            PhaseInv(s') && NewsInv(s'.published, s'.live, s'.prod) && LiveInjective(s'.live)
  {
    hide RingInv;
    hide Shape;
  }

  // -------------------------------------------------------------------
  // Returning a block to the pool
  // -------------------------------------------------------------------

  lemma FreeFacts(s: State, t: nat)
    requires Shared(s) && t < |s.cons| && s.cons[t].CFree?
    ensures var k := s.cons[t].k;
            && k in s.blocks && !IsLive(s.live, k) && !InHand(s.prod, k) && Sum(s.cons, Freeing(k)) == 1
  {
    hide Sum;
    hide LifeInv;
    hide OutInv;
    hide SlotInv;
    hide SameEntries;
    hide IsLive;
    hide InHand;
    var k := s.cons[t].k;
    assert ConsumerInv(s, s.cons[t]);
    assert PlaceInv(s, k);
    SumUpdate(s.cons, t, s.cons[t], Freeing(k));
  }

  lemma FreeInv(s: State, t: nat, i: nat, j: nat, h: nat, idx: nat, k: nat)
    requires Shape(s) && t < |s.cons| && s.cons[t] == CFree(i, j, h, idx, k) && ConsumerInv(s, s.cons[t])
    ensures var s' := DoFree(s, t, i, j, h, idx, k);
            Shape(s') && ConsumerInv(s', s'.cons[t])
  {
    PosNext(s.headers[h], (i - 1) / BLOCK_SIZE);
  }

  lemma FreeShared(s: State, t: nat, i: nat, j: nat, h: nat, idx: nat, k: nat)
    requires Shared(s) && t < |s.cons| && s.cons[t] == CFree(i, j, h, idx, k)
    ensures Shared(DoFree(s, t, i, j, h, idx, k))
  {
    hide ConsumerInv;
    hide LifeInv;
    hide OutInv;
    hide SlotInv;
    hide PlaceInv;
    hide HeaderShape;
    FreeFacts(s, t);
    assert ConsumerInv(s, s.cons[t]);
    var s' := DoFree(s, t, i, j, h, idx, k);
    FreeInv(s, t, i, j, h, idx, k);
    forall u | 0 <= u < |s.cons| && u != t ensures Undisturbed(s, s', s.cons[u]) {
      SumPair(s.cons, if t < u then t else u, if t < u then u else t, Freeing(k));
    }
    OthersKeep(s, s', t);
    forall b: nat ensures LifeInv(s', b) { FreeLife(s, t, b, i, j, h, idx, k); }
    forall x: nat ensures OutInv(s', x) { FreeOut(s, t, x, i, j, h, idx, k); }
    forall x: nat ensures SlotInv(s', x) { SlotMoved(s, s', x); }
    forall n: nat ensures PlaceInv(s', n) { FreePlace(s, t, n, i, j, h, idx, k); }
  }

  lemma FreeLife(s: State, t: nat, b: nat, i: nat, j: nat, h: nat, idx: nat, k: nat)
    requires Shape(s) && t < |s.cons| && s.cons[t] == CFree(i, j, h, idx, k) && LifeInv(s, b) && !IsLive(s.live, k)
    ensures LifeInv(DoFree(s, t, i, j, h, idx, k), b)
  {
    hide Sum;
    hide LifeInv;
    hide HeaderShape;
    assert Overlap(j, j, b) == 0 by { OverlapSplit(j, j, j, b); }
    assert b in s.live ==> s.live[b] != k;
    LifeMoved(s, DoFree(s, t, i, j, h, idx, k), t, b);
  }

  lemma FreeOut(s: State, t: nat, x: nat, i: nat, j: nat, h: nat, idx: nat, k: nat)
    requires Shape(s) && t < |s.cons| && s.cons[t] == CFree(i, j, h, idx, k) && OutInv(s, x)
    ensures OutInv(DoFree(s, t, i, j, h, idx, k), x)
  {
    hide Sum;
    OutMoved(s, DoFree(s, t, i, j, h, idx, k), t, x);
  }

  lemma FreePlace(s: State, t: nat, n: nat, i: nat, j: nat, h: nat, idx: nat, k: nat)
    requires Shape(s) && t < |s.cons| && s.cons[t] == CFree(i, j, h, idx, k) && PlaceInv(s, n) && k in s.blocks
    ensures PlaceInv(DoFree(s, t, i, j, h, idx, k), n)
  {
    hide Sum;
    hide PlaceInv;
    hide IsLive;
    PlaceMoved(s, DoFree(s, t, i, j, h, idx, k), t, n);
  }

  lemma FreeOwn(s: State, t: nat, i: nat, j: nat, h: nat, idx: nat, k: nat)
    requires Own(s) && t < |s.cons| && s.cons[t] == CFree(i, j, h, idx, k)
    requires Shape(DoFree(s, t, i, j, h, idx, k))
    ensures Own(DoFree(s, t, i, j, h, idx, k))
  {
    hide RingOk;
    hide HeaderShape;
  }

  // -------------------------------------------------------------------
  // Any step of a consumer
  // -------------------------------------------------------------------

  lemma LookDone(s: State, s': State, t: nat)
    requires Own(s) && Shared(s) && Shape(s') && LookStep(s, s', t) && ConsumerInv(s', s'.cons[t])
    ensures Own(s') && Shared(s')
  {
    hide *;
    LookShared(s, s', t);
    LookOwn(s, s', t);
  }

  lemma SeekerStep(s: State, t: nat, n: nat)
    requires Own(s) && Shared(s) && t < |s.cons| && ConsumerEnabled(s, t, n)
    requires s.cons[t].CHeader? || s.cons[t].CTail? || s.cons[t].CKey? || s.cons[t].CEntry?
    ensures Own(NextConsumer(s, t, n)) && Shared(NextConsumer(s, t, n))
  {
    hide Shape;
    hide Own;
    hide Shared;
    hide ConsumerInv;
    hide LookStep;
    SharedConsumer(s, t);
    match s.cons[t]
    case CHeader(i, j) => HeaderLook(s, t, i, j); LookDone(s, NextConsumer(s, t, n), t);
    case CTail(i, j, h) => TailLook(s, t, i, j, h); LookDone(s, NextConsumer(s, t, n), t);
    case CKey(i, j, h, tl, tb) => KeyLook(s, t, i, j, h, tl, tb); LookDone(s, NextConsumer(s, t, n), t);
    case CEntry(i, j, h, idx) => EntryLook(s, t, i, j, h, idx); LookDone(s, NextConsumer(s, t, n), t);
  }

  lemma NullStep(s: State, t: nat, i: nat, j: nat, h: nat, idx: nat, e: nat, k: nat)
    requires Own(s) && Shared(s) && t < |s.cons| && s.cons[t] == CNull(i, j, h, idx, e, k)
    ensures 0 < i && e < |s.entries|
    ensures Own(DoNull(s, t, i, j, h, idx, e, k)) && Shared(DoNull(s, t, i, j, h, idx, e, k))
  {
    hide ConsumerInv;
    hide LifeInv;
    hide OutInv;
    hide SlotInv;
    hide PlaceInv;
    hide RingInv;
    hide PhaseInv;
    hide NewsInv;
    hide LiveInjective;
    hide DoNull;
    SharedConsumer(s, t);
    NullFacts(s, t);
    NullShared(s, t, i, j, h, idx, e, k);
    NullRing(s, t, i, j, h, idx, e, k);
    NullOwn(s, t, i, j, h, idx, e, k);
  }

  lemma ConsumerStep(s: State, t: nat, n: nat)
    requires Own(s) && Shared(s) && t < |s.cons| && ConsumerEnabled(s, t, n)
    ensures Own(NextConsumer(s, t, n)) && Shared(NextConsumer(s, t, n))
  {
    hide Own;
    hide Shared;
    hide ConsumerInv;
    hide HeaderShape;
    hide DoClaim;
    hide DoMove;
    hide DoCount;
    hide DoNull;
    hide DoFree;
    SharedConsumer(s, t);
    match s.cons[t]
    case CIdle => ClaimShared(s, t, n); ClaimOwn(s, t, n);
    case CMove(i, j, h, idx, e, k, from) =>
      MoveShared(s, t, i, j, h, idx, e, k, from);
      MoveOwn(s, t, i, j, h, idx, e, k, from) by { SharedShape(DoMove(s, t, i, j, h, idx, e, k, from)); }
    case CCount(i, j, h, idx, e, k, from) =>
      CountShared(s, t, i, j, h, idx, e, k, from);
      CountOwn(s, t, i, j, h, idx, e, k, from) by { SharedShape(DoCount(s, t, i, j, h, idx, e, k, from)); }
    case CNull(i, j, h, idx, e, k) => NullStep(s, t, i, j, h, idx, e, k);
    case CFree(i, j, h, idx, k) =>
      FreeShared(s, t, i, j, h, idx, k);
      FreeOwn(s, t, i, j, h, idx, k) by { SharedShape(DoFree(s, t, i, j, h, idx, k)); }
    case _ => SeekerStep(s, t, n);
  }

  lemma SharedShape(s: State)
    requires Shared(s)
    ensures Shape(s)
  {
  }
}
