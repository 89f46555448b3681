/** Every step of the producer keeps what the invariant says of consumers, indices, elements and places. */
module BlockShared {
  import opened Sums
  import opened BlockQueue
  import opened BlockRing
  import opened BlockInv
  import opened BlockProducer

  // -------------------------------------------------------------------
  // Consumers
  // -------------------------------------------------------------------

  /** No header but the tail of the current one has changed. */
  ghost predicate SameHeaders(s: State, s': State) {
    && |s'.headers| == |s.headers|
    && forall h :: 0 <= h < |s.headers| ==>
         && s'.headers[h].(tail := 0) == s.headers[h].(tail := 0)
         && (h < |s.headers| - 1 ==> s'.headers[h] == s.headers[h])
  }

  /** The blocks a consumer still has to visit, the one it is on included, are b0 .. b1. */
  ghost function FirstBlock(c: Consumer): nat {
    if c.CIdle? then 0
    else if c.CMove? || c.CCount? then c.from / BLOCK_SIZE
    else if c.CNull? && c.i > 0 then (c.i - 1) / BLOCK_SIZE
    else c.i / BLOCK_SIZE
  }

  ghost function LastBlock(c: Consumer): nat {
    if c.CIdle? || c.j == 0 then 0 else (c.j - 1) / BLOCK_SIZE
  }

  /** What a consumer relies on is still there. */
  ghost predicate Undisturbed(s: State, s': State, c: Consumer) {
    && s.head <= s'.head && s.hi <= s'.hi
    && (forall b: nat :: b in s.live && b * BLOCK_SIZE < s.head && b == FirstBlock(c) && (c.CMove? || c.CCount? || c.CNull?) ==>
          b in s'.live && s'.live[b] == s.live[b])
    && (c.CFree? && c.k in s.blocks ==> c.k in s'.blocks)
  }

  /** The headers already there keep their rings. */
  ghost predicate RingsKept(s: State, s': State) {
    && Shape(s) && Shape(s') && |s.headers| <= |s'.headers|
    && forall h, b: nat :: 0 <= h < |s.headers| ==>
          EntryOf(s'.headers[h], b) == EntryOf(s.headers[h], b) && Pos(s'.headers[h], b) == Pos(s.headers[h], b)
  }

  lemma RingsSame(s: State, s': State)
    requires Shape(s) && Shape(s') && SameHeaders(s, s')
    ensures RingsKept(s, s')
  {
    forall h, b: nat | 0 <= h < |s.headers|
      ensures EntryOf(s'.headers[h], b) == EntryOf(s.headers[h], b) && Pos(s'.headers[h], b) == Pos(s.headers[h], b)
    {
      assert s'.headers[h].(tail := 0) == s.headers[h].(tail := 0);
    }
  }

  lemma SameEntriesFrame(s: State, s': State, h: nat, b0: nat, b1: nat)
    requires RingsKept(s, s') && |s'.headers| == |s.headers| && h < |s.headers| && SameEntries(s, h, b0, b1)
    ensures SameEntries(s', h, b0, b1)
  {
    hide Pos;
    hide EntryOf;
    forall b: nat | b0 <= b <= b1 ensures EntryOf(s'.headers[h], b) == EntryOf(Cur(s'), b) {
      assert EntryOf(s.headers[h], b) == EntryOf(Cur(s), b);
    }
  }

  /** A consumer still reading the header. */
  lemma TailFrame(s: State, s': State, c: Consumer)
    requires Shape(s) && Shape(s') && SameHeaders(s, s') && s.head <= s'.head && s.hi <= s'.hi && c.CTail?
    requires ConsumerShape(c, s.headers, |s.entries|) && ConsumerShape(c, s'.headers, |s'.entries|)
    requires ConsumerInv(s, c)
    ensures ConsumerInv(s', c)
  {
    hide Pos;
    hide EntryOf;
    hide Shape;
    hide HeaderShape;
    hide SameEntries;
    RingsSame(s, s');
    SameEntriesFrame(s, s', c.h, c.i / BLOCK_SIZE, (c.j - 1) / BLOCK_SIZE);
  }

  lemma ConsumerFrame(s: State, s': State, c: Consumer)
    requires Shape(s) && Shape(s') && SameHeaders(s, s') && Undisturbed(s, s', c)
    requires ConsumerShape(c, s.headers, |s.entries|) && ConsumerShape(c, s'.headers, |s'.entries|)
    requires ConsumerInv(s, c)
    ensures ConsumerInv(s', c)
  {
    hide Pos;
    hide EntryOf;
    hide Shape;
    hide HeaderShape;
    hide SameEntries;
    if c.CTail? {
      TailFrame(s, s', c);
    } else if !c.CIdle? && !c.CHeader? {
      RingsSame(s, s');
      assert |s'.headers| == |s.headers|;
      hide SameHeaders;
      if c.CFree? ==> c.i < c.j {
        SameEntriesFrame(s, s', c.h, FirstBlock(c), LastBlock(c));
      }
    }
  }

  /** What doubling the index means for those who read it. */
  ghost predicate GrowFacts(s: State, s': State) {
    && Shape(s) && Shape(s')
    && |s'.headers| == |s.headers| + 1 && s'.hi == s.hi && s'.lo == s.lo && s'.head == s.head && s'.live == s.live
    && s'.blocks == s.blocks && s'.cons == s.cons
    && (forall b: nat :: s.lo <= b < s.hi ==> EntryOf(Cur(s'), b) == EntryOf(Cur(s), b))
    && (forall h, b: nat :: 0 <= h < |s.headers| ==>
          EntryOf(s'.headers[h], b) == EntryOf(s.headers[h], b) && Pos(s'.headers[h], b) == Pos(s.headers[h], b))
    && (forall h :: 0 <= h < |s.headers| - 1 ==> s'.headers[h] == s.headers[h])
    && (var h := |s.headers| - 1;
        && s'.headers[h].top == s.hi && s'.headers[h].tail == Cur(s).tail
        && (s.hi > 0 ==> s'.headers[h].tail == Pos(s'.headers[h], s.hi - 1)))
  }

  lemma GrowRings(s: State, op: Op, junk: seq<Value>)
    requires Shape(s) && |junk| == Cur(s).capacity && Shape(DoGrow(s, op, junk))
    ensures RingsKept(s, DoGrow(s, op, junk))
  {
    hide Shape;
    hide Grown;
  }

  /** The current header's entries are in the new one, and its tail stays at the last block inserted. */
  lemma GrowCurrent(s: State, op: Op, junk: seq<Value>)
    requires Own(s) && s.prod == PGrow(op) && |junk| == Cur(s).capacity
    ensures Upcoming(op) == s.hi
    ensures HeaderShape(Cur(s), |s.entries|) && HeaderShape(Grown(Cur(s), |s.entries|, s.hi), |s.entries| + |junk|)
    ensures forall b: nat :: s.lo <= b < s.hi ==> EntryOf(Grown(Cur(s), |s.entries|, s.hi), b) == EntryOf(Cur(s), b)
    ensures s.hi > 0 ==> Cur(s).tail == Pos(Cur(s), s.hi - 1)
  {
    hide NewsInv;
    hide Working;
    RingGrow(Cur(s), s.entries, s.live, s.lo, s.hi, seq(|junk|, i requires 0 <= i < |junk| => Entry(Invalid, junk[i])));
    if s.hi > 0 {
      TailPos(Cur(s), s.hi - 1);
    }
  }

  lemma GrowShaped(s: State, op: Op, junk: seq<Value>)
    requires Own(s) && s.prod == PGrow(op) && |junk| == Cur(s).capacity
    ensures Shape(DoGrow(s, op, junk))
  {
    hide RingInv;
    hide NewsInv;
    GrowShape(s, op, junk);
  }

  lemma GrowEntries(s: State, op: Op, junk: seq<Value>)
    requires Own(s) && s.prod == PGrow(op) && |junk| == Cur(s).capacity
    ensures GrowFacts(s, DoGrow(s, op, junk))
  {
    hide RingInv;
    hide PhaseInv;
    hide NewsInv;
    hide HeaderShape;
    hide Grown;
    GrowShaped(s, op, junk);
    GrowCurrent(s, op, junk);
    GrowRings(s, op, junk);
  }

  lemma SameEntriesGrow(s: State, s': State, h: nat, b0: nat, b1: nat)
    requires GrowFacts(s, s') && h < |s.headers| && SameEntries(s, h, b0, b1)
    requires b0 <= b1 ==> s.lo <= b0 && b1 < s.hi
    ensures SameEntries(s', h, b0, b1)
  {
    hide Pos;
    hide EntryOf;
    forall b: nat | b0 <= b <= b1 ensures EntryOf(s'.headers[h], b) == EntryOf(Cur(s'), b) {
      assert EntryOf(s.headers[h], b) == EntryOf(Cur(s), b);
    }
  }

  /** A consumer still looking for its block, while the index doubles. */
  lemma SeekerGrow(s: State, s': State, c: Consumer)
    requires GrowFacts(s, s') && (c.CTail? || c.CKey?)
    requires ConsumerShape(c, s.headers, |s.entries|) && ConsumerShape(c, s'.headers, |s'.entries|)
    requires ConsumerInv(s, c)
    requires FirstBlock(c) <= LastBlock(c) ==> s.lo <= FirstBlock(c) && LastBlock(c) < s.hi
    ensures ConsumerInv(s', c)
  {
    hide Pos;
    hide EntryOf;
    hide Shape;
    hide HeaderShape;
    SameEntriesGrow(s, s', c.h, FirstBlock(c), LastBlock(c));
  }

  /** A consumer on a block, or between two, while the index doubles. */
  lemma WorkerGrow(s: State, s': State, c: Consumer)
    requires GrowFacts(s, s') && !c.CTail? && !c.CKey?
    requires ConsumerShape(c, s.headers, |s.entries|) && ConsumerShape(c, s'.headers, |s'.entries|)
    requires ConsumerInv(s, c)
    requires !c.CIdle? && FirstBlock(c) <= LastBlock(c) && (c.CFree? ==> c.i < c.j) ==>
               s.lo <= FirstBlock(c) && LastBlock(c) < s.hi
    ensures ConsumerInv(s', c)
  {
    hide Pos;
    hide EntryOf;
    hide Shape;
    hide HeaderShape;
    hide SameEntries;
    if !c.CIdle? && !c.CHeader? && (c.CFree? ==> c.i < c.j) {
      SameEntriesGrow(s, s', c.h, FirstBlock(c), LastBlock(c));
    }
  }

  // -------------------------------------------------------------------
  // Indices, elements and places, where nothing they depend on changes
  // -------------------------------------------------------------------

  lemma LifeFrame(s: State, s': State, b: nat)
    requires LifeInv(s, b) && s'.cons == s.cons && s'.head == s.head
    requires b in s'.live ==> b in s.live && s'.live[b] == s.live[b]
    requires b in s'.live && s.live[b] in s.blocks ==>
               s.live[b] in s'.blocks && s'.blocks[s.live[b]].dequeued == s.blocks[s.live[b]].dequeued
    ensures LifeInv(s', b)
  {
  }

  lemma OutFrame(s: State, s': State, x: nat)
    requires OutInv(s, x) && s'.cons == s.cons && s'.head == s.head && s'.out == s.out && s'.published == s.published
    requires x < |s.published| && x / BLOCK_SIZE in s.live ==> x / BLOCK_SIZE in s'.live
    ensures OutInv(s', x)
  {
  }

  lemma SlotFrame(s: State, s': State, x: nat)
    requires SlotInv(s, x) && Written(s') == Written(s) && s'.out == s.out
    requires x / BLOCK_SIZE in s'.live ==> x / BLOCK_SIZE in s.live && s'.live[x / BLOCK_SIZE] == s.live[x / BLOCK_SIZE]
    requires x / BLOCK_SIZE in s'.live && s'.live[x / BLOCK_SIZE] in s'.blocks ==>
               var k := s.live[x / BLOCK_SIZE]; k in s.blocks && s'.blocks[k].slots == s.blocks[k].slots
    ensures SlotInv(s', x)
  {
  }

  lemma PlaceFrame(s: State, s': State, k: nat)
    requires PlaceInv(s, k) && s'.cons == s.cons
    requires IsLive(s'.live, k) == IsLive(s.live, k) && InHand(s'.prod, k) == InHand(s.prod, k)
    requires k in s'.blocks <==> k in s.blocks
    ensures PlaceInv(s', k)
  {
  }

  /** The rest of the invariant. */
  ghost predicate Shared(s: State) {
    && Shape(s)
    && HandInv(s)
    && (forall t :: 0 <= t < |s.cons| ==> ConsumerInv(s, s.cons[t]))
    && (forall b: nat :: LifeInv(s, b))
    && (forall x: nat :: OutInv(s, x))
    && (forall x: nat :: SlotInv(s, x))
    && (forall k: nat :: PlaceInv(s, k))
  }

  lemma ConsumersFrame(s: State, s': State)
    requires Shared(s) && Shape(s') && SameHeaders(s, s') && s'.cons == s.cons
    requires forall t :: 0 <= t < |s.cons| ==> Undisturbed(s, s', s.cons[t])
    ensures forall t :: 0 <= t < |s'.cons| ==> ConsumerInv(s', s'.cons[t])
  {
    hide LifeInv;
    hide OutInv;
    hide SlotInv;
    hide PlaceInv;
    hide ConsumerInv;
    hide SameHeaders;
    hide Undisturbed;
    forall t | 0 <= t < |s'.cons| ensures ConsumerInv(s', s'.cons[t]) {
      ConsumerFrame(s, s', s.cons[t]);
    }
  }

  /** Nothing that indices, elements and places depend on changes. */
  ghost predicate QuietFields(s: State, s': State) {
    && s'.blocks == s.blocks && s'.published == s.published && s'.head == s.head && s'.cons == s.cons
    && s'.out == s.out && s'.live == s.live && s.hi <= s'.hi
    && Written(s') == Written(s)
    && !s'.prod.PStoreValue?
    && forall k: nat :: InHand(s'.prod, k) == InHand(s.prod, k)
  }

  /** A step of the producer that touches only its own locals and the index, without doubling it. */
  ghost predicate QuietStep(s: State, s': State) {
    SameHeaders(s, s') && QuietFields(s, s')
  }

  lemma QuietCounts(s: State, s': State)
    requires Shared(s) && QuietFields(s, s')
    ensures HandInv(s')
    ensures forall b: nat :: LifeInv(s', b)
    ensures forall x: nat :: OutInv(s', x)
    ensures forall x: nat :: SlotInv(s', x)
    ensures forall k: nat :: PlaceInv(s', k)
  {
    hide ConsumerInv;
    hide Written;
    hide InHand;
    forall b: nat ensures LifeInv(s', b) { LifeFrame(s, s', b); }
    forall x: nat ensures OutInv(s', x) { OutFrame(s, s', x); }
    forall x: nat ensures SlotInv(s', x) { SlotFrame(s, s', x); }
    forall k: nat ensures PlaceInv(s', k) { PlaceFrame(s, s', k); }
  }

  lemma QuietShared(s: State, s': State)
    requires Shared(s) && Shape(s') && QuietStep(s, s')
    ensures Shared(s')
  {
    hide ConsumerInv;
    hide Written;
    hide InHand;
    ConsumersFrame(s, s');
    QuietCounts(s, s');
  }

  // -------------------------------------------------------------------
  // What a claim means
  // -------------------------------------------------------------------

  /** An index a consumer holds has not been moved out, and its block is live. */
  lemma HeldIsLive(s: State, t: nat, x: nat)
    requires t < |s.cons| && Has(x)(s.cons[t]) == 1 && x < s.head <= |s.published| && OutInv(s, x)
    ensures x !in s.out && x / BLOCK_SIZE in s.live
  {
    hide Sum;
    SumUpdate(s.cons, t, s.cons[t], Has(x));
  }

  lemma BlocksAreLive(s: State, t: nat)
    requires Shared(s) && t < |s.cons| && s.head <= |s.published|
    requires var c := s.cons[t]; !c.CIdle? && FirstBlock(c) <= LastBlock(c) && (c.CFree? ==> c.i < c.j)
    ensures FirstBlock(s.cons[t]) in s.live && LastBlock(s.cons[t]) in s.live
  {
    hide HeaderShape;
    hide LifeInv;
    hide SlotInv;
    hide PlaceInv;
    hide SameEntries;
    var c := s.cons[t];
    assert ConsumerInv(s, c);
    if c.i < c.j {
      assert Has(c.j - 1)(c) == 1;
      HeldIsLive(s, t, c.j - 1);
      assert Has(c.i)(c) == 1;
      HeldIsLive(s, t, c.i);
    }
  }

  lemma SharedConsumer(s: State, t: nat)
    requires Shared(s) && t < |s.cons|
    ensures Shape(s) && ConsumerShape(s.cons[t], s.headers, |s.entries|) && ConsumerInv(s, s.cons[t])
  {
    hide ConsumerInv;
  }
}
