/** Positions of blocks in the circular block index. */
module BlockRing {
  import Integers
  import opened BlockQueue

  /** The ring position of block b in header h. */
  ghost function Pos(h: Header, b: nat): (p: nat)
    requires 0 < h.capacity
    ensures p < h.capacity
  {
    (b + h.off) % h.capacity
  }

  /** The entry for block b in header h. */
  ghost function EntryOf(h: Header, b: nat): nat
    requires 0 < h.capacity == |h.index|
  {
    h.index[Pos(h, b)]
  }

  lemma PosApart(h: Header, b: nat, c: nat)
    requires 0 < h.capacity && b < c < b + h.capacity
    ensures Pos(h, b) != Pos(h, c)
  {
    Integers.Apart(b + h.off, c + h.off, h.capacity);
  }

  lemma PosPeriod(h: Header, b: nat)
    requires 0 < h.capacity
    ensures Pos(h, b + h.capacity) == Pos(h, b)
  {
    Integers.Period(b + h.off, h.capacity);
  }

  lemma PosNext(h: Header, b: nat)
    requires 0 < h.capacity
    ensures (Pos(h, b) + 1) % h.capacity == Pos(h, b + 1)
  {
    Integers.Shift(b + h.off, 1, h.capacity);
  }

  /** If the position after the tail is that of block b + 1, the tail is at block b. */
  lemma TailPos(h: Header, b: nat)
    requires 0 < h.capacity && h.tail < h.capacity && After(h) == Pos(h, b + 1)
    ensures h.tail == Pos(h, b)
  {
    var n := h.capacity;
    Integers.Shift(h.tail + 1, -1, n);
    Integers.Shift(b + 1 + h.off, -1, n);
    Integers.Small(h.tail, n);
  }

  lemma AfterBefore(h: Header)
    requires 0 < h.capacity && h.tail < h.capacity
    ensures After(h.(tail := Before(h))) == h.tail
  {
    Integers.Shift(h.tail - 1, 1, h.capacity);
    Integers.Small(h.tail, h.capacity);
  }

  /** The lookup arithmetic, from the tail position and its key, arrives at the position of the block. */
  lemma LookupPos(h: Header, tb: nat, b: nat)
    requires 0 < h.capacity
    ensures LookupAt(h, Pos(h, tb), tb, b) == Pos(h, b)
  {
    Integers.Shift(tb + h.off, b - tb, h.capacity);
  }

  /** After doubling, the blocks of the old ring keep their entries. */
  lemma GrownEntry(h: Header, entries: nat, nb: nat, b: nat)
    requires HeaderShape(h, entries) && After(h) == Pos(h, nb) && b < nb <= b + h.capacity
    ensures EntryOf(Grown(h, entries, nb), b) == EntryOf(h, b)
  {
    var n := h.capacity;
    var g := Grown(h, entries, nb);
    var i := b + n - nb;
    GrownPos(h, entries, nb, b);
    assert g.index[i] == h.index[(h.tail + 1 + i) % n];
    Integers.Shift(h.tail + 1, i, n);
    Integers.Shift(nb + h.off, i, n);
    assert nb + h.off + i == b + h.off + n;
    Integers.Period(b + h.off, n);
  }

  lemma GrownPos(h: Header, entries: nat, nb: nat, b: nat)
    requires HeaderShape(h, entries) && nb <= b + h.capacity && b < nb + h.capacity
    ensures Pos(Grown(h, entries, nb), b) == b + h.capacity - nb
  {
    var n := h.capacity;
    Integers.Shift(n - nb, b, 2 * n);
    Integers.Small(b + n - nb, 2 * n);
  }

  /** The rest of the new ring: first the fresh entries, then what the old ring had free. */
  lemma GrownFresh(h: Header, entries: nat, nb: nat, b: nat)
    requires HeaderShape(h, entries) && nb <= b < nb + h.capacity
    ensures EntryOf(Grown(h, entries, nb), b) == entries + b - nb
  {
    GrownPos(h, entries, nb, b);
  }

  lemma GrownFree(h: Header, entries: nat, nb: nat, b: nat)
    requires HeaderShape(h, entries) && After(h) == Pos(h, nb) && nb + h.capacity <= b < nb + 2 * h.capacity
    ensures EntryOf(Grown(h, entries, nb), b) == EntryOf(h, b - h.capacity)
  {
    var n := h.capacity;
    var g := Grown(h, entries, nb);
    var i := b - n - nb;
    Integers.Shift(n - nb, b, 2 * n);
    assert n - nb + b == i + 2 * n;
    Integers.Period(i, 2 * n);
    Integers.Small(i, 2 * n);
    assert Pos(g, b) == i;
    Integers.Shift(h.tail + 1, i, n);
    Integers.Shift(nb + h.off, i, n);
  }

  ghost predicate Injective(index: seq<nat>) {
    forall i, j :: 0 <= i < j < |index| ==> index[i] != index[j]
  }

  lemma GrownInjective(h: Header, entries: nat, nb: nat)
    requires HeaderShape(h, entries) && Injective(h.index)
    ensures Injective(Grown(h, entries, nb).index)
    ensures HeaderShape(Grown(h, entries, nb), entries + h.capacity)
  {
    var n := h.capacity;
    var g := Grown(h, entries, nb);
    forall i, j | 0 <= i < j < |g.index| ensures g.index[i] != g.index[j] {
      if j < n {
        Integers.Apart(h.tail + 1 + i, h.tail + 1 + j, n);
      }
    }
  }

  /** After doubling, the tail is still at the last block inserted. */
  lemma GrownTail(h: Header, entries: nat, nb: nat)
    requires HeaderShape(h, entries)
    ensures After(Grown(h, entries, nb)) == Pos(Grown(h, entries, nb), nb)
  {
    GrownPos(h, entries, nb, nb);
    Integers.Small(h.capacity, 2 * h.capacity);
  }
}
