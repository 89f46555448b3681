/**
 The 64-bit arithmetic of indices: wrapping differences, circular comparison, the signed
 block distance of a lookup, and positions in a ring whose capacity is a power of two. Each
 is related to the unbounded indices that the other modules count with.
*/
module Circular {
  import Integers

  const WORD: int := 0x1_0000_0000_0000_0000
  const HALF: int := 0x8000_0000_0000_0000

  /** The word that an unbounded index is stored as. */
  function Wrap(x: int): (w: nat)
    ensures w < WORD
  {
    x % WORD
  }

  /** circular_less_than */
  predicate LessThan(a: int, b: int) {
    Wrap(a - b) > HALF
  }

  /** A word difference read as a signed number. */
  function Signed(w: int): int {
    if w < HALF then w else w - WORD
  }

  /** Division that truncates toward zero, as the signed operator does. */
  function TruncDiv(a: int, b: int): int
    requires b > 0
  {
    if a >= 0 then a / b else -(-a / b)
  }

  lemma WrapDiff(x: int, y: int)
    ensures Wrap(Wrap(x) - Wrap(y)) == Wrap(x - y)
  {
    var q := y / WORD;
    assert y == WORD * q + Wrap(y);
    assert Wrap(x) - Wrap(y) == x - y + WORD * (q - x / WORD);
  }

  lemma WrapFits(x: nat)
    ensures Wrap(x) == x <==> x < WORD
  {
    if x < WORD {
      Integers.Small(x, WORD);
    }
  }

  lemma WrapSum(x: int, y: int)
    ensures Wrap(Wrap(x) + y) == Wrap(x + y)
  {
    Integers.Shift(x, y, WORD);
  }

  /**
   For indices less than a full range apart, the circular comparison of the stored words agrees with the
   order of the indices exactly when they are at most half the range apart (and, upward, less than half).
  */
  lemma AgreesExactly(x: int, y: int)
    requires -WORD < y - x < WORD
    ensures (LessThan(Wrap(x), Wrap(y)) <==> x < y) <==> -HALF <= y - x < HALF
  {
    WrapDiff(x, y);
  }

  /** At any distance, a word is circularly less than those up to half the range after it. */
  lemma LessThanSpan(x: int, y: int)
    ensures LessThan(Wrap(x), Wrap(y)) <==> 0 < Wrap(y - x) < HALF
  {
    WrapDiff(x, y);
  }

  /** The signed reading of a word difference is the distance, as long as that fits. */
  lemma SignedExactly(x: int, y: int)
    requires -WORD < x - y < WORD
    ensures Signed(Wrap(Wrap(x) - Wrap(y))) == x - y <==> -HALF <= x - y < HALF
  {
    WrapDiff(x, y);
  }

  /** Dividing a multiple of the block size truncates nothing, whichever its sign. */
  lemma BlockDistance(d: int, size: int)
    requires size > 0
    ensures TruncDiv(d * size, size) == d
  {
    if d >= 0 {
      Integers.Unique(d * size, size, d, 0);
      assert d * size == size * (d * size / size) + (d * size) % size;
      DivMul(d, size);
    } else {
      DivMul(-d, size);
      assert -(d * size) == -d * size;
    }
  }

  lemma DivMul(d: int, size: int)
    requires size > 0
    ensures d * size / size == d
  {
    var q := d * size / size;
    var r := d * size % size;
    assert d * size == size * q + r;
    assert size * (d - q) == r by { assert size * (d - q) == size * d - size * q; }
    Integers.Multiple(size, d - q);
  }

  /** In a ring whose capacity divides the range, wrapping an offset does not matter. */
  lemma RingWrap(tail: int, offset: int, n: int)
    requires 0 < n && WORD % n == 0
    ensures Wrap(tail + Wrap(offset)) % n == (tail + offset) % n
  {
    WrapSum(offset, tail);
    var q := (tail + offset) / WORD;
    assert tail + offset == WORD * q + Wrap(tail + offset);
    WordMultiple(q, n);
    ModDrop(Wrap(tail + offset), WORD * q, n);
  }

  lemma WordMultiple(q: int, n: int)
    requires 0 < n && WORD % n == 0
    ensures WORD * q % n == 0
  {
    var m := WORD / n;
    assert WORD == n * m;
    assert WORD * q == n * (m * q) by { assert n * m * q == n * (m * q); }
    Integers.Unique(WORD * q, n, m * q, 0);
  }

  lemma ModDrop(a: int, b: int, n: int)
    requires 0 < n && b % n == 0
    ensures (a + b) % n == a % n
  {
    Integers.Shift(b, a, n);
  }

  /** The base of the block an index lies in, and its place there, are those of its word. */
  lemma BaseWord(x: int, size: int)
    requires 0 < size && WORD % size == 0
    ensures Wrap(x) - Wrap(x) % size == Wrap(x / size * size)
    ensures Wrap(x) % size == x % size
  {
    var q := x / WORD;
    assert x == WORD * q + Wrap(x);
    WordMultiple(q, size);
    ModDrop(Wrap(x), WORD * q, size);
    assert x / size * size == x - x % size;
    Integers.Unique(x / size * size, WORD, q, Wrap(x) - Wrap(x) % size);
  }

  // -------------------------------------------------------------------
  // Powers of two
  // -------------------------------------------------------------------

  function Pow2(e: nat): (p: int)
    ensures p > 0
  {
    if e == 0 then 1 else 2 * Pow2(e - 1)
  }

  lemma {:induction false} Pow2Divides(e: nat, f: nat)
    requires e <= f
    ensures Pow2(f) % Pow2(e) == 0
  {
    if e == f {
      Integers.Unique(Pow2(f), Pow2(e), 1, 0);
    } else {
      Pow2Divides(e, f - 1);
      var q := Pow2(f - 1) / Pow2(e);
      assert Pow2(f - 1) == Pow2(e) * q;
      assert Pow2(f) == Pow2(e) * (2 * q);
      Integers.Unique(Pow2(f), Pow2(e), 2 * q, 0);
    }
  }

  lemma {:induction false} Pow2Monotone(e: nat, f: nat)
    requires e < f
    ensures 2 * Pow2(e) <= Pow2(f)
  {
    if e + 1 < f {
      Pow2Monotone(e, f - 1);
    }
  }

  lemma Pow2One()
    ensures Pow2(1) == 2
  {
  }

  lemma WordIsPow2()
    ensures Pow2(64) == WORD && Pow2(58) == 0x400_0000_0000_0000
  {
    hide Pow2;
    Pow2One();
    Pow2Sum(1, 1);
    Pow2Sum(2, 2);
    Pow2Sum(4, 4);
    Pow2Sum(8, 8);
    Pow2Sum(16, 16);
    Pow2Sum(32, 32);
    Pow2Sum(32, 16);
    Pow2Sum(48, 8);
    Pow2Sum(56, 2);
  }

  lemma {:induction false} Pow2Sum(e: nat, f: nat)
    ensures Pow2(e + f) == Pow2(e) * Pow2(f)
  {
    if f > 0 {
      Pow2Sum(e, f - 1);
      assert Pow2(e) * Pow2(f) == Pow2(e) * (2 * Pow2(f - 1));
    }
  }

  /** A capacity that is a power of two, far below the range, divides it. */
  lemma CapacityDivides(e: nat)
    requires e <= 64
    ensures WORD % Pow2(e) == 0
  {
    WordIsPow2();
    Pow2Divides(e, 64);
  }
}
