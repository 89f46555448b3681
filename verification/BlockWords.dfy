/** The word arithmetic of the implicit producer: limits, counts, ends of blocks, and the block difference of a bulk enqueue. */
module BlockWords {
  import opened BlockQueue
  import opened BlockInv
  import opened Circular
  import Integers

  /** The value of MAX_SUBQUEUE_SIZE that stands for no limit. */
  const NO_LIMIT: int := WORD - 1

  /** MAX_SUBQUEUE_SIZE rounded up to whole blocks, or no limit if that is out of range. */
  function RoundedLimit(max: nat): (r: int)
    requires max < WORD
    ensures r == NO_LIMIT <==> WORD - 1 - max < BLOCK_SIZE
    ensures max <= r < WORD && (r == NO_LIMIT || (r % BLOCK_SIZE == 0 && r < max + BLOCK_SIZE))
  {
    if WORD - 1 - max < BLOCK_SIZE then NO_LIMIT else (max + BLOCK_SIZE - 1) / BLOCK_SIZE * BLOCK_SIZE
  }

  /** Blocks up to number n may be used: less than half the range, and not more than the limit, from the head. */
  ghost predicate Room(head: int, n: int, max: int) {
    n * BLOCK_SIZE - head < HALF && (max != NO_LIMIT ==> n * BLOCK_SIZE - head <= max)
  }

  /** Where there is room for more blocks there is room for fewer. */
  lemma RoomLess(head: int, n: int, m: int, max: int)
    requires n <= m
    ensures Room(head, m, max) ==> Room(head, n, max)
  {
  }

  /** The test for room on the words says whether there is room for one more block. */
  lemma FullExactly(head: nat, n: nat, max: int)
    requires 0 <= n * BLOCK_SIZE - head < HALF && (max == NO_LIMIT || (0 <= max && max % BLOCK_SIZE == 0))
    ensures var cur := Wrap(n * BLOCK_SIZE); var h := Wrap(head);
            (!LessThan(h, cur + BLOCK_SIZE) || (max != NO_LIMIT && (max == 0 || max - BLOCK_SIZE < Wrap(cur - h))))
            <==> !Room(head, n + 1, max)
  {
    var d := n * BLOCK_SIZE - head;
    WrapDiff(n * BLOCK_SIZE, head);
    Integers.Small(d, WORD);
    LessThanSpan(head, (n + 1) * BLOCK_SIZE);
    WrapSum(n * BLOCK_SIZE, BLOCK_SIZE);
    WrapDiff(head, (n + 1) * BLOCK_SIZE);
    Integers.Small(d + BLOCK_SIZE, WORD);
    NegatedSum(Wrap(head), Wrap(n * BLOCK_SIZE), BLOCK_SIZE);
  }

  /** Comparing with an unwrapped sum is comparing with its word. */
  lemma NegatedSum(h: int, c: int, d: int)
    ensures LessThan(h, c + d) <==> LessThan(h, Wrap(c + d))
  {
    var q := (c + d) / WORD;
    assert c + d == WORD * q + Wrap(c + d);
    Integers.Shift(h - Wrap(c + d), -WORD * q, WORD);
  }

  lemma RoomFits(head: nat, n: nat, count: nat, max: int)
    requires head <= n && Room(head, (n + count - 1) / BLOCK_SIZE + 1, max)
    ensures count < HALF && Ceil(n + count) == (n + count - 1) / BLOCK_SIZE + 1
  {
  }

  lemma Pow2AtLeast(log: nat)
    requires log >= 58
    ensures Pow2(log) * BLOCK_SIZE >= HALF
  {
    WordIsPow2();
    if log > 58 {
      Pow2Monotone(58, log);
    }
  }

  /** With no other dequeue under way, a reservation is made, and backed, exactly when there is an element. */
  lemma ClaimExactly(head: nat, tail: nat, overcommit: int)
    requires head <= tail && tail - head < HALF
    ensures LessThan(Wrap(head + overcommit) - overcommit, Wrap(tail)) <==> head < tail
    ensures Wrap(Wrap(tail) - (Wrap(head + overcommit) - overcommit)) == tail - head
  {
    var q := (head + overcommit) / WORD;
    var p := tail / WORD;
    assert Wrap(head + overcommit) - overcommit == head - WORD * q;
    assert Wrap(tail) == tail - WORD * p;
    Integers.Unique(Wrap(tail) - (Wrap(head + overcommit) - overcommit), WORD, q - p, tail - head);
    if head < tail {
      Integers.Unique(Wrap(head + overcommit) - overcommit - Wrap(tail), WORD, p - q - 1, WORD - (tail - head));
    } else {
      Integers.Unique(Wrap(head + overcommit) - overcommit - Wrap(tail), WORD, p - q, 0);
    }
  }

  lemma CountPositive(n: nat)
    requires n < HALF
    ensures LessThan(0, n) <==> 0 < n
  {
    WrapDiff(0, n);
    LessThanSpan(0, n);
    Integers.Small(n, WORD);
    Integers.Small(0, WORD);
  }

  lemma SizeExactly(head: nat, tail: nat)
    requires head <= tail < head + HALF
    ensures (if LessThan(Wrap(head), Wrap(tail)) then Wrap(Wrap(tail) - Wrap(head)) else 0) == tail - head
  {
    LessThanSpan(head, tail);
    WrapDiff(tail, head);
  }

  /** Where the elements claimed up to j end in the block of i, as words. */
  lemma EndIndex(i: nat, j: nat)
    requires i < j < i + HALF
    ensures var end := Integers.Min(j, (i / BLOCK_SIZE + 1) * BLOCK_SIZE);
            var blockEnd := Wrap(Wrap(i) - Wrap(i) % BLOCK_SIZE + BLOCK_SIZE);
            && (if LessThan(Wrap(j), blockEnd) then Wrap(j) else blockEnd) == Wrap(end)
            && i < end <= j && Wrap(Wrap(end) - Wrap(i)) == end - i
  {
    var blockEnd := (i / BLOCK_SIZE + 1) * BLOCK_SIZE;
    BaseWord(i, BLOCK_SIZE);
    WrapSum(i / BLOCK_SIZE * BLOCK_SIZE, BLOCK_SIZE);
    AgreesExactly(j, blockEnd);
    var end := Integers.Min(j, blockEnd);
    WrapDiff(end, i);
    Integers.Small(end - i, WORD);
  }

  lemma WordsDiffer(x: nat, y: nat)
    requires x <= y < x + HALF
    ensures Wrap(x) == Wrap(y) <==> x == y
  {
    if x < y {
      Integers.Apart(x, y, WORD);
    }
  }

  /** The base index of the block an index lies in. */
  function Floor(index: nat): (base: nat)
    ensures base <= index
  {
    index - index % BLOCK_SIZE
  }

  /** enqueue_bulk's difference of block bases counts the new blocks it needs, if they fit in the index range. */
  lemma BaseDiffExactly(n: nat, count: nat)
    requires count > 0
    ensures var blocks := (n + count - 1) / BLOCK_SIZE + 1 - Ceil(n);
            && blocks >= 0
            && (Wrap(Floor(Wrap(Wrap(n) + count - 1)) - Floor(Wrap(Wrap(n) - 1))) == blocks * BLOCK_SIZE
                <==> blocks * BLOCK_SIZE < WORD)
    ensures Floor(Wrap(Wrap(n) - 1)) == Wrap((Ceil(n) - 1) * BLOCK_SIZE)
  {
    hide Wrap;
    var last := n + count - 1;
    WrapSum(n, count - 1);
    WrapSum(n, -1);
    BaseWord(last, BLOCK_SIZE);
    BaseWord(n - 1, BLOCK_SIZE);
    WrapDiff(last / BLOCK_SIZE * BLOCK_SIZE, (n - 1) / BLOCK_SIZE * BLOCK_SIZE);
    assert (n - 1) / BLOCK_SIZE == Ceil(n) - 1;
    var d := (last / BLOCK_SIZE - (n - 1) / BLOCK_SIZE) * BLOCK_SIZE;
    assert d == last / BLOCK_SIZE * BLOCK_SIZE - (n - 1) / BLOCK_SIZE * BLOCK_SIZE;
    WrapFits(d);
  }

  /** A count of WORD - 31 elements for an empty producer: the difference is zero, as if no block were needed. */
  lemma BaseDiffOverflows()
    ensures Wrap(Floor(Wrap(0 + (WORD - 31) - 1)) - Floor(Wrap(0 - 1))) == 0
  {
    Integers.Small(WORD - 32, WORD);
    Integers.Unique(-1, WORD, -1, WORD - 1);
  }

  /** The new blocks that a bulk enqueue of `count` elements after the first n needs fit in the index range. */
  predicate BlocksFit(n: nat, count: nat) {
    count > 0 ==> ((n + count - 1) / BLOCK_SIZE + 1 - Ceil(n)) * BLOCK_SIZE < WORD
  }

  /** The signed distance of two block bases, in blocks. */
  lemma LookupWords(b: nat, tb: nat)
    requires -HALF <= (b - tb) * BLOCK_SIZE < HALF
    ensures TruncDiv(Signed(Wrap(Wrap(b * BLOCK_SIZE) - Wrap(tb * BLOCK_SIZE))), BLOCK_SIZE) == b - tb
  {
    assert b * BLOCK_SIZE - tb * BLOCK_SIZE == (b - tb) * BLOCK_SIZE;
    SignedExactly(b * BLOCK_SIZE, tb * BLOCK_SIZE);
    BlockDistance(b - tb, BLOCK_SIZE);
  }
}
