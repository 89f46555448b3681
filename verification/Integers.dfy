/** The lesser of two integers, and the few facts about remainders by a variable modulus that ring positions need. */
module Integers {

  function Min(a: int, b: int): int { if a < b then a else b }

  lemma Multiple(n: int, d: int)
    requires 0 < n
    ensures d > 0 ==> n * d >= n
    ensures d < 0 ==> n * d <= -n
  {
  }

  lemma Unique(a: int, n: int, q: int, r: int)
    requires 0 < n && a == n * q + r && 0 <= r < n
    ensures a % n == r
  {
    var d := q - a / n;
    assert n * d == a % n - r by {
      assert n * d == n * q - n * (a / n);
      assert a == n * (a / n) + a % n;
    }
    Multiple(n, d);
  }

  /** Adding before or after taking the remainder is the same. */
  lemma Shift(a: int, b: int, n: int)
    requires 0 < n
    ensures (a % n + b) % n == (a + b) % n
  {
    var q := (a % n + b) / n;
    var r := (a % n + b) % n;
    assert a + b == n * (a / n + q) + r by {
      assert a == n * (a / n) + a % n;
      assert a % n + b == n * q + r;
      assert n * (a / n + q) == n * (a / n) + n * q;
    }
    Unique(a + b, n, a / n + q, r);
  }

  /** Distinct numbers less than n apart have distinct remainders. */
  lemma Apart(a: int, b: int, n: int)
    requires 0 < n && a < b < a + n
    ensures a % n != b % n
  {
    var d := b / n - a / n;
    Multiple(n, d);
    assert a == n * (a / n) + a % n;
    assert b == n * (b / n) + b % n;
    assert n * d == n * (b / n) - n * (a / n);
  }

  /** A multiple of the modulus changes nothing. */
  lemma Period(a: int, n: int)
    requires 0 < n
    ensures (a + n) % n == a % n && (a - n) % n == a % n
  {
    assert a == n * (a / n) + a % n;
    assert a + n == n * (a / n + 1) + a % n by { assert n * (a / n + 1) == n * (a / n) + n; }
    Unique(a + n, n, a / n + 1, a % n);
    assert a - n == n * (a / n - 1) + a % n by { assert n * (a / n - 1) == n * (a / n) - n; }
    Unique(a - n, n, a / n - 1, a % n);
  }

  lemma Small(a: int, n: int)
    requires 0 <= a < n
    ensures a % n == a
  {
    assert a == n * 0 + a;
    Unique(a, n, 0, a);
  }
}
