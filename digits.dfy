/** Decimal digit split by repeated subtraction (IntToDigs2, IntToDigs4). */
module Digits {
  import opened Bytes

  /**
   * IntToDigs2: counts tens, then ones. The counters are `uint8_t`, so the
   * tens count wraps past 255; a negative n leaves both at 0.
   */
  method IntToDigs2(n: int16) returns (tens: byte, ones: byte)
    ensures n < 0 ==> tens == 0 && ones == 0
    ensures 0 <= n ==> tens == Wrap(n / 10) && ones == n % 10
    ensures 0 <= n <= 99 ==> tens <= 9 && ones <= 9 && 10 * tens + ones == n
  {
    var k: int := n;
    tens := 0;
    ghost var counted := 0;
    while k >= 10
      invariant n >= 0 ==> 0 <= k && k + 10 * counted == n
      invariant n < 0 ==> k == n && counted == 0
      invariant tens == Wrap(counted)
      decreases k
    {
      k := k - 10;
      tens := Wrap(tens + 1);
      counted := counted + 1;
    }
    assert n >= 0 ==> counted == n / 10 && k == n % 10;

    ones := 0;
    while k >= 1
      invariant n >= 0 ==> 0 <= k && k + ones == n % 10
      invariant n < 0 ==> k == n && ones == 0
      decreases k
    {
      k := k - 1;
      ones := ones + 1;
    }
  }

  /** IntToDigs4: thousands and hundreds by subtraction, then IntToDigs2 on the rest. */
  method IntToDigs4(n: int16) returns (a: byte, b: byte, c: byte, d: byte)
    ensures n < 0 ==> a == 0 && b == 0 && c == 0 && d == 0
    ensures 0 <= n ==> a == n / 1000 && b == n % 1000 / 100 && c == n % 100 / 10 && d == n % 10
    ensures 0 <= n <= 9999 ==> a <= 9 && b <= 9 && c <= 9 && d <= 9 && 1000 * a + 100 * b + 10 * c + d == n
  {
    var k: int := n;
    a := 0;
    while k >= 1000
      invariant n >= 0 ==> 0 <= k && k + 1000 * a == n
      invariant n < 0 ==> k == n && a == 0
      decreases k
    {
      k := k - 1000;
      a := a + 1;
    }

    b := 0;
    ghost var k1 := k;
    while k >= 100
      invariant n >= 0 ==> 0 <= k && k + 100 * b == k1
      invariant n < 0 ==> k == n && b == 0
      decreases k
    {
      k := k - 100;
      b := b + 1;
    }
    if n >= 0 {
      SplitHundreds(n, a, k1, b, k);
    }

    c, d := IntToDigs2(k);
  }

  /** The arithmetic behind IntToDigs4: n split as 1000 * a + 100 * b + k. */
  lemma SplitHundreds(n: int, a: int, k1: int, b: int, k: int)
    requires 0 <= a && 0 <= b && 0 <= k1 < 1000 && 0 <= k < 100
    requires n == 1000 * a + k1 && k1 == 100 * b + k
    ensures a == n / 1000 && b == n % 1000 / 100 && k == n % 100 && k % 10 == n % 10
  {
    assert n / 1000 == a && n % 1000 == k1;
    assert k1 / 100 == b;
    assert n % 100 == k by {
      assert n == 100 * (10 * a + b) + k;
    }
    assert n % 10 == k % 10 by {
      assert n == 10 * (100 * a + 10 * b + k / 10) + k % 10;
    }
  }
}
