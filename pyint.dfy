/**
 * Python's integer operators used by the network and data code:
 * floor division `//`, bitwise `&` on unbounded two's-complement integers,
 * and the base-2 logarithm of a power of two.
 */
module PyInt {

  /** Python's `a // b`: the quotient rounded toward negative infinity. */
  function FloorDiv(a: int, b: int): (q: int)
    requires b != 0
    ensures b > 0 ==> b * q <= a < b * q + b
    ensures b < 0 ==> b * q >= a > b * q + b
  {
    if b > 0 || a % b == 0 then a / b
    else
      assert a == b * (a / b) + a % b;
      assert b * (a / b - 1) == b * (a / b) - b;
      a / b - 1
  }

  /** The measure on which BitAnd recurses: distance from 0 or -1. */
  function Magnitude(a: int): nat
  {
    if a < 0 then -a else a
  }

  /**
   * Python's `a & b`: integers are two's complement of unbounded width, so a
   * negative number has infinitely many leading 1 bits. The lowest bit of `a`
   * is `a % 2` and the remaining bits are `a >> 1`, which is `a // 2`.
   */
  function BitAnd(a: int, b: int): (r: int)
    ensures a >= 0 ==> 0 <= r <= a
    ensures b >= 0 ==> 0 <= r <= b
    ensures a < 0 && b < 0 ==> r < 0
    decreases Magnitude(a)
  {
    if a == 0 || b == 0 then 0
    else if a == -1 then b
    else if b == -1 then a
    else 2 * BitAnd(a / 2, b / 2) + (if a % 2 == 1 && b % 2 == 1 then 1 else 0)
  }

  /** n is 2^k for some k >= 0. */
  predicate IsPowerOfTwo(n: int)
    decreases Magnitude(n)
  {
    n == 1 || (n >= 2 && n % 2 == 0 && IsPowerOfTwo(n / 2))
  }

  function Pow2(k: nat): (p: nat)
    ensures p >= 1
  {
    if k == 0 then 1 else 2 * Pow2(k - 1)
  }

  /** The floor of the base-2 logarithm of n (0 for n <= 1). */
  function Log2(n: int): nat
    decreases Magnitude(n)
  {
    if n <= 1 then 0 else 1 + Log2(n / 2)
  }

  lemma {:induction false} BitAndSelf(n: nat)
    ensures BitAnd(n, n) == n
  {
    if n != 0 {
      BitAndSelf(n / 2);
    }
  }

  /**
   * The test `(n & (n - 1)) == 0` holds exactly for 0 and for the powers of
   * two; in particular it holds for no negative n.
   */
  lemma {:induction false} PowerOfTwoTest(n: int)
    ensures (BitAnd(n, n - 1) == 0) <==> (n == 0 || IsPowerOfTwo(n))
  {
    if n < 0 {
      assert BitAnd(n, n - 1) < 0;
    } else if n <= 1 {
    } else if n % 2 == 0 {
      var m := n / 2;
      assert (n - 1) / 2 == m - 1 && (n - 1) % 2 == 1 && n % 2 == 0;
      assert BitAnd(n, n - 1) == 2 * BitAnd(m, m - 1);
      PowerOfTwoTest(m);
    } else {
      var m := n / 2;
      assert (n - 1) / 2 == m && (n - 1) % 2 == 0;
      assert BitAnd(n, n - 1) == 2 * BitAnd(m, m);
      BitAndSelf(m);
    }
  }

  /** Log2 inverts Pow2, so int(log2(2^k)) == k when computed exactly. */
  lemma {:induction false} Log2OfPow2(k: nat)
    ensures Log2(Pow2(k)) == k
    ensures IsPowerOfTwo(Pow2(k))
  {
    if k > 0 {
      Log2OfPow2(k - 1);
      assert Pow2(k) / 2 == Pow2(k - 1);
    }
  }

  /** Every power of two is 2^Log2(n). */
  lemma {:induction false} Pow2OfLog2(n: int)
    requires IsPowerOfTwo(n)
    ensures Pow2(Log2(n)) == n
  {
    if n != 1 {
      Pow2OfLog2(n / 2);
    }
  }
}
