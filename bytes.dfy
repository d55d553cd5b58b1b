/** Python's view of binary data: a `bytes` object is a sequence of integers
    in `range(0, 256)`, and `^` is bitwise exclusive-or on unbounded
    two's-complement integers. */
module Bytes {

  type byte = x: int | 0 <= x < 256

  function Pow2(n: nat): (p: nat)
    ensures p >= 1
  {
    if n == 0 then 1 else 2 * Pow2(n - 1)
  }

  /** Bitwise exclusive-or of two non-negative integers. */
  function Xor(a: nat, b: nat): (r: nat)
    decreases a + b
  {
    if a == 0 && b == 0 then 0
    else 2 * Xor(a / 2, b / 2) + (if a % 2 == b % 2 then 0 else 1)
  }

  /** Python's `a ^ c` for `a >= 0` and any integer `c`: for a negative `c`,
      `a ^ c == ~(a ^ ~c)` with `~x == -1 - x`. */
  function PyXor(a: nat, c: int): (r: int) {
    if c >= 0 then Xor(a, c) else -1 - Xor(a, -1 - c)
  }

  lemma {:induction false} XorZero(a: nat)
    ensures Xor(a, 0) == a && Xor(0, a) == a
    decreases a
  {
    if a != 0 {
      XorZero(a / 2);
    }
  }

  /** Exclusive-or with the same value twice gives the original back. */
  lemma {:induction false} XorInvolutive(a: nat, b: nat)
    ensures Xor(Xor(a, b), b) == a
    decreases a + b
  {
    var c := Xor(a, b);
    if a == 0 && b == 0 {
    } else {
      XorInvolutive(a / 2, b / 2);
      assert c / 2 == Xor(a / 2, b / 2);
      if c == 0 && b == 0 {
        XorZero(a);
      }
    }
  }

  /** Exclusive-or of two numbers below `2^n` stays below `2^n`. */
  lemma {:induction false} XorBelow(a: nat, b: nat, n: nat)
    requires a < Pow2(n) && b < Pow2(n)
    ensures Xor(a, b) < Pow2(n)
    decreases n
  {
    if n > 0 && !(a == 0 && b == 0) {
      XorBelow(a / 2, b / 2, n - 1);
    }
  }

  /** A number at or above `2^n` keeps its high bits under exclusive-or with a
      number below `2^n`. */
  lemma {:induction false} XorAtLeast(a: nat, b: nat, n: nat)
    requires a < Pow2(n) <= b
    ensures Xor(a, b) >= Pow2(n)
    decreases n
  {
    if n == 0 {
      XorZero(b);
    } else {
      XorAtLeast(a / 2, b / 2, n - 1);
    }
  }

  /** `a ^ c` for a byte `a` is itself a byte exactly when `c` is. */
  lemma PyXorIsByte(a: byte, c: int)
    ensures 0 <= PyXor(a, c) < 256 <==> 0 <= c < 256
  {
    assert Pow2(8) == 256;
    if 0 <= c < 256 {
      XorBelow(a, c, 8);
    } else if c >= 256 {
      XorAtLeast(a, c, 8);
    }
  }
}
