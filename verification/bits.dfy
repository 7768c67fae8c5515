/** Bitwise or on unsigned integers, defined bit by bit from the least
    significant end, and the one fact the priority needs about it. */
module Bits {

  function Pow2(n: nat): nat
  {
    if n == 0 then 1 else 2 * Pow2(n - 1)
  }

  /** Bit `i` of `n`, counting from the least significant bit. */
  predicate Bit(n: nat, i: nat)
  {
    if i == 0 then n % 2 == 1 else Bit(n / 2, i - 1)
  }

  /** `a | b`: bit i of the result is set when bit i of either operand is
      (`OrBit`). The result is at least each operand and at most their sum. */
  function Or(a: nat, b: nat): (r: nat)
    ensures a <= r && b <= r
    ensures r <= a + b
    decreases a + b
  {
    if a == 0 then b
    else if b == 0 then a
    else 2 * Or(a / 2, b / 2) + (if a % 2 == 1 || b % 2 == 1 then 1 else 0)
  }

  lemma {:induction false} ZeroHasNoBits(i: nat)
    ensures !Bit(0, i)
    decreases i
  {
    if i > 0 {
      ZeroHasNoBits(i - 1);
    }
  }

  /** `Or` is bitwise: each bit of `a | b` is the or of the operands' bits. */
  lemma {:induction false} OrBit(a: nat, b: nat, i: nat)
    ensures Bit(Or(a, b), i) == (Bit(a, i) || Bit(b, i))
    decreases i
  {
    if a == 0 {
      ZeroHasNoBits(i);
    } else if b == 0 {
      ZeroHasNoBits(i);
    } else {
      var q := Or(a / 2, b / 2);
      var low := if a % 2 == 1 || b % 2 == 1 then 1 else 0;
      assert Or(a, b) == 2 * q + low;
      if i > 0 {
        assert (2 * q + low) / 2 == q;
        assert Bit(Or(a, b), i) == Bit(q, i - 1);
        OrBit(a / 2, b / 2, i - 1);
      }
    }
  }

  /** Or-ing a number with itself gives the number back, which addition
      does not: the operands' common bits are counted once. */
  lemma {:induction false} OrIdempotent(a: nat)
    ensures Or(a, a) == a
    decreases a
  {
    if a > 0 {
      OrIdempotent(a / 2);
    }
  }

  /** The truncating cast `n as u8`. */
  function AsU8(n: nat): (r: nat)
    ensures r < 256
    ensures n < 256 ==> r == n
  {
    n % 256
  }

  /** When the low `n` bits of `a` are clear and `b` fits in them, the two
      operands share no set bit and `a | b` is `a + b`. */
  lemma {:induction false} OrOfDisjointIsSum(k: nat, b: nat, n: nat)
    requires b < Pow2(n)
    ensures Or(k * Pow2(n), b) == k * Pow2(n) + b
    decreases n
  {
    var a := k * Pow2(n);
    if n == 0 {
      assert b == 0;
    } else if a == 0 || b == 0 {
    } else {
      var m := k * Pow2(n - 1);
      assert a == 2 * m by {
        assert Pow2(n) == 2 * Pow2(n - 1);
        assert k * (2 * Pow2(n - 1)) == 2 * (k * Pow2(n - 1));
      }
      assert a / 2 == m && a % 2 == 0;
      assert b / 2 < Pow2(n - 1);
      OrOfDisjointIsSum(k, b / 2, n - 1);
      assert Or(a, b) == 2 * (m + b / 2) + b % 2;
    }
  }
}
