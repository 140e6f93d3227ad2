// 64-bit two's complement arithmetic, as the Go Programming Language
// Specification defines it ("Integer operators", "Integer overflow").
module Int64 {

  const TWO63: int := 0x8000_0000_0000_0000
  const TWO64: int := 0x1_0000_0000_0000_0000

  type int64 = x: int | -TWO63 <= x < TWO63

  // The representative of x modulo 2^64 in the signed range.
  function Wrap(x: int): (r: int64)
    ensures (x - r) % TWO64 == 0
    ensures -TWO63 <= x < TWO63 ==> r == x
  {
    var m := x % TWO64;
    if m >= TWO63 then m - TWO64 else m
  }

  // Division truncates toward zero, so the remainder has the sign of a.
  function Quo(a: int, b: int): int
    requires b != 0
  {
    if a >= 0 then a / b else -((-a) / b)
  }

  function Rem(a: int, b: int): (r: int)
    requires b != 0
    ensures -Abs(b) < r < Abs(b)
  {
    if a >= 0 then a % b else -((-a) % b)
  }

  function Abs(x: int): int {
    if x < 0 then -x else x
  }

  lemma QuoRemLaw(a: int, b: int)
    requires b != 0
    ensures a == Quo(a, b) * b + Rem(a, b)
    ensures if a >= 0 then Rem(a, b) >= 0 else Rem(a, b) <= 0
  {
    DivMod(Abs(a), b, Abs(a) / b, Abs(a) % b);
  }

  // Stated on names for the quotient and the remainder, to keep the products
  // of variables apart from the division itself.
  lemma DivMod(m: int, b: int, q: int, r: int)
    requires b != 0 && q == m / b && r == m % b
    ensures m == q * b + r && -m == -q * b - r
  {
  }

  lemma {:induction false} MulBounds(q: nat, b: nat)
    requires b > 0
    ensures q * b >= q && (b >= 2 ==> q * b >= 2 * q)
    ensures q > 0 ==> q * b >= b
  {
    if q > 0 {
      MulBounds(q - 1, b);
      assert q * b == (q - 1) * b + b;
    }
  }

  lemma MulNegative(q: int, b: int)
    requires q < 0 && b > 0
    ensures q * b <= -b
  {
    MulBounds(-q, b);
    assert (-q) * b == -(q * b);
  }

  lemma DivBound(m: int, b: int, q: int)
    requires m >= 0 && b > 0 && q * b <= m < q * b + b
    ensures 0 <= q <= m
    ensures b >= 2 ==> 2 * q <= m
  {
    if q < 0 { MulNegative(q, b); } else { MulBounds(q, b); }
  }

  // The size of a quotient, for either sign of the divisor.
  lemma QuotientSize(m: int, b: int, q: int, r: int)
    requires m >= 0 && b != 0 && m == q * b + r && 0 <= r < Abs(b)
    ensures if b > 0 then 0 <= q <= m else -m <= q <= 0
    ensures b <= -2 ==> -m <= 2 * q
    ensures b == -1 ==> q == -m
  {
    if b > 0 {
      DivBound(m, b, q);
    } else {
      var p, d := -q, -b;
      assert p * d == q * b;
      DivBound(m, d, p);
    }
  }

  // Quotients stay in range, except that the smallest value divided by -1
  // wraps around to itself.
  lemma QuoWraps(a: int64, b: int64)
    requires b != 0
    ensures Wrap(Quo(a, b)) == if a == -TWO63 && b == -1 then a else Quo(a, b)
  {
    var m := Abs(a);
    var q, r := m / b, m % b;
    DivMod(m, b, q, r);
    QuotientSize(m, b, q, r);
    WrapSmall(a, q, b);
  }

  lemma WrapSmall(a: int, q: int, b: int)
    requires -TWO63 <= a < TWO63 && b != 0
    requires if b > 0 then 0 <= q <= Abs(a) else -Abs(a) <= q <= 0
    requires b <= -2 ==> -Abs(a) <= 2 * q
    requires b == -1 ==> q == -Abs(a)
    ensures
      var x := if a >= 0 then q else -q;
      Wrap(x) == if a == -TWO63 && b == -1 then a else x
  {
  }

  datatype BitOp = BAnd | BOr | BXor

  // One bit of the result, from one bit of each operand.
  function BitFn(op: BitOp, a: int, b: int): (r: int)
    requires 0 <= a <= 1 && 0 <= b <= 1
    ensures 0 <= r <= 1
  {
    match op
    case BAnd => a * b
    case BOr => if a == 1 || b == 1 then 1 else 0
    case BXor => if a == b then 0 else 1
  }

  function Pow2(n: nat): (r: int)
    ensures r >= 1
  {
    if n == 0 then 1 else 2 * Pow2(n - 1)
  }

  predicate Fits(x: int, n: nat) {
    -Pow2(n) <= x < Pow2(n)
  }

  // The n low bits of both operands are combined one by one; what is left
  // above them is the sign, 0 or -1.
  function Bitwise(op: BitOp, x: int, y: int, n: nat): (r: int)
    requires Fits(x, n) && Fits(y, n)
    ensures Fits(r, n)
    decreases n
  {
    if n == 0 then -BitFn(op, x % 2, y % 2)
    else 2 * Bitwise(op, x / 2, y / 2, n - 1) + BitFn(op, x % 2, y % 2)
  }

  lemma Fits63(x: int)
    ensures Fits(x, 63) <==> -TWO63 <= x < TWO63
  {
    assert Pow2(63) == TWO63 by {
      assert Pow2(8) == 256;
      assert Pow2(16) == 0x1_0000;
      assert Pow2(24) == 0x100_0000;
      assert Pow2(32) == 0x1_0000_0000;
      assert Pow2(40) == 0x100_0000_0000;
      assert Pow2(48) == 0x1_0000_0000_0000;
      assert Pow2(56) == 0x100_0000_0000_0000;
    }
  }

  function BitOp64(op: BitOp, x: int64, y: int64): (r: int64) {
    Fits63(x); Fits63(y);
    var r := Bitwise(op, x, y, 63);
    Fits63(r);
    r
  }

  function Compl(x: int64): int64 {
    -1 - x
  }

  // Bit k of the two's complement form of x.
  function Bit(x: int, k: nat): (r: int)
    ensures 0 <= r <= 1
    decreases k
  {
    if k == 0 then x % 2 else Bit(x / 2, k - 1)
  }

  // Every bit of the result is the operator applied to the bits of the operands.
  lemma {:induction false} BitwiseBit(op: BitOp, x: int, y: int, n: nat, k: nat)
    requires Fits(x, n) && Fits(y, n)
    ensures Bit(Bitwise(op, x, y, n), k) == BitFn(op, Bit(x, k), Bit(y, k))
    decreases n, k
  {
    var r := Bitwise(op, x, y, n);
    if n == 0 {
      assert x / 2 == x && y / 2 == y && r / 2 == r;
      if k > 0 { BitwiseBit(op, x, y, n, k - 1); }
    } else if k > 0 {
      assert r / 2 == Bitwise(op, x / 2, y / 2, n - 1);
      BitwiseBit(op, x / 2, y / 2, n - 1, k - 1);
    }
  }

  lemma BitOp64Bit(op: BitOp, x: int64, y: int64, k: nat)
    ensures Bit(BitOp64(op, x, y), k) == BitFn(op, Bit(x, k), Bit(y, k))
  {
    Fits63(x); Fits63(y);
    BitwiseBit(op, x, y, 63, k);
  }

  lemma {:induction false} ComplBit(x: int64, k: nat)
    ensures Bit(Compl(x), k) == 1 - Bit(x, k)
    decreases k
  {
    if k > 0 {
      assert Compl(x) / 2 == Compl(x / 2);
      ComplBit(x / 2, k - 1);
    }
  }

  // The neutral elements the constant folder relies on: 0 for | and -1 for &.
  lemma {:induction false} BitwiseNeutral(x: int, n: nat)
    requires Fits(x, n)
    ensures Bitwise(BOr, 0, x, n) == x && Bitwise(BOr, x, 0, n) == x
    ensures Bitwise(BAnd, -1, x, n) == x && Bitwise(BAnd, x, -1, n) == x
    decreases n
  {
    if n > 0 {
      BitwiseNeutral(x / 2, n - 1);
    }
  }

  lemma BitOp64Neutral(x: int64)
    ensures BitOp64(BOr, 0, x) == x && BitOp64(BOr, x, 0) == x
    ensures BitOp64(BAnd, -1, x) == x && BitOp64(BAnd, x, -1) == x
  {
    Fits63(x); Fits63(0); Fits63(-1);
    BitwiseNeutral(x, 63);
  }
}
