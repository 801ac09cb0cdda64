/**
 * The C++ integer semantics the library relies on: division and remainder that
 * truncate toward zero, the unsigned-to-signed cast of a 32-bit value, and the
 * 8-bit unsigned char with its bitwise OR, and the 16-bit port number type.
 */
module CppInt {
  const UINT32_LIMIT: int := 0x1_0000_0000
  const INT32_LIMIT: int := 0x8000_0000

  const UINT16_MAX: int := 65535

  newtype byte = x: int | 0 <= x < 256
  type uint16 = x: int | 0 <= x <= UINT16_MAX
  type uint32 = x: int | 0 <= x < UINT32_LIMIT

  function Abs(x: int): (r: nat)
    ensures r == x || r == -x
  {
    if x < 0 then -x else x
  }

  /** C++ `a / b` for a positive divisor: the quotient truncated toward zero. */
  function TruncDiv(a: int, b: int): (q: int)
    requires b > 0
    ensures Abs(q) == Abs(a) / b
    ensures a >= 0 ==> q >= 0
    ensures a <= 0 ==> q <= 0
  {
    var m: nat := Abs(a) / b;
    if a >= 0 then m else -(m as int)
  }

  /** C++ `a % b` for a positive divisor: the remainder takes the sign of the dividend. */
  function TruncRem(a: int, b: int): (r: int)
    requires b > 0
    ensures a >= 0 ==> 0 <= r < b
    ensures a <= 0 ==> -b < r <= 0
    ensures Abs(r) == Abs(a) % b
  {
    var m: nat := Abs(a) % b;
    if a >= 0 then m else -(m as int)
  }

  /** Truncating division and remainder recompose the dividend, as in C++. */
  lemma TruncDivRem(a: int, b: int)
    requires b > 0
    ensures a == b * TruncDiv(a, b) + TruncRem(a, b)
  {
    if a < 0 {
      var q, m := (-a) / b, (-a) % b;
      assert -a == b * q + m;
      assert b * -q == -(b * q);
    } else {
      assert a == b * (a / b) + a % b;
    }
  }

  /** `static_cast<int>(x)` of a `uint32_t` on a two's-complement machine. */
  function UInt32ToInt(x: uint32): (r: int)
    ensures -INT32_LIMIT <= r < INT32_LIMIT
    ensures (r + UINT32_LIMIT) % UINT32_LIMIT == x
  {
    if x < INT32_LIMIT then x else x - UINT32_LIMIT
  }

  /** Conversion of an `unsigned int` to `unsigned char`: the value modulo 256. */
  function ToByte(x: int): (r: byte)
    ensures x % 256 == r as int
  {
    (x % 256) as byte
  }

  /** A value that already fits in a byte is unchanged by the conversion. */
  lemma ToByteOfSmall(x: int)
    requires 0 <= x < 256
    ensures ToByte(x) as int == x
  {
  }

  /** Bit `i` of `x`, counting from the least significant bit. */
  predicate Bit(x: nat, i: nat)
  {
    if i == 0 then x % 2 == 1 else Bit(x / 2, i - 1)
  }

  function Pow2(k: nat): (r: nat)
    ensures r >= 1
  {
    if k == 0 then 1 else 2 * Pow2(k - 1)
  }

  /** Bitwise OR of two naturals, one binary digit at a time from the least significant. */
  function NatOr(a: nat, b: nat): nat
    decreases a + b
  {
    if a == 0 then b
    else if b == 0 then a
    else 2 * NatOr(a / 2, b / 2) + (if a % 2 == 1 || b % 2 == 1 then 1 else 0)
  }

  /** NatOr is the bitwise OR: each bit of the result is set iff it is set in either argument. */
  lemma {:induction false} NatOrBits(a: nat, b: nat, i: nat)
    ensures Bit(NatOr(a, b), i) <==> Bit(a, i) || Bit(b, i)
    decreases i
  {
    if a == 0 {
      ZeroHasNoBits(i);
    } else if b == 0 {
      ZeroHasNoBits(i);
    } else if i > 0 {
      NatOrBits(a / 2, b / 2, i - 1);
    }
  }

  lemma {:induction false} ZeroHasNoBits(i: nat)
    ensures !Bit(0, i)
  {
    if i > 0 {
      ZeroHasNoBits(i - 1);
    }
  }

  /** OR keeps a value below a power of two when both arguments are below it. */
  lemma {:induction false} NatOrBelow(a: nat, b: nat, k: nat)
    requires a < Pow2(k) && b < Pow2(k)
    ensures NatOr(a, b) < Pow2(k)
    decreases k
  {
    if a != 0 && b != 0 {
      NatOrBelow(a / 2, b / 2, k - 1);
    }
  }

  lemma {:induction false} NatOrSelf(a: nat)
    ensures NatOr(a, a) == a
    decreases a
  {
    if a != 0 {
      NatOrSelf(a / 2);
    }
  }

  lemma {:induction false} NatOrCommutes(a: nat, b: nat)
    ensures NatOr(a, b) == NatOr(b, a)
    decreases a + b
  {
    if a != 0 && b != 0 {
      NatOrCommutes(a / 2, b / 2);
    }
  }

  /** Bitwise OR of two unsigned chars. */
  function ByteOr(a: byte, b: byte): (r: byte)
    ensures r as nat == NatOr(a as nat, b as nat)
  {
    assert Pow2(8) == 256;
    NatOrBelow(a as nat, b as nat, 8);
    NatOr(a as nat, b as nat) as byte
  }
}
