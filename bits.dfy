/** Bytes, words and the bit-level operations the emulator performs on them.
    A byte is the `unsigned char` view of a REG8, a word the `unsigned short` view of a REG16. */
module Bits {

  type byte = x: int | 0 <= x < 0x100
  type word = x: int | 0 <= x < 0x1_0000

  function Pow2(n: nat): (p: nat)
    ensures p >= 1
  {
    if n == 0 then 1 else 2 * Pow2(n - 1)
  }

  /** Bit k of x; bit 0 is the least significant. */
  predicate Bit(x: nat, k: nat)
    decreases k
  {
    if k == 0 then x % 2 == 1 else Bit(x / 2, k - 1)
  }

  lemma {:induction false} ZeroHasNoBits(k: nat)
    ensures !Bit(0, k)
    decreases k
  {
    if k > 0 {
      ZeroHasNoBits(k - 1);
    }
  }

  /** A value below 2^n has no bit at position n or above. */
  lemma {:induction false} NoBitsAbove(x: nat, n: nat, k: nat)
    requires x < Pow2(n) && n <= k
    ensures !Bit(x, k)
    decreases k
  {
    if n == 0 {
      assert x == 0;
      ZeroHasNoBits(k);
    } else {
      NoBitsAbove(x / 2, n - 1, k - 1);
    }
  }

  lemma ByteBitsBelowEight(x: byte, k: nat)
    requires 8 <= k
    ensures !Bit(x, k)
  {
    NoBitsAbove(x, 8, k);
  }

  /** Two values below 2^n with the same n low bits are equal. */
  lemma {:induction false} BitsDetermine(x: nat, y: nat, n: nat)
    requires x < Pow2(n) && y < Pow2(n)
    requires forall k :: 0 <= k < n ==> Bit(x, k) == Bit(y, k)
    ensures x == y
    decreases n
  {
    if n > 0 {
      assert Bit(x, 0) == Bit(y, 0);
      forall k | 0 <= k < n - 1
        ensures Bit(x / 2, k) == Bit(y / 2, k)
      {
        assert Bit(x, k + 1) == Bit(y, k + 1);
      }
      BitsDetermine(x / 2, y / 2, n - 1);
    }
  }

  lemma BytesEqualByBits(x: byte, y: byte)
    requires forall k :: 0 <= k < 8 ==> Bit(x, k) == Bit(y, k)
    ensures x == y
  {
    BitsDetermine(x, y, 8);
  }

  /** A non-zero byte has some bit set among bits 0..7. */
  lemma NonZeroHasBit(x: byte)
    requires x != 0
    ensures exists k :: 0 <= k < 8 && Bit(x, k)
  {
    if forall k :: 0 <= k < 8 ==> !Bit(x, k) {
      forall k | 0 <= k < 8 ensures Bit(x, k) == Bit(0, k) {
        ZeroHasNoBits(k);
      }
      BytesEqualByBits(x, 0);
    }
  }

  /** The bits of 2h + d are d followed by the bits of h. */
  lemma HalfBits(h: nat, d: nat, k: nat)
    requires d < 2
    ensures Bit(2 * h + d, 0) == (d == 1)
    ensures Bit(2 * h + d, k + 1) == Bit(h, k)
  {
    assert (2 * h + d) / 2 == h;
  }

  /** The three bitwise operators of C on unsigned values. */
  datatype BitOp = And | Or | Xor

  function Apply(op: BitOp, a: bool, b: bool): bool
  {
    match op
    case And => a && b
    case Or => a || b
    case Xor => a != b
  }

  /** `x op y` on two values below 2^n, computed bit by bit from the bottom. */
  function Bitwise(op: BitOp, x: nat, y: nat, n: nat): (r: nat)
    requires x < Pow2(n) && y < Pow2(n)
    ensures r < Pow2(n)
    decreases n
  {
    if n == 0 then 0
    else 2 * Bitwise(op, x / 2, y / 2, n - 1) + if Apply(op, x % 2 == 1, y % 2 == 1) then 1 else 0
  }

  /** Each bit of `x op y` is op applied to the same bit of x and y. */
  lemma {:induction false} BitwiseBit(op: BitOp, x: nat, y: nat, n: nat, k: nat)
    requires x < Pow2(n) && y < Pow2(n)
    ensures Bit(Bitwise(op, x, y, n), k) == Apply(op, Bit(x, k), Bit(y, k))
    decreases n
  {
    if n == 0 {
      assert x == 0 && y == 0;
      ZeroHasNoBits(k);
    } else {
      var rest := Bitwise(op, x / 2, y / 2, n - 1);
      var d := if Apply(op, x % 2 == 1, y % 2 == 1) then 1 else 0;
      if k == 0 {
        HalfBits(rest, d, 0);
      } else {
        HalfBits(rest, d, k - 1);
        BitwiseBit(op, x / 2, y / 2, n - 1, k - 1);
      }
    }
  }

  /** `x & y` on two bytes. */
  function And8(x: byte, y: byte): byte
  {
    assert Pow2(8) == 0x100;
    Bitwise(And, x, y, 8)
  }

  /** `x | y` on two bytes. */
  function Or8(x: byte, y: byte): byte
  {
    assert Pow2(8) == 0x100;
    Bitwise(Or, x, y, 8)
  }

  /** `x ^ y` on two bytes. */
  function Xor8(x: byte, y: byte): byte
  {
    assert Pow2(8) == 0x100;
    Bitwise(Xor, x, y, 8)
  }

  lemma And8Bit(x: byte, y: byte, k: nat)
    ensures Bit(And8(x, y), k) == (Bit(x, k) && Bit(y, k))
  {
    BitwiseBit(And, x, y, 8, k);
  }

  lemma Or8Bit(x: byte, y: byte, k: nat)
    ensures Bit(Or8(x, y), k) == (Bit(x, k) || Bit(y, k))
  {
    BitwiseBit(Or, x, y, 8, k);
  }

  lemma Xor8Bit(x: byte, y: byte, k: nat)
    ensures Bit(Xor8(x, y), k) == (Bit(x, k) != Bit(y, k))
  {
    BitwiseBit(Xor, x, y, 8, k);
  }

  /** `x ^ x` is zero. */
  lemma Xor8Self(x: byte)
    ensures Xor8(x, x) == 0
  {
    forall k | 0 <= k < 8 ensures Bit(Xor8(x, x), k) == Bit(0, k) {
      Xor8Bit(x, x, k);
      ZeroHasNoBits(k);
    }
    BytesEqualByBits(Xor8(x, x), 0);
  }

  /** Bitwise complement (`~`) of a byte, truncated back to eight bits. */
  function Not8(x: byte): byte
  {
    0xFF - x
  }

  /** Subtracting from 2^n - 1 flips each of the n low bits. */
  lemma {:induction false} ComplementBit(x: nat, n: nat, k: nat)
    requires x < Pow2(n) && k < n
    ensures Bit(Pow2(n) - 1 - x, k) == !Bit(x, k)
    decreases n
  {
    var h := Pow2(n - 1) - 1 - x / 2;
    var d := 1 - x % 2;
    assert Pow2(n) - 1 - x == 2 * h + d;
    assert x == 2 * (x / 2) + x % 2;
    if k == 0 {
      HalfBits(h, d, 0);
      HalfBits(x / 2, x % 2, 0);
    } else {
      HalfBits(h, d, k - 1);
      HalfBits(x / 2, x % 2, k - 1);
      ComplementBit(x / 2, n - 1, k - 1);
    }
  }

  lemma Not8Bit(x: byte, k: nat)
    requires k < 8
    ensures Bit(Not8(x), k) == !Bit(x, k)
  {
    assert Pow2(8) == 0x100;
    ComplementBit(x, 8, k);
  }

  /** `set_or_unset_bit(x, m, v)`: set the bits of mask m when v holds, clear them otherwise. */
  function SetOrUnset(x: byte, m: byte, v: bool): byte
  {
    if v then Or8(x, m) else And8(x, Not8(m))
  }

  lemma SetOrUnsetBit(x: byte, m: byte, v: bool, k: nat)
    requires k < 8
    ensures Bit(SetOrUnset(x, m, v), k) == if Bit(m, k) then v else Bit(x, k)
  {
    if v {
      Or8Bit(x, m, k);
    } else {
      And8Bit(x, Not8(m), k);
      Not8Bit(m, k);
    }
  }

  /** Number of one bits of x. */
  function PopCount(x: nat): nat
  {
    if x == 0 then 0 else x % 2 + PopCount(x / 2)
  }

  /** `__builtin_parity`: true when x has an ODD number of one bits. */
  predicate Parity(x: byte)
  {
    PopCount(x) % 2 == 1
  }

  /** The `char` view of a byte: its two's-complement reading. */
  function Signed8(x: byte): (v: int)
    ensures -128 <= v < 128
    ensures (v < 0) == (x >= 0x80)
  {
    if x >= 0x80 then x - 0x100 else x
  }

  /** Reading a byte as a `char` and truncating it back gives the byte again. */
  lemma Signed8Truncates(x: byte)
    ensures Signed8(x) % 0x100 == x
  {
  }

  /** The 16-bit value whose bytes are h (high) and l (low). */
  function Word(h: byte, l: byte): (w: word)
  {
    h * 0x100 + l
  }

  function High(w: word): byte
  {
    w / 0x100
  }

  function Low(w: word): byte
  {
    w % 0x100
  }

  lemma WordBytes(h: byte, l: byte)
    ensures High(Word(h, l)) == h && Low(Word(h, l)) == l
  {
  }

  lemma BytesWord(w: word)
    ensures Word(High(w), Low(w)) == w
  {
  }

  /** Bit 7 of a byte is its sign bit, bit 0 its parity of value. */
  lemma {:induction false} TopAndBottomBits(x: byte)
    ensures Bit(x, 7) == (x >= 0x80)
    ensures Bit(x, 0) == (x % 2 == 1)
  {
    assert Bit(x, 7) == Bit(x / 128, 0);
  }

  /** 2^k has exactly one bit, bit k. */
  lemma {:induction false} PowerBits(k: nat, j: nat)
    ensures Bit(Pow2(k), j) == (j == k)
    decreases k
  {
    if k == 0 {
      if j > 0 { ZeroHasNoBits(j - 1); }
    } else if j > 0 {
      PowerBits(k - 1, j - 1);
    }
  }

  /** `x & MAX7` tests the sign bit. */
  lemma TestTopBit(x: byte)
    ensures (And8(x, 0x80) != 0) == (x >= 0x80)
  {
    var m := And8(x, 0x80);
    assert Pow2(7) == 0x80;
    TopAndBottomBits(x);
    And8Bit(x, 0x80, 7);
    PowerBits(7, 7);
    if x >= 0x80 {
      ZeroHasNoBits(7);
    } else {
      forall j | 0 <= j < 8 ensures Bit(m, j) == Bit(0, j) {
        And8Bit(x, 0x80, j);
        PowerBits(7, j);
        ZeroHasNoBits(j);
      }
      BytesEqualByBits(m, 0);
    }
  }

  /** `x & MAX0` tests the lowest bit. */
  lemma TestBottomBit(x: byte)
    ensures (And8(x, 0x01) != 0) == (x % 2 == 1)
  {
    var m := And8(x, 0x01);
    TopAndBottomBits(x);
    And8Bit(x, 0x01, 0);
    PowerBits(0, 0);
    if x % 2 == 1 {
      ZeroHasNoBits(0);
    } else {
      forall j | 0 <= j < 8 ensures Bit(m, j) == Bit(0, j) {
        And8Bit(x, 0x01, j);
        PowerBits(0, j);
        ZeroHasNoBits(j);
      }
      BytesEqualByBits(m, 0);
    }
  }

  lemma SetBottomBitAt(x: byte, m: byte, b: bool, k: nat)
    requires x % 2 == 0 && m == Pow2(0) && k < 8
    ensures Bit(SetOrUnset(x, m, b), k) == Bit(x + (if b then 1 else 0), k)
  {
    var h := x / 2;
    var d := if b then 1 else 0;
    assert x == 2 * h + 0 && x + d == 2 * h + d;
    SetOrUnsetBit(x, m, b, k);
    PowerBits(0, k);
    if k == 0 {
      HalfBits(h, d, 0);
    } else {
      HalfBits(h, d, k - 1);
      HalfBits(h, 0, k - 1);
    }
  }

  /** Setting bit 0 of an even byte adds one. */
  lemma SetBottomBit(x: byte, b: bool)
    requires x % 2 == 0
    ensures SetOrUnset(x, 0x01, b) == x + (if b then 1 else 0)
  {
    forall k | 0 <= k < 8
      ensures Bit(SetOrUnset(x, 0x01, b), k) == Bit(x + (if b then 1 else 0), k)
    {
      SetBottomBitAt(x, 0x01, b, k);
    }
    BytesEqualByBits(SetOrUnset(x, 0x01, b), x + (if b then 1 else 0));
  }

  /** Adding 2^n to a value below 2^n sets bit n and keeps every other bit. */
  lemma {:induction false} AddTopBit(x: nat, n: nat, k: nat)
    requires x < Pow2(n)
    ensures Bit(x + Pow2(n), k) == (k == n || Bit(x, k))
    decreases n
  {
    if n == 0 {
      assert x == 0;
      if k > 0 { ZeroHasNoBits(k - 1); }
    } else if k > 0 {
      assert (x + Pow2(n)) / 2 == x / 2 + Pow2(n - 1);
      AddTopBit(x / 2, n - 1, k - 1);
    }
  }

  lemma SetTopBitAt(x: byte, m: byte, b: bool, k: nat)
    requires x < 0x80 && m == Pow2(7) && k < 8
    ensures Bit(SetOrUnset(x, m, b), k) == Bit(x + (if b then 0x80 else 0), k)
  {
    assert Pow2(7) == 0x80;
    SetOrUnsetBit(x, m, b, k);
    PowerBits(7, k);
    if b { AddTopBit(x, 7, k); }
    if k == 7 { NoBitsAbove(x, 7, 7); }
  }

  /** Setting bit 7 of a byte below 128 adds 128. */
  lemma SetTopBit(x: byte, b: bool)
    requires x < 0x80
    ensures SetOrUnset(x, 0x80, b) == x + (if b then 0x80 else 0)
  {
    forall k | 0 <= k < 8
      ensures Bit(SetOrUnset(x, 0x80, b), k) == Bit(x + (if b then 0x80 else 0), k)
    {
      SetTopBitAt(x, 0x80, b, k);
    }
    BytesEqualByBits(SetOrUnset(x, 0x80, b), x + (if b then 0x80 else 0));
  }

  /** The number whose binary digits, most significant first, are `digits`. */
  function FromBits(digits: seq<bool>): nat
  {
    if |digits| == 0 then 0
    else 2 * FromBits(digits[..|digits| - 1]) + if digits[|digits| - 1] then 1 else 0
  }

  lemma {:induction false} FromBitsBit(digits: seq<bool>, k: nat)
    requires k < |digits|
    ensures Bit(FromBits(digits), k) == digits[|digits| - 1 - k]
    decreases k
  {
    assert FromBits(digits) / 2 == FromBits(digits[..|digits| - 1]);
    if k > 0 {
      FromBitsBit(digits[..|digits| - 1], k - 1);
    }
  }

  lemma {:induction false} FromBitsBound(digits: seq<bool>)
    ensures FromBits(digits) < Pow2(|digits|)
  {
    if |digits| > 0 {
      FromBitsBound(digits[..|digits| - 1]);
    }
  }
}
