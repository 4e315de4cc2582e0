/** The flag register and the arithmetic helpers of the C emulator (`register_*_with_flags`,
    `register_a_set_flag_s_z_p`).

    F is kept as its eight bits, from bit 7 (S) down to bit 0 (C); `ToByte` and `FromByte` are
    the two directions of the byte view, and they are inverse to each other. The flag
    constants (`FLAG_C` ...) and the masks (`MASK_ALL` ...) are bytes with the same layout, so
    they are kept in the same form: `FLAG_C & mask` selects the flags both of them have. */
module Alu {
  import opened Bits

  datatype Flags = Flags(s: bool, z: bool, f5: bool, h: bool, f3: bool, pv: bool, n: bool, c: bool)

  /** The bits of F, from bit 7 down to bit 0. */
  function Digits(fl: Flags): seq<bool>
  {
    [fl.s, fl.z, fl.f5, fl.h, fl.f3, fl.pv, fl.n, fl.c]
  }

  /** The byte F holds. */
  function ToByte(fl: Flags): byte
  {
    FromBitsBound(Digits(fl));
    assert Pow2(8) == 0x100;
    FromBits(Digits(fl))
  }

  /** The flags a byte holds. */
  function FromByte(b: byte): Flags
  {
    Flags(Bit(b, 7), Bit(b, 6), Bit(b, 5), Bit(b, 4), Bit(b, 3), Bit(b, 2), Bit(b, 1), Bit(b, 0))
  }

  lemma FromByteToByte(fl: Flags)
    ensures FromByte(ToByte(fl)) == fl
  {
    var digits := Digits(fl);
    FromBitsBit(digits, 0);
    FromBitsBit(digits, 1);
    FromBitsBit(digits, 2);
    FromBitsBit(digits, 3);
    FromBitsBit(digits, 4);
    FromBitsBit(digits, 5);
    FromBitsBit(digits, 6);
    FromBitsBit(digits, 7);
  }

  lemma ToByteFromByte(b: byte)
    ensures ToByte(FromByte(b)) == b
  {
    var fl := FromByte(b);
    FromByteToByte(fl);
    BytesEqualByBits(ToByte(fl), b);
  }

  const FLAG_C: Flags := Flags(false, false, false, false, false, false, false, true)
  const FLAG_N: Flags := Flags(false, false, false, false, false, false, true, false)
  const FLAG_PV: Flags := Flags(false, false, false, false, false, true, false, false)
  const FLAG_HC: Flags := Flags(false, false, false, true, false, false, false, false)
  const FLAG_Z: Flags := Flags(false, true, false, false, false, false, false, false)
  const FLAG_S: Flags := Flags(true, false, false, false, false, false, false, false)
  const MASK_ALL: Flags := Flags(true, true, true, true, true, true, true, true)
  const MASK_SZHVN: Flags := Flags(true, true, false, true, false, true, true, false)
  const MASK_NONE: Flags := Flags(false, false, false, false, false, false, false, false)

  /** The constants hold the byte values of the C definitions. */
  lemma FlagConstantBytes()
    ensures ToByte(FLAG_C) == 0x01 && ToByte(FLAG_N) == 0x02 && ToByte(FLAG_PV) == 0x04
    ensures ToByte(FLAG_HC) == 0x10 && ToByte(FLAG_Z) == 0x40 && ToByte(FLAG_S) == 0x80
    ensures ToByte(MASK_ALL) == 0xFF && ToByte(MASK_SZHVN) == 0xD6 && ToByte(MASK_NONE) == 0x00
  {
    assert FromByte(0x01) == FLAG_C && FromByte(0x02) == FLAG_N && FromByte(0x04) == FLAG_PV;
    assert FromByte(0x10) == FLAG_HC && FromByte(0x40) == FLAG_Z && FromByte(0x80) == FLAG_S;
    assert FromByte(0xFF) == MASK_ALL && FromByte(0xD6) == MASK_SZHVN && FromByte(0x00) == MASK_NONE;
    ToByteFromByte(0x01); ToByteFromByte(0x02); ToByteFromByte(0x04);
    ToByteFromByte(0x10); ToByteFromByte(0x40); ToByteFromByte(0x80);
    ToByteFromByte(0xFF); ToByteFromByte(0xD6); ToByteFromByte(0x00);
  }

  /** `a & b` on two flag bytes. */
  function Meet(a: Flags, b: Flags): Flags
  {
    Flags(a.s && b.s, a.z && b.z, a.f5 && b.f5, a.h && b.h, a.f3 && b.f3, a.pv && b.pv, a.n && b.n, a.c && b.c)
  }

  /** The bitwise core of `MeetIsAnd`. */
  lemma MeetIsAndOn(x: byte, y: byte)
    ensures FromByte(And8(x, y)) == Meet(FromByte(x), FromByte(y))
  {
    forall k | 0 <= k < 8
      ensures Bit(And8(x, y), k) == (Bit(x, k) && Bit(y, k))
    {
      And8Bit(x, y, k);
    }
  }

  lemma MeetIsAnd(a: Flags, b: Flags)
    ensures ToByte(Meet(a, b)) == And8(ToByte(a), ToByte(b))
  {
    var x, y := ToByte(a), ToByte(b);
    FromByteToByte(a);
    FromByteToByte(b);
    MeetIsAndOn(x, y);
    ToByteFromByte(And8(x, y));
  }

  /** `register_is_flag(flag)`: F & flag is non-zero. */
  predicate IsFlag(f: Flags, flag: Flags)
  {
    Meet(f, flag) != MASK_NONE
  }

  /** For each named flag constant, `register_is_flag` reads exactly that flag. */
  lemma IsFlagReads(f: Flags)
    ensures IsFlag(f, FLAG_C) == f.c && IsFlag(f, FLAG_N) == f.n && IsFlag(f, FLAG_PV) == f.pv
    ensures IsFlag(f, FLAG_HC) == f.h && IsFlag(f, FLAG_Z) == f.z && IsFlag(f, FLAG_S) == f.s
  {
  }

  /** `register_set_or_unset_flag(sel, v)`: every flag named by sel becomes v, the rest keep
      their value. */
  function SetOrUnsetFlag(f: Flags, sel: Flags, v: bool): Flags
  {
    Flags(
      if sel.s then v else f.s, if sel.z then v else f.z, if sel.f5 then v else f.f5,
      if sel.h then v else f.h, if sel.f3 then v else f.f3, if sel.pv then v else f.pv,
      if sel.n then v else f.n, if sel.c then v else f.c)
  }

  /** The bitwise core of `SetOrUnsetFlagIsBitwise`. */
  lemma SetOrUnsetOn(x: byte, m: byte, v: bool)
    ensures FromByte(SetOrUnset(x, m, v)) == SetOrUnsetFlag(FromByte(x), FromByte(m), v)
  {
    forall k | 0 <= k < 8
      ensures Bit(SetOrUnset(x, m, v), k) == if Bit(m, k) then v else Bit(x, k)
    {
      SetOrUnsetBit(x, m, v, k);
    }
  }

  /** On the byte view, `SetOrUnsetFlag` is `set_or_unset_bit`. */
  lemma SetOrUnsetFlagIsBitwise(f: Flags, sel: Flags, v: bool)
    ensures ToByte(SetOrUnsetFlag(f, sel, v)) == SetOrUnset(ToByte(f), ToByte(sel), v)
  {
    var x, m := ToByte(f), ToByte(sel);
    FromByteToByte(f);
    FromByteToByte(sel);
    SetOrUnsetOn(x, m, v);
    ToByteFromByte(SetOrUnset(x, m, v));
  }

  /** `register_set_or_unset_flag(FLAG_X & mask, v)`, the call every arithmetic helper makes
      once per flag it computes, sets flag X to v when the mask has X and leaves F alone
      otherwise (one lemma per flag). The helpers below are written with these record updates. */
  lemma SetOrUnsetMaskedC(f: Flags, mask: Flags, v: bool)
    ensures SetOrUnsetFlag(f, Meet(FLAG_C, mask), v) == f.(c := if mask.c then v else f.c)
  {
  }

  lemma SetOrUnsetMaskedHC(f: Flags, mask: Flags, v: bool)
    ensures SetOrUnsetFlag(f, Meet(FLAG_HC, mask), v) == f.(h := if mask.h then v else f.h)
  {
  }

  lemma SetOrUnsetMaskedN(f: Flags, mask: Flags, v: bool)
    ensures SetOrUnsetFlag(f, Meet(FLAG_N, mask), v) == f.(n := if mask.n then v else f.n)
  {
  }

  lemma SetOrUnsetMaskedPV(f: Flags, mask: Flags, v: bool)
    ensures SetOrUnsetFlag(f, Meet(FLAG_PV, mask), v) == f.(pv := if mask.pv then v else f.pv)
  {
  }

  lemma SetOrUnsetMaskedS(f: Flags, mask: Flags, v: bool)
    ensures SetOrUnsetFlag(f, Meet(FLAG_S, mask), v) == f.(s := if mask.s then v else f.s)
  {
  }

  lemma SetOrUnsetMaskedZ(f: Flags, mask: Flags, v: bool)
    ensures SetOrUnsetFlag(f, Meet(FLAG_Z, mask), v) == f.(z := if mask.z then v else f.z)
  {
  }

  /** The result stored by an 8-bit helper and the new F. */
  datatype ByteOut = ByteOut(value: byte, flags: Flags)

  /** The result stored by a 16-bit helper and the new F. */
  datatype WordOut = WordOut(value: word, flags: Flags)

  /** `register_add8_with_flags`: the sum, then C, H, N, P/V, S and Z as the C expressions
      compute them, each only where the mask has it. */
  function Add8(reg: byte, alt: byte, f: Flags, mask: Flags): ByteOut
  {
    var r := reg + alt;
    var s := r < 0;  // sign((short)r)
    var overflow := (Signed8(reg) < 0) == (Signed8(alt) < 0) && s != (Signed8(reg) < 0);
    ByteOut(r % 0x100, f.(c := if mask.c then r >= 0x100 else f.c,
                          h := if mask.h then r % 0x10 >= 0x10 else f.h,
                          n := if mask.n then false else f.n,
                          pv := if mask.pv then overflow else f.pv,
                          s := if mask.s then s else f.s,
                          z := if mask.z then r == 0 else f.z))
  }

  /** What `register_add8_with_flags` stores: the sum modulo 256. Among the flags the mask
      allows, C is the carry out of bit 7, N is cleared, and P/V, S, Z and H follow the C
      expressions: P/V holds when both operands are negative, while S, H (and Z unless both are
      0) are computed on the unwrapped sum and so are always cleared. Bits 3 and 5 are kept. */
  lemma Add8Effect(reg: byte, alt: byte, f: Flags, mask: Flags)
    ensures Add8(reg, alt, f, mask).value == (reg + alt) % 0x100
    ensures Add8(reg, alt, f, mask).flags.c == if mask.c then reg + alt >= 0x100 else f.c
    ensures Add8(reg, alt, f, mask).flags.h == (f.h && !mask.h)
    ensures Add8(reg, alt, f, mask).flags.n == (f.n && !mask.n)
    ensures Add8(reg, alt, f, mask).flags.pv == if mask.pv then reg >= 0x80 && alt >= 0x80 else f.pv
    ensures Add8(reg, alt, f, mask).flags.s == (f.s && !mask.s)
    ensures Add8(reg, alt, f, mask).flags.z == if mask.z then reg == 0 && alt == 0 else f.z
    ensures Add8(reg, alt, f, mask).flags.f3 == f.f3 && Add8(reg, alt, f, mask).flags.f5 == f.f5
  {
    assert (Signed8(reg) < 0) == (reg >= 0x80) && (Signed8(alt) < 0) == (alt >= 0x80);
  }

  /** `register_sub8_with_flags`: the difference, then C, H, N, P/V, S and Z as the C
      expressions compute them, each only where the mask has it. */
  function Sub8(reg: byte, alt: byte, f: Flags, mask: Flags): ByteOut
  {
    var r := reg - alt;  // a short, wide enough for every difference of two bytes
    var s := r < 0;
    var overflow := (Signed8(reg) < 0) != (Signed8(alt) < 0) && s != (Signed8(reg) < 0);
    ByteOut(r % 0x100, f.(c := if mask.c then alt > reg else f.c,
                          h := if mask.h then alt % 0x10 > reg % 0x10 else f.h,
                          n := if mask.n then true else f.n,
                          pv := if mask.pv then overflow else f.pv,
                          s := if mask.s then s else f.s,
                          z := if mask.z then r == 0 else f.z))
  }

  /** What `register_sub8_with_flags` stores: the difference modulo 256. Among the flags the
      mask allows, C and S hold when a borrow occurs, H when the low nibble borrows, N is set,
      P/V holds when the operands have different signs and Z when they are equal. */
  lemma Sub8Effect(reg: byte, alt: byte, f: Flags, mask: Flags)
    ensures Sub8(reg, alt, f, mask).value == (reg - alt) % 0x100
    ensures Sub8(reg, alt, f, mask).flags.c == if mask.c then alt > reg else f.c
    ensures Sub8(reg, alt, f, mask).flags.h == if mask.h then alt % 0x10 > reg % 0x10 else f.h
    ensures Sub8(reg, alt, f, mask).flags.n == (f.n || mask.n)
    ensures Sub8(reg, alt, f, mask).flags.pv == if mask.pv then (reg >= 0x80) != (alt >= 0x80) else f.pv
    ensures Sub8(reg, alt, f, mask).flags.s == if mask.s then alt > reg else f.s
    ensures Sub8(reg, alt, f, mask).flags.z == if mask.z then reg == alt else f.z
    ensures Sub8(reg, alt, f, mask).flags.f3 == f.f3 && Sub8(reg, alt, f, mask).flags.f5 == f.f5
  {
    assert (Signed8(reg) < 0) == (reg >= 0x80) && (Signed8(alt) < 0) == (alt >= 0x80);
  }

  /** `register_add16_with_flags`: the sum, then C, H and N where the mask has them. */
  function Add16(reg: word, alt: word, f: Flags, mask: Flags): WordOut
  {
    var r := reg + alt;
    WordOut(r % 0x1_0000, f.(c := if mask.c then r >= 0x1_0000 else f.c,
                             h := if mask.h then r % 0x1000 >= 0x1000 else f.h,
                             n := if mask.n then false else f.n))
  }

  /** What `register_add16_with_flags` stores: the sum modulo 65536; C is the carry out of
      bit 15, N is cleared, and H, computed on the unwrapped sum, is always cleared. */
  lemma Add16Effect(reg: word, alt: word, f: Flags, mask: Flags)
    ensures Add16(reg, alt, f, mask).value == (reg + alt) % 0x1_0000
    ensures Add16(reg, alt, f, mask).flags.c == if mask.c then reg + alt >= 0x1_0000 else f.c
    ensures Add16(reg, alt, f, mask).flags.h == (f.h && !mask.h)
    ensures Add16(reg, alt, f, mask).flags.n == (f.n && !mask.n)
    ensures Add16(reg, alt, f, mask).flags.(c := f.c, h := f.h, n := f.n) == f
  {
  }

  /** `register_sub16_with_flags`: C, H and N where the mask has them, then the difference. */
  function Sub16(reg: word, alt: word, f: Flags, mask: Flags): WordOut
  {
    WordOut((reg - alt) % 0x1_0000, f.(c := if mask.c then alt > reg else f.c,
                                       h := if mask.h then alt % 0x1000 > reg % 0x1000 else f.h,
                                       n := if mask.n then true else f.n))
  }

  /** What `register_sub16_with_flags` stores: the difference modulo 65536; C is the borrow
      out of bit 15, H the borrow out of bit 11, and N is set. */
  lemma Sub16Effect(reg: word, alt: word, f: Flags, mask: Flags)
    ensures Sub16(reg, alt, f, mask).value == (reg - alt) % 0x1_0000
    ensures Sub16(reg, alt, f, mask).flags.c == if mask.c then alt > reg else f.c
    ensures Sub16(reg, alt, f, mask).flags.h == if mask.h then alt % 0x1000 > reg % 0x1000 else f.h
    ensures Sub16(reg, alt, f, mask).flags.n == (f.n || mask.n)
    ensures Sub16(reg, alt, f, mask).flags.(c := f.c, h := f.h, n := f.n) == f
  {
  }

  /** With `MASK_NONE`, as INC ss and DEC ss pass it, the 16-bit helpers change no flag. */
  lemma Add16Unmasked(reg: word, alt: word, f: Flags)
    ensures Add16(reg, alt, f, MASK_NONE) == WordOut((reg + alt) % 0x1_0000, f)
  {
  }

  lemma Sub16Unmasked(reg: word, alt: word, f: Flags)
    ensures Sub16(reg, alt, f, MASK_NONE) == WordOut((reg - alt) % 0x1_0000, f)
  {
  }

  /** `*reg & 0x80`, the bit a left shift moves out. */
  function TopBit(reg: byte): (r: bool)
    ensures r == (reg >= 0x80)
  {
    TestTopBit(reg);
    And8(reg, 0x80) != 0
  }

  /** `*reg & 0x01`, the bit a right shift moves out. */
  function BottomBit(reg: byte): (r: bool)
    ensures r == (reg % 2 == 1)
  {
    TestBottomBit(reg);
    And8(reg, 0x01) != 0
  }

  /** `*reg << 1` stored in a byte, then `set_or_unset_bit(*reg, b, 0x01)`. */
  function ShiftLeft(reg: byte, b: bool): (r: byte)
    ensures r == (reg * 2) % 0x100 + (if b then 1 else 0)
  {
    var shifted := (reg * 2) % 0x100;
    SetBottomBit(shifted, b);
    SetOrUnset(shifted, 0x01, b)
  }

  /** `*reg >> 1`, then `set_or_unset_bit(*reg, b, 0x80)`. */
  function ShiftRight(reg: byte, b: bool): (r: byte)
    ensures r == reg / 2 + (if b then 0x80 else 0)
  {
    var shifted := reg / 2;
    SetTopBit(shifted, b);
    SetOrUnset(shifted, 0x80, b)
  }

  /** `register_left8_with_flags`: C (where the mask has it) takes bit 7, H and N are cleared
      where the mask has them, then the register is shifted left with b as its new bit 0. */
  function Left8(reg: byte, mask: Flags, b: bool, f: Flags): ByteOut
  {
    ByteOut(ShiftLeft(reg, b), f.(c := if mask.c then TopBit(reg) else f.c,
                                  h := if mask.h then false else f.h,
                                  n := if mask.n then false else f.n))
  }

  /** What `register_left8_with_flags` stores: reg shifted left by one with b as bit 0; C (when
      the mask allows) receives the old bit 7, H and N are cleared, S, Z and P/V are kept. */
  lemma Left8Effect(reg: byte, mask: Flags, b: bool, f: Flags)
    ensures Left8(reg, mask, b, f).value == (reg * 2) % 0x100 + (if b then 1 else 0)
    ensures Left8(reg, mask, b, f).flags.c == if mask.c then reg >= 0x80 else f.c
    ensures Left8(reg, mask, b, f).flags.h == (f.h && !mask.h)
    ensures Left8(reg, mask, b, f).flags.n == (f.n && !mask.n)
    ensures Left8(reg, mask, b, f).flags.(c := f.c, h := f.h, n := f.n) == f
  {
  }

  /** `register_right8_with_flags`: C (where the mask has it) takes bit 0, H and N are cleared
      where the mask has them, then the register is shifted right with b as its new bit 7. */
  function Right8(reg: byte, mask: Flags, b: bool, f: Flags): ByteOut
  {
    ByteOut(ShiftRight(reg, b), f.(c := if mask.c then BottomBit(reg) else f.c,
                                   h := if mask.h then false else f.h,
                                   n := if mask.n then false else f.n))
  }

  /** What `register_right8_with_flags` stores: reg shifted right by one with b as bit 7; C
      (when the mask allows) receives the old bit 0, H and N are cleared, S, Z and P/V are
      kept. */
  lemma Right8Effect(reg: byte, mask: Flags, b: bool, f: Flags)
    ensures Right8(reg, mask, b, f).value == reg / 2 + (if b then 0x80 else 0)
    ensures Right8(reg, mask, b, f).flags.c == if mask.c then reg % 2 == 1 else f.c
    ensures Right8(reg, mask, b, f).flags.h == (f.h && !mask.h)
    ensures Right8(reg, mask, b, f).flags.n == (f.n && !mask.n)
    ensures Right8(reg, mask, b, f).flags.(c := f.c, h := f.h, n := f.n) == f
  {
  }

  /** `register_a_set_flag_s_z_p`: S from A read as a `char`, Z from A == 0 and P/V from
      `__builtin_parity(A)`. */
  function SignZeroParity(a: byte, f: Flags): Flags
  {
    f.(s := Signed8(a) < 0, z := a == 0, pv := Parity(a))
  }

  /** S is bit 7 of A, Z is A == 0, and P/V holds for an ODD number of one bits; the other
      flags are kept. */
  lemma SignZeroParityEffect(a: byte, f: Flags)
    ensures SignZeroParity(a, f).s == (a >= 0x80) && SignZeroParity(a, f).z == (a == 0)
    ensures SignZeroParity(a, f).pv == Parity(a)
    ensures SignZeroParity(a, f).(s := f.s, z := f.z, pv := f.pv) == f
  {
  }
}
