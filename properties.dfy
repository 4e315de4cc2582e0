/** What the arithmetic, logic, rotate and flag instructions do to the state, stated against the
    inputs rather than through the helpers that compute them. The quirks of the C engine appear
    here as facts: ADD never sets S or H, ADC and SBC fold the carry into A first, P/V is odd
    parity, and DAA divides A by 8.

    Each property is proved in two steps: which group function `Execute` hands the opcode to
    (the `Dispatch` lemmas), and what that group function computes (the `...Step` lemmas). */
module Properties {
  import opened Bits
  import opened Alu
  import opened Machine
  import opened Interpreter

  // ---------------------------------------------------------------- dispatch

  lemma DispatchIncDecReg(s: State, op: byte)
    requires IsIncReg(op) || IsDecReg(op)
    ensures Execute(s, op) == IncDecReg(s, op, IsIncReg(op))
  {
  }

  lemma DispatchIncPair(s: State, op: byte)
    requires IsIncPair(op)
    ensures Execute(s, op) == IncDecPair(s, op, true)
  {
  }

  lemma DispatchDecPair(s: State, op: byte)
    requires IsDecPair(op)
    ensures Execute(s, op) == IncDecPair(s, op, false)
  {
  }

  lemma DispatchArithmeticLogic(s: State, op: byte)
    requires 0x80 <= op < 0xC0
    ensures Execute(s, op) == ArithmeticLogic(s, op)
  {
  }

  lemma DispatchRotateLeft(s: State, op: byte)
    requires op == 0x07 || op == 0x17
    ensures Execute(s, op) == Rotate(s, true, op == 0x17)
  {
  }

  lemma DispatchRotateRight(s: State, op: byte)
    requires op == 0x0F || op == 0x1F
    ensures Execute(s, op) == Rotate(s, false, op == 0x1F)
  {
  }

  // ---------------------------------------------------------------- increments and decrements

  lemma IncDecRegStep(s: State, op: byte, inc: bool)
    ensures var i := Slot(op, 3);
      var r := Get8(s, i);
      var out := IncDecReg(s, op, inc);
      && out.state == Set8(s, i, (if inc then r + 1 else r - 1) % 0x100).(f := out.state.f)
      && out.state.f == (if inc then s.f.(s := false, z := false, h := false, pv := false, n := false)
                         else s.f.(s := r == 0, z := r == 1, h := r % 0x10 == 0, pv := r >= 0x80, n := true))
      && out.cycles == (if i == 6 then 11 else 4)
  {
    var i := Slot(op, 3);
    if inc {
      Add8Effect(Get8(s, i), 1, s.f, MASK_SZHVN);
    } else {
      Sub8Effect(Get8(s, i), 1, s.f, MASK_SZHVN);
    }
  }

  /** INC r and DEC r change the slot by one modulo 256 and nothing else but F, in 11 T-states
      for (HL) and 4 for a register. `MASK_SZHVN` keeps C, bits 3 and 5. With the operand 1 the
      flags come out as the C expressions give them: INC clears S, Z, H, P/V and N whatever
      the result, so it never sets Z, not even when 0xFF wraps to 0x00; DEC sets S iff the slot
      was 0, Z iff it was 1, H iff its low nibble was 0, P/V iff it was 0x80 or more, and N. */
  lemma IncDecRegEffect(s: State, op: byte)
    requires IsIncReg(op) || IsDecReg(op)
    ensures var i := Slot(op, 3);
      var r := Get8(s, i);
      var out := Execute(s, op);
      && out.state == Set8(s, i, (if IsIncReg(op) then r + 1 else r - 1) % 0x100).(f := out.state.f)
      && out.state.f == (if IsIncReg(op) then s.f.(s := false, z := false, h := false, pv := false, n := false)
                         else s.f.(s := r == 0, z := r == 1, h := r % 0x10 == 0, pv := r >= 0x80, n := true))
      && out.cycles == (if i == 6 then 11 else 4)
  {
    DispatchIncDecReg(s, op);
    IncDecRegStep(s, op, IsIncReg(op));
  }

  /** INC r never sets Z: incrementing 0xFF gives 0x00 with Z clear. */
  lemma IncrementNeverSetsZero(s: State, op: byte)
    requires IsIncReg(op)
    ensures !Execute(s, op).state.f.z
  {
    IncDecRegEffect(s, op);
  }

  lemma IncDecPairStep(s: State, op: byte, inc: bool)
    ensures var p := PairIndex(op);
      var v := (if inc then GetPair(s, p) + 1 else GetPair(s, p) - 1) % 0x1_0000;
      IncDecPair(s, op, inc) == Outcome(SetPair(s, p, v), 6)
  {
    var p := PairIndex(op);
    if inc {
      Add16Unmasked(GetPair(s, p), 1, s.f);
    } else {
      Sub16Unmasked(GetPair(s, p), 1, s.f);
    }
  }

  /** INC ss and DEC ss change only the pair, by one modulo 65536: F is untouched because the
      mask is `MASK_NONE`. */
  lemma IncDecPairEffect(s: State, op: byte)
    requires IsIncPair(op) || IsDecPair(op)
    ensures var p := PairIndex(op);
      var v := (if IsIncPair(op) then GetPair(s, p) + 1 else GetPair(s, p) - 1) % 0x1_0000;
      Execute(s, op) == Outcome(SetPair(s, p, v), 6)
  {
    if IsIncPair(op) {
      DispatchIncPair(s, op);
    } else {
      DispatchDecPair(s, op);
    }
    IncDecPairStep(s, op, IsIncPair(op));
  }

  // ---------------------------------------------------------------- the 0x80-0xBF block

  lemma AluOpOfBlock(op: byte)
    requires 0x80 <= op < 0xC0
    ensures AluOpOf(op) == [AddOp, AdcOp, SubOp, SbcOp, AndOp, XorOp, OrOp, CpOp][(op - 0x80) / 8]
  {
  }

  lemma AddStep(s: State, op: byte)
    requires 0x80 <= op < 0x88
    ensures var v := Get8(s, Slot(op, 0));
      var out := ArithmeticLogic(s, op);
      && out.state == s.(a := (s.a + v) % 0x100, f := out.state.f)
      && out.state.f == s.f.(c := s.a + v >= 0x100, h := false, n := false,
                             pv := s.a >= 0x80 && v >= 0x80, s := false, z := s.a == 0 && v == 0)
      && out.cycles == (if Slot(op, 0) == 6 then 7 else 4)
  {
    AluOpOfBlock(op);
    Add8Effect(s.a, Get8(s, Slot(op, 0)), s.f, MASK_ALL);
  }

  /** ADD A,r stores the sum modulo 256. C is the carry out of bit 7 and N is cleared. P/V
      holds when both operands are 0x80 or more, and Z only for 0 + 0, while S and H, computed
      on the unwrapped sum, are never set. Nothing but A and F changes: 4 T-states, 7 for (HL). */
  lemma AddEffect(s: State, op: byte)
    requires 0x80 <= op < 0x88
    ensures var v := Get8(s, Slot(op, 0));
      var out := Execute(s, op);
      && out.state == s.(a := (s.a + v) % 0x100, f := out.state.f)
      && out.state.f == s.f.(c := s.a + v >= 0x100, h := false, n := false,
                             pv := s.a >= 0x80 && v >= 0x80, s := false, z := s.a == 0 && v == 0)
      && out.cycles == (if Slot(op, 0) == 6 then 7 else 4)
  {
    DispatchArithmeticLogic(s, op);
    AddStep(s, op);
  }

  lemma AddWithCarryStep(s: State, op: byte)
    requires 0x88 <= op < 0x90
    ensures var a := (s.a + (if s.f.c then 1 else 0)) % 0x100;
      var v := Get8(s.(a := a), Slot(op, 0));
      var out := ArithmeticLogic(s, op);
      && out.state == s.(a := (a + v) % 0x100, f := out.state.f)
      && out.state.f == s.f.(c := a + v >= 0x100, h := false, n := false,
                             pv := a >= 0x80 && v >= 0x80, s := false, z := a == 0 && v == 0)
      && out.cycles == (if Slot(op, 0) == 6 then 7 else 4)
  {
    var s1 := s.(a := (s.a + (if s.f.c then 1 else 0)) % 0x100);
    AluOpOfBlock(op);
    Add8Effect(s1.a, Get8(s1, Slot(op, 0)), s1.f, MASK_ALL);
  }

  /** ADC A,r first adds the carry to A modulo 256 and then adds the operand read from that
      state as ADD does, flags included; the carry out of the first addition is lost. */
  lemma AddWithCarryEffect(s: State, op: byte)
    requires 0x88 <= op < 0x90
    ensures var a := (s.a + (if s.f.c then 1 else 0)) % 0x100;
      var v := Get8(s.(a := a), Slot(op, 0));
      var out := Execute(s, op);
      && out.state == s.(a := (a + v) % 0x100, f := out.state.f)
      && out.state.f == s.f.(c := a + v >= 0x100, h := false, n := false,
                             pv := a >= 0x80 && v >= 0x80, s := false, z := a == 0 && v == 0)
      && out.cycles == (if Slot(op, 0) == 6 then 7 else 4)
  {
    DispatchArithmeticLogic(s, op);
    AddWithCarryStep(s, op);
  }

  /** ADC A,r folds the carry into A before the operand is read, so ADC A,A with the carry set
      doubles the incremented A. */
  lemma AddWithCarrySelf(s: State)
    requires s.f.c
    ensures Execute(s, 0x8F).state.a == (2 * ((s.a + 1) % 0x100)) % 0x100
  {
    DispatchArithmeticLogic(s, 0x8F);
    AddWithCarryStep(s, 0x8F);
  }

  lemma AddAtPC(s: State)
    ensures var v := s.memory[s.pc];
      var t := Add8WithFlags(Next8(s).1, 7, v, MASK_ALL);
      && t == s.(a := (s.a + v) % 0x100, f := t.f, pc := (s.pc + 1) % 0x1_0000)
      && t.f == s.f.(c := s.a + v >= 0x100, h := false, n := false,
                     pv := s.a >= 0x80 && v >= 0x80, s := false, z := s.a == 0 && v == 0)
  {
    var v := s.memory[s.pc];
    var s2 := s.(pc := (s.pc + 1) % 0x1_0000);
    assert Next8(s).1 == s2;
    var out := Add8(s.a, v, s.f, MASK_ALL);
    assert Set8(s2, 7, out.value) == s2.(a := out.value);
    Add8Effect(s.a, v, s.f, MASK_ALL);
  }

  lemma AddImmediateStep(s: State, withCarry: bool)
    ensures var a := if withCarry then (s.a + (if s.f.c then 1 else 0)) % 0x100 else s.a;
      var v := s.memory[s.pc];
      var out := AddImmediate(s, withCarry);
      && out.state == s.(a := (a + v) % 0x100, f := out.state.f, pc := (s.pc + 1) % 0x1_0000)
      && out.state.f == s.f.(c := a + v >= 0x100, h := false, n := false,
                             pv := a >= 0x80 && v >= 0x80, s := false, z := a == 0 && v == 0)
      && out.cycles == 7
  {
    var a := if withCarry then (s.a + (if s.f.c then 1 else 0)) % 0x100 else s.a;
    var s1 := s.(a := a);
    assert AddImmediate(s, withCarry) == Outcome(Add8WithFlags(Next8(s1).1, 7, Next8(s1).0, MASK_ALL), 7);
    AddAtPC(s1);
  }

  lemma DispatchAddImmediate(s: State, op: byte)
    requires op == 0xC6 || op == 0xCE
    ensures Execute(s, op) == AddImmediate(s, op == 0xCE)
  {
  }

  /** ADD A,n (0xC6) and ADC A,n (0xCE) add the byte after the opcode, ADC to A with the carry
      folded in, and step over it in 7 T-states. The flags follow `z80_add8` as for ADD A,r. */
  lemma AddImmediateEffect(s: State, op: byte)
    requires op == 0xC6 || op == 0xCE
    ensures var a := if op == 0xCE then (s.a + (if s.f.c then 1 else 0)) % 0x100 else s.a;
      var v := s.memory[s.pc];
      var out := Execute(s, op);
      && out.state == s.(a := (a + v) % 0x100, f := out.state.f, pc := (s.pc + 1) % 0x1_0000)
      && out.state.f == s.f.(c := a + v >= 0x100, h := false, n := false,
                             pv := a >= 0x80 && v >= 0x80, s := false, z := a == 0 && v == 0)
      && out.cycles == 7
  {
    DispatchAddImmediate(s, op);
    AddImmediateStep(s, op == 0xCE);
  }

  /** No addition sets S or H: ADD A,r, ADC A,r, ADD A,n and ADC A,n all leave both clear. */
  lemma AddNeverSetsSignOrHalfCarry(s: State, op: byte)
    requires 0x80 <= op < 0x90 || op == 0xC6 || op == 0xCE
    ensures !Execute(s, op).state.f.s && !Execute(s, op).state.f.h
  {
    if op < 0x88 {
      AddEffect(s, op);
    } else if op < 0x90 {
      AddWithCarryEffect(s, op);
    } else {
      DispatchAddImmediate(s, op);
      AddImmediateStep(s, op == 0xCE);
    }
  }

  lemma SubStep(s: State, op: byte)
    requires 0x90 <= op < 0x98
    ensures var v := Get8(s, Slot(op, 0));
      var out := ArithmeticLogic(s, op);
      && out.state == s.(a := (s.a - v) % 0x100, f := out.state.f)
      && out.state.f == s.f.(c := v > s.a, h := v % 0x10 > s.a % 0x10, n := true,
                             pv := (s.a >= 0x80) != (v >= 0x80), s := v > s.a, z := s.a == v)
      && out.cycles == (if Slot(op, 0) == 6 then 7 else 4)
  {
    AluOpOfBlock(op);
    Sub8Effect(s.a, Get8(s, Slot(op, 0)), s.f, MASK_ALL);
  }

  /** SUB A,r stores the difference modulo 256. C and S both hold iff the operand is larger (a
      borrow), H iff its low nibble is larger, P/V iff the two differ in bit 7, Z iff they are
      equal, and N is set. Nothing but A and F changes: 4 T-states, 7 for (HL). */
  lemma SubEffect(s: State, op: byte)
    requires 0x90 <= op < 0x98
    ensures var v := Get8(s, Slot(op, 0));
      var out := Execute(s, op);
      && out.state == s.(a := (s.a - v) % 0x100, f := out.state.f)
      && out.state.f == s.f.(c := v > s.a, h := v % 0x10 > s.a % 0x10, n := true,
                             pv := (s.a >= 0x80) != (v >= 0x80), s := v > s.a, z := s.a == v)
      && out.cycles == (if Slot(op, 0) == 6 then 7 else 4)
  {
    DispatchArithmeticLogic(s, op);
    SubStep(s, op);
  }

  lemma SubWithCarryStep(s: State, op: byte)
    requires 0x98 <= op < 0xA0
    ensures var a := (s.a - (if s.f.c then 1 else 0)) % 0x100;
      var v := Get8(s.(a := a), Slot(op, 0));
      var out := ArithmeticLogic(s, op);
      && out.state == s.(a := (a - v) % 0x100, f := out.state.f)
      && out.state.f == s.f.(c := v > a, h := v % 0x10 > a % 0x10, n := true,
                             pv := (a >= 0x80) != (v >= 0x80), s := v > a, z := a == v)
      && out.cycles == (if Slot(op, 0) == 6 then 7 else 4)
  {
    var s1 := s.(a := (s.a - (if s.f.c then 1 else 0)) % 0x100);
    AluOpOfBlock(op);
    Sub8Effect(s1.a, Get8(s1, Slot(op, 0)), s1.f, MASK_ALL);
  }

  /** SBC A,r first takes the carry from A modulo 256 and then subtracts the operand read from
      that state as SUB does, flags included; the borrow of the first subtraction is lost. */
  lemma SubWithCarryEffect(s: State, op: byte)
    requires 0x98 <= op < 0xA0
    ensures var a := (s.a - (if s.f.c then 1 else 0)) % 0x100;
      var v := Get8(s.(a := a), Slot(op, 0));
      var out := Execute(s, op);
      && out.state == s.(a := (a - v) % 0x100, f := out.state.f)
      && out.state.f == s.f.(c := v > a, h := v % 0x10 > a % 0x10, n := true,
                             pv := (a >= 0x80) != (v >= 0x80), s := v > a, z := a == v)
      && out.cycles == (if Slot(op, 0) == 6 then 7 else 4)
  {
    DispatchArithmeticLogic(s, op);
    SubWithCarryStep(s, op);
  }

  lemma CompareStep(s: State, op: byte)
    requires 0xB8 <= op < 0xC0
    ensures var v := Get8(s, Slot(op, 0));
      var out := ArithmeticLogic(s, op);
      && out.state == s.(f := out.state.f)
      && out.state.f == s.f.(c := v > s.a, h := v % 0x10 > s.a % 0x10, n := true,
                             pv := (s.a >= 0x80) != (v >= 0x80), s := v > s.a, z := s.a == v)
      && out.cycles == (if Slot(op, 0) == 6 then 7 else 4)
  {
    AluOpOfBlock(op);
    Sub8Effect(s.a, Get8(s, Slot(op, 0)), s.f, MASK_ALL);
  }

  /** CP A,r subtracts on a copy of A: only F changes, and it takes the flags SUB would give
      (Z iff A equals the operand, C and S iff the operand is larger, N set): 4 T-states, 7 for
      (HL). */
  lemma CompareEffect(s: State, op: byte)
    requires 0xB8 <= op < 0xC0
    ensures var v := Get8(s, Slot(op, 0));
      var out := Execute(s, op);
      && out.state == s.(f := out.state.f)
      && out.state.f == s.f.(c := v > s.a, h := v % 0x10 > s.a % 0x10, n := true,
                             pv := (s.a >= 0x80) != (v >= 0x80), s := v > s.a, z := s.a == v)
      && out.cycles == (if Slot(op, 0) == 6 then 7 else 4)
  {
    DispatchArithmeticLogic(s, op);
    CompareStep(s, op);
  }

  /** The C operator each of AND, XOR and OR applies. */
  function LogicResult(aluOp: AluOp, x: byte, y: byte): byte
  {
    match aluOp
    case AndOp => And8(x, y)
    case XorOp => Xor8(x, y)
    case _ => Or8(x, y)
  }

  /** The logic opcode ranges: 0xA0-0xA7 AND, 0xA8-0xAF XOR, 0xB0-0xB7 OR. */
  function LogicOpOf(op: byte): AluOp
  {
    if op < 0xA8 then AndOp else if op < 0xB0 then XorOp else OrOp
  }

  lemma LogicStep(s: State, v: byte, aluOp: AluOp)
    requires aluOp == AndOp || aluOp == XorOp || aluOp == OrOp
    ensures var r := LogicResult(aluOp, s.a, v);
      var t := Logic(s, v, aluOp);
      && t == s.(a := r, f := t.f)
      && t.f == s.f.(c := false, n := false, h := aluOp == AndOp,
                     z := r == 0, s := r >= 0x80, pv := Parity(r))
  {
    SignZeroParityEffect(LogicResult(aluOp, s.a, v), s.f);
  }

  lemma DispatchLogic(s: State, op: byte)
    requires 0xA0 <= op < 0xB8
    ensures ArithmeticLogic(s, op).state == Logic(s, Get8(s, Slot(op, 0)), LogicOpOf(op))
  {
    assert AluOpOf(op) == LogicOpOf(op);
  }

  /** AND, XOR and OR store A op r; C and N are cleared, H is set for AND only, Z is set iff
      the result is 0, S is its bit 7 and P/V its `__builtin_parity`, which holds for an odd
      number of one bits. F bits 3 and 5 are kept. */
  lemma LogicEffect(s: State, op: byte)
    requires 0xA0 <= op < 0xB8
    ensures var r := LogicResult(LogicOpOf(op), s.a, Get8(s, Slot(op, 0)));
      var t := Execute(s, op).state;
      && t == s.(a := r, f := t.f)
      && t.f == s.f.(c := false, n := false, h := op < 0xA8,
                     z := r == 0, s := r >= 0x80, pv := Parity(r))
  {
    DispatchArithmeticLogic(s, op);
    DispatchLogic(s, op);
    LogicStep(s, Get8(s, Slot(op, 0)), LogicOpOf(op));
  }

  /** Every instruction of the 0x80-0xBF block, ADD to CP, takes 4 T-states, and 7 when its
      operand is (HL). */
  lemma ArithmeticLogicCycles(s: State, op: byte)
    requires 0x80 <= op < 0xC0
    ensures Execute(s, op).cycles == (if Slot(op, 0) == 6 then 7 else 4)
  {
    DispatchArithmeticLogic(s, op);
  }

  lemma ExclusiveOrSelfValue(s: State)
    ensures LogicResult(LogicOpOf(0xAF), s.a, Get8(s, Slot(0xAF, 0))) == 0
  {
    assert Slot(0xAF, 0) == 7;
    Xor8Self(s.a);
  }

  /** XOR A clears A and sets Z; with the odd-parity P/V the flag ends up clear, where the
      even parity of the Z80 would set it. */
  lemma ExclusiveOrSelf(s: State)
    ensures var t := Execute(s, 0xAF).state;
      t.a == 0 && t.f.z && !t.f.pv && !t.f.s && !t.f.c && !t.f.h && !t.f.n
  {
    LogicEffect(s, 0xAF);
    ExclusiveOrSelfValue(s);
    assert !Parity(0);
  }

  // ---------------------------------------------------------------- 16-bit addition

  lemma DispatchAddHLPair(s: State, op: byte)
    requires IsAddHLPair(op)
    ensures Execute(s, op) == AddHLPair(s, op)
  {
  }

  /** ADD HL,ss adds the pair (HL itself for 0x29) to HL modulo 65536; C is the carry out of
      bit 15, H and N are cleared and S, Z and P/V are kept: 11 T-states. */
  lemma AddHLPairEffect(s: State, op: byte)
    requires IsAddHLPair(op)
    ensures var v := GetPair(s, PairIndex(op));
      Execute(s, op) ==
        Outcome(s.(hl := (s.hl + v) % 0x1_0000,
                   f := s.f.(c := s.hl + v >= 0x1_0000, h := false, n := false)), 11)
  {
    DispatchAddHLPair(s, op);
    Add16Effect(s.hl, GetPair(s, PairIndex(op)), s.f, MASK_ALL);
  }

  // ---------------------------------------------------------------- CPL, SCF, CCF, NOP

  /** CPL (0x2F) turns every bit of A over and sets N and H: 4 T-states. */
  lemma ComplementEffect(s: State)
    ensures var out := Execute(s, 0x2F);
      && (forall k | 0 <= k < 8 :: Bit(out.state.a, k) == !Bit(s.a, k))
      && out.state == s.(a := out.state.a, f := s.f.(n := true, h := true))
      && out.cycles == 4
  {
    forall k | 0 <= k < 8 ensures Bit(Not8(s.a), k) == !Bit(s.a, k) {
      Not8Bit(s.a, k);
    }
  }

  /** Two CPLs give A back. */
  lemma ComplementTwice(s: State)
    ensures Execute(Execute(s, 0x2F).state, 0x2F).state.a == s.a
  {
    ComplementEffect(s);
    var t := Execute(s, 0x2F).state;
    ComplementEffect(t);
    var u := Execute(t, 0x2F).state;
    forall k | 0 <= k < 8 ensures Bit(u.a, k) == Bit(s.a, k) {
    }
    BytesEqualByBits(u.a, s.a);
  }

  /** SCF (0x37) sets C and clears N and H; CCF (0x3F) moves the old carry to H, inverts C and
      clears N. Both take 4 T-states and change only F. */
  lemma CarryFlagEffects(s: State)
    ensures Execute(s, 0x37) == Outcome(s.(f := s.f.(c := true, n := false, h := false)), 4)
    ensures Execute(s, 0x3F) == Outcome(s.(f := s.f.(h := s.f.c, c := !s.f.c, n := false)), 4)
  {
  }

  /** Two CCFs give C back. */
  lemma ComplementCarryTwice(s: State)
    ensures Execute(Execute(s, 0x3F).state, 0x3F).state.f.c == s.f.c
  {
    CarryFlagEffects(s);
    CarryFlagEffects(Execute(s, 0x3F).state);
  }

  /** NOP (0x00) changes nothing and takes 4 T-states. */
  lemma NopEffect(s: State)
    ensures Execute(s, 0x00) == Outcome(s, 4)
  {
  }

  // ---------------------------------------------------------------- rotates

  lemma RotateLeftStep(s: State, throughCarry: bool)
    ensures var b := if throughCarry then s.f.c else s.a >= 0x80;
      Rotate(s, true, throughCarry) ==
        Outcome(s.(a := (s.a * 2) % 0x100 + (if b then 1 else 0),
                   f := s.f.(c := s.a >= 0x80, h := false, n := false)), 4)
  {
    Left8Effect(s.a, MASK_ALL, if throughCarry then s.f.c else s.a >= 0x80, s.f);
  }

  lemma RotateRightStep(s: State, throughCarry: bool)
    ensures var b := if throughCarry then s.f.c else s.a % 2 == 1;
      Rotate(s, false, throughCarry) ==
        Outcome(s.(a := s.a / 2 + (if b then 0x80 else 0),
                   f := s.f.(c := s.a % 2 == 1, h := false, n := false)), 4)
  {
    Right8Effect(s.a, MASK_ALL, if throughCarry then s.f.c else s.a % 2 == 1, s.f);
  }

  /** RLCA (0x07) and RLA (0x17) shift A left; bit 0 receives the old bit 7 (RLCA) or the old
      carry (RLA), C receives the old bit 7, H and N are cleared and S, Z and P/V are kept. */
  lemma RotateLeftEffect(s: State, op: byte)
    requires op == 0x07 || op == 0x17
    ensures var b := if op == 0x17 then s.f.c else s.a >= 0x80;
      Execute(s, op) == Outcome(s.(a := (s.a * 2) % 0x100 + (if b then 1 else 0),
                                   f := s.f.(c := s.a >= 0x80, h := false, n := false)), 4)
  {
    DispatchRotateLeft(s, op);
    RotateLeftStep(s, op == 0x17);
  }

  /** RRCA (0x0F) and RRA (0x1F) shift A right; bit 7 receives the old bit 0 (RRCA) or the old
      carry (RRA), C receives the old bit 0, H and N are cleared and S, Z and P/V are kept. */
  lemma RotateRightEffect(s: State, op: byte)
    requires op == 0x0F || op == 0x1F
    ensures var b := if op == 0x1F then s.f.c else s.a % 2 == 1;
      Execute(s, op) == Outcome(s.(a := s.a / 2 + (if b then 0x80 else 0),
                                   f := s.f.(c := s.a % 2 == 1, h := false, n := false)), 4)
  {
    DispatchRotateRight(s, op);
    RotateRightStep(s, op == 0x1F);
  }

  /** The state after the same opcode is executed n times in a row. */
  function Repeat(s: State, op: byte, n: nat): State
    decreases n
  {
    if n == 0 then s else Repeat(Execute(s, op).state, op, n - 1)
  }

  /** The byte RLCA leaves in A: bit 7 wraps round to bit 0. */
  function RotateLeftCircular(x: byte): byte
  {
    (x * 2) % 0x100 + (if x >= 0x80 then 1 else 0)
  }

  lemma RotateLowBits(x: byte, k: nat)
    requires k < 7
    ensures Bit(RotateLeftCircular(x), k + 1) == Bit(x, k)
  {
    var low, high := x % 0x80, x / 0x80;
    assert RotateLeftCircular(x) == 2 * low + high;
    HalfBits(low, high, k);
    assert Pow2(7) == 0x80;
    AddTopBit(low, 7, k);
    assert x == low || x == low + Pow2(7);
  }

  lemma RotateTopBit(x: byte)
    ensures Bit(RotateLeftCircular(x), 0) == Bit(x, 7)
  {
    TopAndBottomBits(x);
  }

  /** RLCA moves bit k of A to bit k + 1, and bit 7 round to bit 0. */
  lemma RotateLeftCircularBits(x: byte, k: nat)
    requires k < 8
    ensures Bit(RotateLeftCircular(x), (k + 1) % 8) == Bit(x, k)
  {
    if k < 7 {
      assert (k + 1) % 8 == k + 1;
      RotateLowBits(x, k);
    } else {
      assert (k + 1) % 8 == 0;
      RotateTopBit(x);
    }
  }

  /** `RotateLeftCircular` applied n times. */
  function Rotations(x: byte, n: nat): byte
    decreases n
  {
    if n == 0 then x else Rotations(RotateLeftCircular(x), n - 1)
  }

  lemma ShiftIndex(k: nat, n: nat)
    requires k < 8 && n > 0
    ensures ((k + 1) % 8 + (n - 1)) % 8 == (k + n) % 8
  {
    if k == 7 {
      assert (k + n) % 8 == (n - 1 + 8) % 8;
    }
  }

  /** After n rotations bit k of the byte sits at bit (k + n) mod 8. */
  lemma {:induction false} RotationsBits(x: byte, n: nat, k: nat)
    requires k < 8
    ensures Bit(Rotations(x, n), (k + n) % 8) == Bit(x, k)
    decreases n
  {
    if n > 0 {
      RotateLeftCircularBits(x, k);
      RotationsBits(RotateLeftCircular(x), n - 1, (k + 1) % 8);
      ShiftIndex(k, n);
    }
  }

  /** Any multiple of eight rotations gives the byte back. */
  lemma RotationsPeriod(x: byte, n: nat)
    requires n % 8 == 0
    ensures Rotations(x, n) == x
  {
    forall k | 0 <= k < 8 ensures Bit(Rotations(x, n), k) == Bit(x, k) {
      RotationsBits(x, n, k);
      assert (k + n) % 8 == k;
    }
    BytesEqualByBits(Rotations(x, n), x);
  }

  lemma RepeatRotateStep(s: State, n: nat)
    requires n > 0
    ensures Repeat(s, 0x07, n).a == Repeat(Execute(s, 0x07).state, 0x07, n - 1).a
    ensures Execute(s, 0x07).state.a == RotateLeftCircular(s.a)
  {
    RotateLeftEffect(s, 0x07);
  }

  lemma RepeatRotateUnfold(s: State, n: nat)
    requires n > 0
    requires Repeat(Execute(s, 0x07).state, 0x07, n - 1).a ==
      Rotations(Execute(s, 0x07).state.a, n - 1)
    ensures Repeat(s, 0x07, n).a == Rotations(s.a, n)
  {
    RepeatRotateStep(s, n);
  }

  /** n RLCAs in a row leave in A the byte rotated n times. */
  lemma {:induction false} RepeatRotations(s: State, n: nat)
    ensures Repeat(s, 0x07, n).a == Rotations(s.a, n)
    decreases n
  {
    if n > 0 {
      RepeatRotations(Execute(s, 0x07).state, n - 1);
      RepeatRotateUnfold(s, n);
    }
  }

  /** Eight RLCAs in a row give A back. */
  lemma EightRotatesRestoreA(s: State)
    ensures Repeat(s, 0x07, 8).a == s.a
  {
    RepeatRotations(s, 8);
    RotationsPeriod(s.a, 8);
  }

  // ---------------------------------------------------------------- DAA

  /** With A split as `div(A, 8)` the remainder is below 8, so of the thirteen rows only the
      two that compare it with 0x03 can match: A = 0x4B and A = 0x1B, with H set and C clear. */
  lemma DecimalAdjustRows(c: bool, hc: bool, a: byte)
    ensures DaaRow(c, hc, a / 8, a % 8) ==
      if !c && hc && a == 0x4B then Adjust(0x06, false)
      else if !c && hc && a == 0x1B then Adjust(0x66, true)
      else NoAdjust
  {
    assert a % 8 < 8;
    if a / 8 == 0x09 && a % 8 == 0x03 {
      assert a == 0x4B;
    }
    if a / 8 == 0x03 && a % 8 == 0x03 {
      assert a == 0x1B;
    }
  }

  lemma DispatchDecimalAdjust(s: State)
    ensures Execute(s, 0x27) == DecimalAdjust(s)
  {
  }

  /** DAA as written changes A only when A is 0x4B or 0x1B with H set and C clear (to 0x51 with
      C cleared, or 0x81 with C set); in every case S, Z and P/V are then recomputed from A. */
  lemma DecimalAdjustEffect(s: State)
    ensures var fires := !s.f.c && s.f.h && (s.a == 0x4B || s.a == 0x1B);
      var a := if !fires then s.a else if s.a == 0x4B then 0x51 else 0x81;
      var c := if !fires then s.f.c else s.a == 0x1B;
      Execute(s, 0x27) == Outcome(s.(a := a, f := SignZeroParity(a, s.f.(c := c))), 4)
  {
    DispatchDecimalAdjust(s);
    DecimalAdjustRows(s.f.c, s.f.h, s.a);
  }
}
