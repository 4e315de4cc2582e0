/** `z80_execute` over the unprefixed opcode page, the two interrupt handlers, `z80_run_one`
    and `z80_reset`, as functions from a state to an `Outcome`. Each group of cases of the C
    switch is one function; `Execute` dispatches on the opcode as the switch does, and an opcode
    with no case takes the `default` branch: nothing changes and 0 T-states are returned. */
module Interpreter {
  import opened Bits
  import opened Alu
  import opened Machine

  // ---------------------------------------------------------------- opcode groups

  /** LD dd,nn: 0x01, 0x11, 0x21, 0x31. */
  predicate IsLoadPairImmediate(op: byte) { op % 16 == 0x01 && op < 0x40 }
  /** INC ss: 0x03, 0x13, 0x23, 0x33. */
  predicate IsIncPair(op: byte) { op % 16 == 0x03 && op < 0x40 }
  /** DEC ss: 0x0B, 0x1B, 0x2B, 0x3B. */
  predicate IsDecPair(op: byte) { op % 16 == 0x0B && op < 0x40 }
  /** ADD HL,ss: 0x09, 0x19, 0x29, 0x39. */
  predicate IsAddHLPair(op: byte) { op % 16 == 0x09 && op < 0x40 }
  /** INC r: 0x04, 0x0C, ..., 0x3C. */
  predicate IsIncReg(op: byte) { op % 8 == 0x04 && op < 0x40 }
  /** DEC r: 0x05, 0x0D, ..., 0x3D. */
  predicate IsDecReg(op: byte) { op % 8 == 0x05 && op < 0x40 }
  /** LD r,n: 0x06, 0x0E, ..., 0x3E. */
  predicate IsLoadRegImmediate(op: byte) { op % 8 == 0x06 && op < 0x40 }
  /** JR cc: 0x20, 0x28, 0x30, 0x38. */
  predicate IsJumpRelCondition(op: byte) { op == 0x20 || op == 0x28 || op == 0x30 || op == 0x38 }
  /** LD r,r': 0x40 to 0x7F except 0x76. */
  predicate IsLoadRegReg(op: byte) { 0x40 <= op < 0x80 && op != 0x76 }
  /** POP qq: 0xC1, 0xD1, 0xE1, 0xF1. */
  predicate IsPop(op: byte) { op % 16 == 0x01 && op >= 0xC0 }
  /** PUSH qq: 0xC5, 0xD5, 0xE5, 0xF5. */
  predicate IsPush(op: byte) { op % 16 == 0x05 && op >= 0xC0 }

  /** The 8-bit arithmetic and logic block 0x80-0xBF: ADD, ADC, SUB, SBC, AND, XOR, OR, CP. */
  datatype AluOp = AddOp | AdcOp | SubOp | SbcOp | AndOp | XorOp | OrOp | CpOp

  function AluOpOf(op: byte): AluOp
    requires 0x80 <= op < 0xC0
  {
    match (op - 0x80) / 8
    case 0 => AddOp
    case 1 => AdcOp
    case 2 => SubOp
    case 3 => SbcOp
    case 4 => AndOp
    case 5 => XorOp
    case 6 => OrOp
    case 7 => CpOp
  }

  // ---------------------------------------------------------------- opcode semantics

  /** LD dd,nn. */
  function LoadPairImmediate(s: State, op: byte): Outcome
  {
    var (v, s1) := Next16(s);
    Outcome(SetPair(s1, PairIndex(op), v), 10)
  }

  /** INC ss and DEC ss: the pair plus or minus one through the 16-bit helpers, with
      `MASK_NONE`. */
  function IncDecPair(s: State, op: byte, inc: bool): Outcome
  {
    var p := PairIndex(op);
    Outcome(if inc then Add16WithFlags(s, p, 1, MASK_NONE) else Sub16WithFlags(s, p, 1, MASK_NONE), 6)
  }

  /** INC r and DEC r: the slot plus or minus one through the 8-bit helpers, with
      `MASK_SZHVN`; (HL) costs 7 more. */
  function IncDecReg(s: State, op: byte, inc: bool): Outcome
  {
    var i := Slot(op, 3);
    Outcome(if inc then Add8WithFlags(s, i, 1, MASK_SZHVN) else Sub8WithFlags(s, i, 1, MASK_SZHVN),
            4 + SlotCost(i, 7))
  }

  /** LD r,n: (HL) costs 3 more. */
  function LoadRegImmediate(s: State, op: byte): Outcome
  {
    var i := Slot(op, 3);
    var (n, s1) := Next8(s);
    Outcome(Set8(s1, i, n), 7 + SlotCost(i, 3))
  }

  /** RLCA, RRCA, RLA and RRA: A shifted through the shift helpers with `MASK_ALL`; the bit
      shifted in is A's own outgoing bit (RLCA, RRCA) or the old carry (RLA, RRA). */
  function Rotate(s: State, left: bool, throughCarry: bool): Outcome
  {
    var b := if throughCarry then s.f.c else if left then TopBit(s.a) else BottomBit(s.a);
    Outcome(if left then Left8WithFlags(s, MASK_ALL, b) else Right8WithFlags(s, MASK_ALL, b), 4)
  }

  /** EX AF,AF' (`register_exchange16`). */
  function ExchangeAF(s: State): Outcome
  {
    Outcome(s.(a := s.a2, f := s.f2, a2 := s.a, f2 := s.f), 4)
  }

  /** ADD HL,ss, through the 16-bit helper with `MASK_ALL`. */
  function AddHLPair(s: State, op: byte): Outcome
  {
    Outcome(Add16WithFlags(s, 2, GetPair(s, PairIndex(op)), MASK_ALL), 11)
  }

  /** DJNZ: B counts down modulo 256 and the jump is taken unless it reached zero. */
  function DecrementJumpNonZero(s: State): Outcome
  {
    var (d, s1) := Next8(s);
    var b := (High(s1.bc) - 1) % 0x100;
    var s2 := s1.(bc := Word(b, Low(s1.bc)));
    if b == 0 then Outcome(s2, 8) else Outcome(s2.(pc := Add16Wrap(s2.pc, Signed8(d))), 13)
  }

  /** The table of `div(A, 8)` rows of the DAA case: the value added to A and the new carry,
      or nothing when no row matches. */
  datatype Adjust = Adjust(add: byte, carry: bool) | NoAdjust

  function DaaRow(c: bool, hc: bool, quot: int, rem: int): Adjust
  {
    if !c && !hc && quot == 0x90 && rem == 0x09 then Adjust(0x00, false)
    else if !c && !hc && quot == 0x08 && rem == 0xAF then Adjust(0x06, false)
    else if !c && hc && quot == 0x09 && rem == 0x03 then Adjust(0x06, false)
    else if !c && !hc && quot == 0xAF && rem == 0x09 then Adjust(0x60, true)
    else if !c && !hc && quot == 0x9F && rem == 0xAF then Adjust(0x66, true)
    else if !c && hc && quot == 0xAF && rem == 0x03 then Adjust(0x66, true)
    else if c && !hc && quot == 0x02 && rem == 0x09 then Adjust(0x60, true)
    else if c && !hc && quot == 0x02 && rem == 0xAF then Adjust(0x66, true)
    else if !c && hc && quot == 0x03 && rem == 0x03 then Adjust(0x66, true)
    else if !c && !hc && quot == 0x09 && rem == 0x09 then Adjust(0x00, false)
    else if !c && hc && quot == 0x08 && rem == 0x6F then Adjust(0xFA, false)
    else if c && !hc && quot == 0x7F && rem == 0x09 then Adjust(0xA0, true)
    else if c && hc && quot == 0x67 && rem == 0x6F then Adjust(0x9A, true)
    else NoAdjust
  }

  /** DAA as written: A is split as `div(A, 8)`, a matching row adds to A and sets C, and S, Z
      and P/V are then recomputed from A. */
  function DecimalAdjust(s: State): Outcome
  {
    var s1 := match DaaRow(s.f.c, s.f.h, s.a / 8, s.a % 8)
      case Adjust(add, carry) => s.(a := (s.a + add) % 0x100, f := s.f.(c := carry))
      case NoAdjust => s;
    Outcome(SetFlagsSZP(s1), 4)
  }

  /** CPL: A is complemented, N and H are set. */
  function Complement(s: State): Outcome
  {
    Outcome(s.(a := Not8(s.a), f := s.f.(n := true, h := true)), 4)
  }

  /** SCF: C is set, N and H cleared. */
  function SetCarry(s: State): Outcome
  {
    Outcome(s.(f := s.f.(c := true, n := false, h := false)), 4)
  }

  /** CCF: H takes the old carry, C is inverted, N cleared. */
  function ComplementCarry(s: State): Outcome
  {
    Outcome(s.(f := s.f.(h := s.f.c, c := !s.f.c, n := false)), 4)
  }

  /** LD r,r': each (HL) operand costs 3 more. */
  function LoadRegReg(s: State, op: byte): Outcome
  {
    var i, j := Slot(op, 3), Slot(op, 0);
    Outcome(Set8(s, i, Get8(s, j)), 4 + SlotCost(i, 3) + SlotCost(j, 3))
  }

  /** The logic operations: the new A, then S, Z and P/V from it, then N and C cleared and H
      set for AND only. */
  function Logic(s: State, v: byte, aluOp: AluOp): State
    requires aluOp == AndOp || aluOp == XorOp || aluOp == OrOp
  {
    var a := match aluOp
      case AndOp => And8(s.a, v)
      case XorOp => Xor8(s.a, v)
      case OrOp => Or8(s.a, v);
    var s1 := SetFlagsSZP(s.(a := a));
    s1.(f := s1.f.(n := false, c := false, h := aluOp == AndOp))
  }

  /** ADD A,r ... CP A,r (0x80-0xBF) with the operand in slot j; (HL) costs 3 more. ADC and
      SBC first fold the carry into A, and only then is the operand read, so ADC A,A and
      SBC A,A see the adjusted A. CP runs the subtraction on a copy of A. */
  function ArithmeticLogic(s: State, op: byte): Outcome
    requires 0x80 <= op < 0xC0
  {
    var j := Slot(op, 0);
    var t := 4 + SlotCost(j, 3);
    match AluOpOf(op)
    case AddOp => Outcome(Add8WithFlags(s, 7, Get8(s, j), MASK_ALL), t)
    case AdcOp =>
      var s1 := s.(a := (s.a + (if s.f.c then 1 else 0)) % 0x100);
      Outcome(Add8WithFlags(s1, 7, Get8(s1, j), MASK_ALL), t)
    case SubOp => Outcome(Sub8WithFlags(s, 7, Get8(s, j), MASK_ALL), t)
    case SbcOp =>
      var s1 := s.(a := (s.a - (if s.f.c then 1 else 0)) % 0x100);
      Outcome(Sub8WithFlags(s1, 7, Get8(s1, j), MASK_ALL), t)
    case CpOp =>
      Outcome(s.(f := Sub8(s.a, Get8(s, j), s.f, MASK_ALL).flags), t)
    case AndOp => Outcome(Logic(s, Get8(s, j), AndOp), t)
    case XorOp => Outcome(Logic(s, Get8(s, j), XorOp), t)
    case OrOp => Outcome(Logic(s, Get8(s, j), OrOp), t)
  }

  /** ADD A,n (0xC6) and ADC A,n (0xCE), where ADC first folds the carry into A. */
  function AddImmediate(s: State, withCarry: bool): Outcome
  {
    var s1 := if withCarry then s.(a := (s.a + (if s.f.c then 1 else 0)) % 0x100) else s;
    var (n, s2) := Next8(s1);
    Outcome(Add8WithFlags(s2, 7, n, MASK_ALL), 7)
  }

  /** POP qq; qq = 3 is AF, whose low byte becomes F. */
  function Pop(s: State, op: byte): Outcome
  {
    var (v, s1) := Pop16(s);
    Outcome(SetPairAF(s1, PairIndex(op), v), 4)
  }

  /** PUSH qq; qq = 3 is AF, with F as its low byte. */
  function Push(s: State, op: byte): Outcome
  {
    Outcome(Push16(s, GetPairAF(s, PairIndex(op))), 10)
  }

  /** RST p: only 0xC7 has a case, and `z80_rst_addr[0]` is 0. */
  function Restart(s: State): Outcome
  {
    Outcome(Push16(s, s.pc).(pc := 0x00), 11)
  }

  /** The CB prefix: the second opcode is fetched, and every one of them fails with 0. */
  function PrefixCB(s: State): Outcome
  {
    var (_, s1) := FetchOpcode(s);
    Outcome(s1, 0)
  }

  /** Whether `z80_execute` has a case for the opcode. */
  predicate Implemented(op: byte)
  {
    op == 0x00 || IsLoadPairImmediate(op) || op == 0x02 || IsIncPair(op) || IsIncReg(op) ||
    IsDecReg(op) || IsLoadRegImmediate(op) || op == 0x07 || op == 0x08 || IsAddHLPair(op) ||
    op == 0x0A || IsDecPair(op) || op == 0x0F || op == 0x10 || op == 0x12 || op == 0x17 ||
    op == 0x18 || op == 0x1A || op == 0x1F || IsJumpRelCondition(op) || op == 0x22 ||
    op == 0x27 || op == 0x2A || op == 0x2F || op == 0x32 || op == 0x37 || op == 0x3A ||
    op == 0x3F || IsLoadRegReg(op) || 0x80 <= op < 0xC0 || op == 0xC0 || op == 0xC8 ||
    IsPop(op) || op == 0xC2 || op == 0xCA || op == 0xC3 || op == 0xC4 || op == 0xCC ||
    IsPush(op) || op == 0xC6 || op == 0xC7 || op == 0xC9 || op == 0xCB || op == 0xCD ||
    op == 0xCE
  }

  /** `z80_execute`: runs one opcode that has already been fetched. */
  function Execute(s: State, op: byte): Outcome
  {
    if op == 0x00 then Outcome(s, 4)
    else if IsLoadPairImmediate(op) then LoadPairImmediate(s, op)
    else if op == 0x02 then Outcome(Write8(s, s.bc, s.a), 7)
    else if IsIncPair(op) then IncDecPair(s, op, true)
    else if IsIncReg(op) then IncDecReg(s, op, true)
    else if IsDecReg(op) then IncDecReg(s, op, false)
    else if IsLoadRegImmediate(op) then LoadRegImmediate(s, op)
    else if op == 0x07 then Rotate(s, true, false)
    else if op == 0x08 then ExchangeAF(s)
    else if IsAddHLPair(op) then AddHLPair(s, op)
    else if op == 0x0A then Outcome(s.(a := Read8(s, s.bc)), 7)
    else if IsDecPair(op) then IncDecPair(s, op, false)
    else if op == 0x0F then Rotate(s, false, false)
    else if op == 0x10 then DecrementJumpNonZero(s)
    else if op == 0x12 then Outcome(Write8(s, s.de, s.a), 7)
    else if op == 0x17 then Rotate(s, true, true)
    else if op == 0x18 then JumpRelWithCondition(s, true)
    else if op == 0x1A then Outcome(s.(a := Read8(s, s.de)), 7)
    else if op == 0x1F then Rotate(s, false, true)
    else if IsJumpRelCondition(op) then JumpRelWithCondition(s, DecodeCondition(s.f, op))
    else if op == 0x22 then
      var (addr, s1) := Next16(s);
      Outcome(Write16(s1, addr, s1.hl), 16)
    else if op == 0x27 then DecimalAdjust(s)
    else if op == 0x2A then
      var (addr, s1) := Next16(s);
      Outcome(s1.(hl := Read16(s1, addr)), 16)
    else if op == 0x2F then Complement(s)
    else if op == 0x32 then
      var (addr, s1) := Next16(s);
      Outcome(Write8(s1, addr, s1.a), 16)
    else if op == 0x37 then SetCarry(s)
    else if op == 0x3A then
      var (addr, s1) := Next16(s);
      Outcome(s1.(a := Read8(s1, addr)), 13)
    else if op == 0x3F then ComplementCarry(s)
    else if IsLoadRegReg(op) then LoadRegReg(s, op)
    else if 0x80 <= op < 0xC0 then ArithmeticLogic(s, op)
    else if op == 0xC0 || op == 0xC8 then RetWithCondition(s, DecodeCondition(s.f, op))
    else if IsPop(op) then Pop(s, op)
    else if op == 0xC2 || op == 0xCA then JumpWithCondition(s, DecodeCondition(s.f, op))
    else if op == 0xC3 then JumpWithCondition(s, true)
    else if op == 0xC4 || op == 0xCC then CallWithCondition(s, DecodeCondition(s.f, op))
    else if IsPush(op) then Push(s, op)
    else if op == 0xC6 then AddImmediate(s, false)
    else if op == 0xC7 then Restart(s)
    else if op == 0xC9 then Outcome(RetWithCondition(s, true).state, 10)
    else if op == 0xCB then PrefixCB(s)
    else if op == 0xCD then CallWithCondition(s, true)
    else if op == 0xCE then AddImmediate(s, true)
    else Outcome(s, 0)
  }

  // ---------------------------------------------------------------- interrupts

  /** `z80_nonmaskable_interrupt`: IFF1 is saved in IFF2 and cleared, and the PC is pushed
      before the jump to 0x66. */
  function Nmi(s: State): Outcome
  {
    var s1 := s.(iff2 := s.iff1, iff1 := false);
    Outcome(Push16(s1, s1.pc).(pc := 0x66), 11)
  }

  /** `z80_maskable_interrupt`: both latches are cleared; mode 0 executes the byte on the data
      bus for 2 more T-states, mode 1 calls 0x38 and mode 2 calls through the table word at
      (I << 8) | data bus. */
  function Maskable(s: State): Outcome
  {
    var s1 := s.(iff1 := false, iff2 := false);
    if s1.imode == 0 then
      var s2 := MemoryRefresh(s1);
      var out := Execute(s2, s2.dataBus);
      Outcome(out.state, out.cycles + 2)
    else if s1.imode == 1 then
      Outcome(Push16(s1, s1.pc).(pc := 0x38), 13)
    else if s1.imode == 2 then
      var s2 := Push16(s1, s1.pc);
      Outcome(s2.(pc := Read16(s2, Word(s2.i, s2.dataBus))), 19)
    else
      Outcome(s1, 0)
  }

  /** `z80_run_one`: a pending NMI first, then a pending maskable request (which is dropped
      when IFF1 is clear), then the next instruction. */
  function RunOne(s: State): Outcome
  {
    if s.nmiRequest then
      Nmi(s.(nmiRequest := false))
    else if s.intRequest then
      var s1 := s.(intRequest := false);
      if s1.iff1 then Maskable(s1) else Outcome(s1, 0)
    else if s.canExecute then
      var (op, s1) := FetchOpcode(s);
      Execute(s1, op)
    else
      Outcome(s, 0)
  }

  /** `z80_reset`: AF and SP become 0xFFFF, PC and R 0, interrupts off, mode 0. The other
      registers and memory are left as they are. */
  function Reset(s: State): State
  {
    s.(nmiRequest := false, intRequest := false, iff1 := false, iff2 := false,
       canExecute := true, imode := 0, a := 0xFF, f := FromByte(0xFF), sp := 0xFFFF,
       pc := 0x0000, r := 0x00)
  }
}
