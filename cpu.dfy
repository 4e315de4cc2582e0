/** The C engine as it runs: the register unions, the latches and the `memory[]` array are
    fields of one object that the helpers update in place. Every method is proved to leave the
    object in the state the corresponding function of `Machine` or `Interpreter` computes from
    the state before, and to return the value that function returns. */
module Cpu {
  import opened Bits
  import opened Alu
  import opened Machine
  import opened Interpreter

  class Z80 {
    var a: byte
    var f: Flags
    var bc: word
    var de: word
    var hl: word
    var sp: word
    var pc: word
    var a2: byte
    var f2: Flags
    var i: byte
    var r: byte
    var dataBus: byte
    const memory: array<byte>
    var spill: byte
    var iff1: bool
    var iff2: bool
    var imode: int
    var canExecute: bool
    var nmiRequest: bool
    var intRequest: bool

    ghost predicate Valid()
      reads this
    {
      memory.Length == MEMORY_SIZE
    }

    /** The whole state, as the functions of `Machine` see it. */
    ghost function State(): Machine.State
      reads this, memory
      requires Valid()
    {
      Machine.State(a, f, bc, de, hl, sp, pc, a2, f2, i, r, dataBus, memory[..], spill,
                    iff1, iff2, imode, canExecute, nmiRequest, intRequest)
    }

    /** `memory_load_rom` without the file: the image is copied to address 0 over zeroed
        memory, and every register and latch starts at zero as C globals do. */
    constructor(rom: seq<byte>)
      requires |rom| <= MEMORY_SIZE
      ensures Valid() && fresh(memory)
      ensures State() == PowerOn(rom)
    {
      a, f, bc, de, hl, sp, pc := 0, FromByte(0), 0, 0, 0, 0, 0;
      a2, f2, i, r, dataBus, spill := 0, FromByte(0), 0, 0, 0, 0;
      iff1, iff2, imode, canExecute, nmiRequest, intRequest := false, false, 0, false, false, false;
      var m := new byte[MEMORY_SIZE](_ => 0);
      var k := 0;
      while k < |rom|
        invariant 0 <= k <= |rom|
        invariant m[..] == rom[..k] + seq(MEMORY_SIZE - k, _ => 0)
      {
        m[k] := rom[k];
        k := k + 1;
      }
      memory := m;
    }

    /** `memory_read8`. */
    function Read8(addr: word): (v: byte)
      reads this, memory
      requires Valid()
      ensures v == Machine.Read8(State(), addr)
    {
      memory[addr]
    }

    /** `memory_write8`. */
    method Write8(addr: word, v: byte)
      requires Valid()
      modifies memory
      ensures Valid() && State() == Machine.Write8(old(State()), addr, v)
    {
      memory[addr] := v;
    }

    /** `memory_read16`. */
    function Read16(addr: word): (v: word)
      reads this, memory
      requires Valid()
      ensures v == Machine.Read16(State(), addr)
    {
      Word(if addr == 0xFFFF then spill else memory[addr + 1], memory[addr])
    }

    /** `memory_write16`. */
    method Write16(addr: word, v: word)
      requires Valid()
      modifies this, memory
      ensures Valid() && State() == Machine.Write16(old(State()), addr, v)
    {
      memory[addr] := Low(v);
      if addr == 0xFFFF {
        spill := High(v);
      } else {
        memory[addr + 1] := High(v);
      }
    }

    /** `z80_memory_refresh`. */
    method MemoryRefresh()
      requires Valid()
      modifies this
      ensures Valid() && State() == Machine.MemoryRefresh(old(State()))
    {
      r := (r + 1) % 0x80;
    }

    /** `z80_next8`. */
    method Next8() returns (v: byte)
      requires Valid()
      modifies this
      ensures Valid() && (v, State()) == Machine.Next8(old(State()))
    {
      v := memory[pc];
      pc := Add16Wrap(pc, 1);
    }

    /** `z80_next16`. */
    method Next16() returns (v: word)
      requires Valid()
      modifies this
      ensures Valid() && (v, State()) == Machine.Next16(old(State()))
    {
      v := Read16(pc);
      pc := Add16Wrap(pc, 2);
    }

    /** `z80_push16`. */
    method Push16(v: word)
      requires Valid()
      modifies this, memory
      ensures Valid() && State() == Machine.Push16(old(State()), v)
    {
      sp := Add16Wrap(sp, -2);
      Write16(sp, v);
    }

    /** `z80_pop16`. */
    method Pop16() returns (v: word)
      requires Valid()
      modifies this
      ensures Valid() && (v, State()) == Machine.Pop16(old(State()))
    {
      v := Read16(sp);
      sp := Add16Wrap(sp, 2);
    }

    /** `z80_fetch_opcode`. */
    method FetchOpcode() returns (op: byte)
      requires Valid()
      modifies this
      ensures Valid() && (op, State()) == Machine.FetchOpcode(old(State()))
    {
      MemoryRefresh();
      op := Next8();
    }

    // -------------------------------------------------------------- single-register stores

    method SetA(v: byte)
      requires Valid()
      modifies this
      ensures Valid() && State() == old(State()).(a := v)
    {
      a := v;
    }

    method SetF(g: Flags)
      requires Valid()
      modifies this
      ensures Valid() && State() == old(State()).(f := g)
    {
      f := g;
    }

    method SetBC(w: word)
      requires Valid()
      modifies this
      ensures Valid() && State() == old(State()).(bc := w)
    {
      bc := w;
    }

    method SetDE(w: word)
      requires Valid()
      modifies this
      ensures Valid() && State() == old(State()).(de := w)
    {
      de := w;
    }

    method SetHL(w: word)
      requires Valid()
      modifies this
      ensures Valid() && State() == old(State()).(hl := w)
    {
      hl := w;
    }

    method SetSP(w: word)
      requires Valid()
      modifies this
      ensures Valid() && State() == old(State()).(sp := w)
    {
      sp := w;
    }

    method SetPC(w: word)
      requires Valid()
      modifies this
      ensures Valid() && State() == old(State()).(pc := w)
    {
      pc := w;
    }

    method SetIff(v1: bool, v2: bool)
      requires Valid()
      modifies this
      ensures Valid() && State() == old(State()).(iff1 := v1, iff2 := v2)
    {
      iff1, iff2 := v1, v2;
    }

    // -------------------------------------------------------------- registers

    /** A read through the pointer `z80_decode_reg8` returns. */
    function Get8(k: int): (v: byte)
      reads this, memory
      requires Valid() && 0 <= k < 8
      ensures v == Machine.Get8(State(), k)
    {
      match k
      case 0 => High(bc)
      case 1 => Low(bc)
      case 2 => High(de)
      case 3 => Low(de)
      case 4 => High(hl)
      case 5 => Low(hl)
      case 6 => memory[hl]
      case 7 => a
    }

    /** A store through the pointer `z80_decode_reg8` returns. */
    method Set8(k: int, v: byte)
      requires Valid() && 0 <= k < 8
      modifies this, memory
      ensures Valid() && State() == Machine.Set8(old(State()), k, v)
    {
      match k
      case 0 => SetBC(Word(v, Low(bc)));
      case 1 => SetBC(Word(High(bc), v));
      case 2 => SetDE(Word(v, Low(de)));
      case 3 => SetDE(Word(High(de), v));
      case 4 => SetHL(Word(v, Low(hl)));
      case 5 => SetHL(Word(High(hl), v));
      case 6 => Write8(hl, v);
      case 7 => SetA(v);
    }

    /** `*z80_bc_de_hl_sp[p]`. */
    function GetPair(p: int): (v: word)
      reads this
      requires 0 <= p < 4
      ensures Valid() ==> v == Machine.GetPair(State(), p)
    {
      match p
      case 0 => bc
      case 1 => de
      case 2 => hl
      case 3 => sp
    }

    method SetPair(p: int, v: word)
      requires Valid() && 0 <= p < 4
      modifies this
      ensures Valid() && State() == Machine.SetPair(old(State()), p, v)
    {
      match p
      case 0 => SetBC(v);
      case 1 => SetDE(v);
      case 2 => SetHL(v);
      case 3 => SetSP(v);
    }

    /** `*z80_bc_de_hl_af[p]`. */
    function GetPairAF(p: int): (v: word)
      reads this
      requires 0 <= p < 4
      ensures Valid() ==> v == Machine.GetPairAF(State(), p)
    {
      if p == 3 then Word(a, ToByte(f)) else GetPair(p)
    }

    method SetPairAF(p: int, v: word)
      requires Valid() && 0 <= p < 4
      modifies this
      ensures Valid() && State() == Machine.SetPairAF(old(State()), p, v)
    {
      if p == 3 {
        a, f := High(v), FromByte(Low(v));
      } else {
        SetPair(p, v);
      }
    }

    // -------------------------------------------------------------- the helpers on registers

    /** `register_add8_with_flags(z80_decode_reg8(..), alt, mask)`. */
    method Add8WithFlags(k: int, alt: byte, mask: Flags)
      requires Valid() && 0 <= k < 8
      modifies this, memory
      ensures Valid() && State() == Machine.Add8WithFlags(old(State()), k, alt, mask)
    {
      var out := Add8(Get8(k), alt, f, mask);
      Set8(k, out.value);
      SetF(out.flags);
    }

    /** `register_sub8_with_flags(z80_decode_reg8(..), alt, mask)`. */
    method Sub8WithFlags(k: int, alt: byte, mask: Flags)
      requires Valid() && 0 <= k < 8
      modifies this, memory
      ensures Valid() && State() == Machine.Sub8WithFlags(old(State()), k, alt, mask)
    {
      var out := Sub8(Get8(k), alt, f, mask);
      Set8(k, out.value);
      SetF(out.flags);
    }

    /** `register_add16_with_flags(z80_bc_de_hl_sp[p], alt, mask)`. */
    method Add16WithFlags(p: int, alt: word, mask: Flags)
      requires Valid() && 0 <= p < 4
      modifies this
      ensures Valid() && State() == Machine.Add16WithFlags(old(State()), p, alt, mask)
    {
      var out := Add16(GetPair(p), alt, f, mask);
      SetPair(p, out.value);
      SetF(out.flags);
    }

    /** `register_sub16_with_flags(z80_bc_de_hl_sp[p], alt, mask)`. */
    method Sub16WithFlags(p: int, alt: word, mask: Flags)
      requires Valid() && 0 <= p < 4
      modifies this
      ensures Valid() && State() == Machine.Sub16WithFlags(old(State()), p, alt, mask)
    {
      var out := Sub16(GetPair(p), alt, f, mask);
      SetPair(p, out.value);
      SetF(out.flags);
    }

    /** `register_left8_with_flags(&A, mask, b)`. */
    method Left8WithFlags(mask: Flags, b: bool)
      requires Valid()
      modifies this
      ensures Valid() && State() == Machine.Left8WithFlags(old(State()), mask, b)
    {
      var out := Left8(a, mask, b, f);
      SetA(out.value);
      SetF(out.flags);
    }

    /** `register_right8_with_flags(&A, mask, b)`. */
    method Right8WithFlags(mask: Flags, b: bool)
      requires Valid()
      modifies this
      ensures Valid() && State() == Machine.Right8WithFlags(old(State()), mask, b)
    {
      var out := Right8(a, mask, b, f);
      SetA(out.value);
      SetF(out.flags);
    }

    /** `register_a_set_flag_s_z_p`. */
    method SetFlagsSZP()
      requires Valid()
      modifies this
      ensures Valid() && State() == Machine.SetFlagsSZP(old(State()))
    {
      SetF(SignZeroParity(a, f));
    }

    // -------------------------------------------------------------- control flow

    /** `z80_jump_with_condition`. */
    method JumpWithCondition(c: bool) returns (t: int)
      requires Valid()
      modifies this
      ensures Valid() && Outcome(State(), t) == Machine.JumpWithCondition(old(State()), c)
    {
      var target := Next16();
      if c {
        pc := target;
      }
      t := 10;
    }

    /** `z80_jump_rel_with_condition`. */
    method JumpRelWithCondition(c: bool) returns (t: int)
      requires Valid()
      modifies this
      ensures Valid() && Outcome(State(), t) == Machine.JumpRelWithCondition(old(State()), c)
    {
      var d := Next8();
      if c {
        pc := Add16Wrap(pc, Signed8(d));
        t := 12;
      } else {
        t := 7;
      }
    }

    /** `z80_ret_with_condition`. */
    method RetWithCondition(c: bool) returns (t: int)
      requires Valid()
      modifies this
      ensures Valid() && Outcome(State(), t) == Machine.RetWithCondition(old(State()), c)
    {
      if c {
        var target := Pop16();
        pc := target;
        t := 15;
      } else {
        t := 11;
      }
    }

    /** `z80_call_with_condition`. */
    method CallWithCondition(c: bool) returns (t: int)
      requires Valid()
      modifies this, memory
      ensures Valid() && Outcome(State(), t) == Machine.CallWithCondition(old(State()), c)
    {
      var target := Next16();
      if c {
        Push16(pc);
        pc := target;
        t := 17;
      } else {
        t := 10;
      }
    }

    // -------------------------------------------------------------- the opcode groups

    /** LD dd,nn. */
    method LoadPairImmediate(op: byte) returns (t: int)
      requires Valid()
      modifies this
      ensures Valid() && Outcome(State(), t) == Interpreter.LoadPairImmediate(old(State()), op)
    {
      var v := Next16();
      SetPair(PairIndex(op), v);
      t := 10;
    }

    /** INC ss and DEC ss. */
    method IncDecPair(op: byte, inc: bool) returns (t: int)
      requires Valid()
      modifies this
      ensures Valid() && Outcome(State(), t) == Interpreter.IncDecPair(old(State()), op, inc)
    {
      if inc {
        Add16WithFlags(PairIndex(op), 1, MASK_NONE);
      } else {
        Sub16WithFlags(PairIndex(op), 1, MASK_NONE);
      }
      t := 6;
    }

    /** INC r and DEC r. */
    method IncDecReg(op: byte, inc: bool) returns (t: int)
      requires Valid()
      modifies this, memory
      ensures Valid() && Outcome(State(), t) == Interpreter.IncDecReg(old(State()), op, inc)
    {
      var k := Slot(op, 3);
      if inc {
        Add8WithFlags(k, 1, MASK_SZHVN);
      } else {
        Sub8WithFlags(k, 1, MASK_SZHVN);
      }
      t := 4 + SlotCost(k, 7);
    }

    /** LD r,n. */
    method LoadRegImmediate(op: byte) returns (t: int)
      requires Valid()
      modifies this, memory
      ensures Valid() && Outcome(State(), t) == Interpreter.LoadRegImmediate(old(State()), op)
    {
      var k := Slot(op, 3);
      var n := Next8();
      Set8(k, n);
      t := 7 + SlotCost(k, 3);
    }

    /** RLCA, RRCA, RLA and RRA. */
    method Rotate(left: bool, throughCarry: bool) returns (t: int)
      requires Valid()
      modifies this
      ensures Valid() && Outcome(State(), t) == Interpreter.Rotate(old(State()), left, throughCarry)
    {
      var b := if throughCarry then f.c else if left then TopBit(a) else BottomBit(a);
      if left {
        Left8WithFlags(MASK_ALL, b);
      } else {
        Right8WithFlags(MASK_ALL, b);
      }
      t := 4;
    }

    /** EX AF,AF'. */
    method ExchangeAF() returns (t: int)
      requires Valid()
      modifies this
      ensures Valid() && Outcome(State(), t) == Interpreter.ExchangeAF(old(State()))
    {
      a, f, a2, f2 := a2, f2, a, f;
      t := 4;
    }

    /** ADD HL,ss. */
    method AddHLPair(op: byte) returns (t: int)
      requires Valid()
      modifies this
      ensures Valid() && Outcome(State(), t) == Interpreter.AddHLPair(old(State()), op)
    {
      Add16WithFlags(2, GetPair(PairIndex(op)), MASK_ALL);
      t := 11;
    }

    /** DJNZ. */
    method DecrementJumpNonZero() returns (t: int)
      requires Valid()
      modifies this
      ensures Valid() && Outcome(State(), t) == Interpreter.DecrementJumpNonZero(old(State()))
    {
      var d := Next8();
      var b := (High(bc) - 1) % 0x100;
      SetBC(Word(b, Low(bc)));
      if b == 0 {
        t := 8;
      } else {
        pc := Add16Wrap(pc, Signed8(d));
        t := 13;
      }
    }

    /** DAA. */
    method DecimalAdjust() returns (t: int)
      requires Valid()
      modifies this
      ensures Valid() && Outcome(State(), t) == Interpreter.DecimalAdjust(old(State()))
    {
      match DaaRow(f.c, f.h, a / 8, a % 8) {
        case Adjust(add, carry) =>
          SetA((a + add) % 0x100);
          SetF(f.(c := carry));
        case NoAdjust =>
      }
      SetFlagsSZP();
      t := 4;
    }

    /** CPL. */
    method Complement() returns (t: int)
      requires Valid()
      modifies this
      ensures Valid() && Outcome(State(), t) == Interpreter.Complement(old(State()))
    {
      SetA(Not8(a));
      SetF(f.(n := true, h := true));
      t := 4;
    }

    /** SCF. */
    method SetCarry() returns (t: int)
      requires Valid()
      modifies this
      ensures Valid() && Outcome(State(), t) == Interpreter.SetCarry(old(State()))
    {
      SetF(f.(c := true, n := false, h := false));
      t := 4;
    }

    /** CCF. */
    method ComplementCarry() returns (t: int)
      requires Valid()
      modifies this
      ensures Valid() && Outcome(State(), t) == Interpreter.ComplementCarry(old(State()))
    {
      SetF(f.(h := f.c, c := !f.c, n := false));
      t := 4;
    }

    /** LD r,r'. */
    method LoadRegReg(op: byte) returns (t: int)
      requires Valid()
      modifies this, memory
      ensures Valid() && Outcome(State(), t) == Interpreter.LoadRegReg(old(State()), op)
    {
      var k, j := Slot(op, 3), Slot(op, 0);
      Set8(k, Get8(j));
      t := 4 + SlotCost(k, 3) + SlotCost(j, 3);
    }

    /** AND, XOR and OR on A. */
    method Logic(v: byte, aluOp: AluOp)
      requires Valid() && (aluOp == AndOp || aluOp == XorOp || aluOp == OrOp)
      modifies this
      ensures Valid() && State() == Interpreter.Logic(old(State()), v, aluOp)
    {
      match aluOp {
        case AndOp => SetA(And8(a, v));
        case XorOp => SetA(Xor8(a, v));
        case OrOp => SetA(Or8(a, v));
      }
      SetFlagsSZP();
      SetF(f.(n := false, c := false, h := aluOp == AndOp));
    }

    /** ADD A,r ... CP A,r. */
    method ArithmeticLogic(op: byte) returns (t: int)
      requires Valid() && 0x80 <= op < 0xC0
      modifies this, memory
      ensures Valid() && Outcome(State(), t) == Interpreter.ArithmeticLogic(old(State()), op)
    {
      var j := Slot(op, 0);
      t := 4 + SlotCost(j, 3);
      if op < 0xA0 {
        Arithmetic(op, j);
      } else {
        LogicCompare(op, j);
      }
    }

    /** AND, XOR, OR and CP with the operand in slot j. */
    method LogicCompare(op: byte, j: int)
      requires Valid() && 0xA0 <= op < 0xC0 && j == Slot(op, 0)
      modifies this
      ensures Valid() && State() == Interpreter.ArithmeticLogic(old(State()), op).state
    {
      var aluOp := AluOpOf(op);
      if aluOp == CpOp {
        SetF(Sub8(a, Get8(j), f, MASK_ALL).flags);
      } else {
        Logic(Get8(j), aluOp);
      }
    }

    /** ADD, ADC, SUB and SBC with the operand in slot j. */
    method Arithmetic(op: byte, j: int)
      requires Valid() && 0x80 <= op < 0xA0 && j == Slot(op, 0)
      modifies this, memory
      ensures Valid() && State() == Interpreter.ArithmeticLogic(old(State()), op).state
    {
      match AluOpOf(op)
      case AddOp => Add8WithFlags(7, Get8(j), MASK_ALL);
      case AdcOp =>
        SetA((a + (if f.c then 1 else 0)) % 0x100);
        Add8WithFlags(7, Get8(j), MASK_ALL);
      case SubOp => Sub8WithFlags(7, Get8(j), MASK_ALL);
      case SbcOp =>
        SetA((a - (if f.c then 1 else 0)) % 0x100);
        Sub8WithFlags(7, Get8(j), MASK_ALL);
    }

    /** ADD A,n and ADC A,n. */
    method AddImmediate(withCarry: bool) returns (t: int)
      requires Valid()
      modifies this, memory
      ensures Valid() && Outcome(State(), t) == Interpreter.AddImmediate(old(State()), withCarry)
    {
      if withCarry {
        SetA((a + (if f.c then 1 else 0)) % 0x100);
      }
      var n := Next8();
      Add8WithFlags(7, n, MASK_ALL);
      t := 7;
    }

    /** POP qq. */
    method Pop(op: byte) returns (t: int)
      requires Valid()
      modifies this
      ensures Valid() && Outcome(State(), t) == Interpreter.Pop(old(State()), op)
    {
      var v := Pop16();
      SetPairAF(PairIndex(op), v);
      t := 4;
    }

    /** PUSH qq. */
    method Push(op: byte) returns (t: int)
      requires Valid()
      modifies this, memory
      ensures Valid() && Outcome(State(), t) == Interpreter.Push(old(State()), op)
    {
      Push16(GetPairAF(PairIndex(op)));
      t := 10;
    }

    /** RST 0. */
    method Restart() returns (t: int)
      requires Valid()
      modifies this, memory
      ensures Valid() && Outcome(State(), t) == Interpreter.Restart(old(State()))
    {
      Push16(pc);
      SetPC(0x00);
      t := 11;
    }

    /** The CB prefix. */
    method PrefixCB() returns (t: int)
      requires Valid()
      modifies this
      ensures Valid() && Outcome(State(), t) == Interpreter.PrefixCB(old(State()))
    {
      var _ := FetchOpcode();
      t := 0;
    }

    // -------------------------------------------------------------- execute, interrupts, run

    /** `z80_execute`. */
    method Execute(op: byte) returns (t: int)
      requires Valid()
      modifies this, memory
      ensures Valid() && Outcome(State(), t) == Interpreter.Execute(old(State()), op)
    {
      if op == 0x00 {
        t := 4;
      } else if IsLoadPairImmediate(op) {
        t := LoadPairImmediate(op);
      } else if op == 0x02 {
        Write8(bc, a);
        t := 7;
      } else if IsIncPair(op) {
        t := IncDecPair(op, true);
      } else if IsIncReg(op) {
        t := IncDecReg(op, true);
      } else if IsDecReg(op) {
        t := IncDecReg(op, false);
      } else if IsLoadRegImmediate(op) {
        t := LoadRegImmediate(op);
      } else if op == 0x07 {
        t := Rotate(true, false);
      } else if op == 0x08 {
        t := ExchangeAF();
      } else if IsAddHLPair(op) {
        t := AddHLPair(op);
      } else if op == 0x0A {
        SetA(Read8(bc));
        t := 7;
      } else if IsDecPair(op) {
        t := IncDecPair(op, false);
      } else if op == 0x0F {
        t := Rotate(false, false);
      } else if op == 0x10 {
        t := DecrementJumpNonZero();
      } else if op == 0x12 {
        Write8(de, a);
        t := 7;
      } else if op == 0x17 {
        t := Rotate(true, true);
      } else if op == 0x18 {
        t := JumpRelWithCondition(true);
      } else if op == 0x1A {
        SetA(Read8(de));
        t := 7;
      } else if op == 0x1F {
        t := Rotate(false, true);
      } else if IsJumpRelCondition(op) {
        t := JumpRelWithCondition(DecodeCondition(f, op));
      } else if op == 0x22 {
        var addr := Next16();
        Write16(addr, hl);
        t := 16;
      } else if op == 0x27 {
        t := DecimalAdjust();
      } else if op == 0x2A {
        var addr := Next16();
        SetHL(Read16(addr));
        t := 16;
      } else if op == 0x2F {
        t := Complement();
      } else if op == 0x32 {
        var addr := Next16();
        Write8(addr, a);
        t := 16;
      } else if op == 0x37 {
        t := SetCarry();
      } else if op == 0x3A {
        var addr := Next16();
        SetA(Read8(addr));
        t := 13;
      } else if op == 0x3F {
        t := ComplementCarry();
      } else if IsLoadRegReg(op) {
        t := LoadRegReg(op);
      } else if 0x80 <= op < 0xC0 {
        t := ArithmeticLogic(op);
      } else if op == 0xC0 || op == 0xC8 {
        t := RetWithCondition(DecodeCondition(f, op));
      } else if IsPop(op) {
        t := Pop(op);
      } else if op == 0xC2 || op == 0xCA {
        t := JumpWithCondition(DecodeCondition(f, op));
      } else if op == 0xC3 {
        t := JumpWithCondition(true);
      } else if op == 0xC4 || op == 0xCC {
        t := CallWithCondition(DecodeCondition(f, op));
      } else if IsPush(op) {
        t := Push(op);
      } else if op == 0xC6 {
        t := AddImmediate(false);
      } else if op == 0xC7 {
        t := Restart();
      } else if op == 0xC9 {
        var _ := RetWithCondition(true);
        t := 10;
      } else if op == 0xCB {
        t := PrefixCB();
      } else if op == 0xCD {
        t := CallWithCondition(true);
      } else if op == 0xCE {
        t := AddImmediate(true);
      } else {
        t := 0;
      }
    }

    /** `z80_nonmaskable_interrupt`. */
    method Nmi() returns (t: int)
      requires Valid()
      modifies this, memory
      ensures Valid() && Outcome(State(), t) == Interpreter.Nmi(old(State()))
    {
      SetIff(false, iff1);
      Push16(pc);
      SetPC(0x66);
      t := 11;
    }

    /** `z80_maskable_interrupt`. */
    method Maskable() returns (t: int)
      requires Valid()
      modifies this, memory
      ensures Valid() && Outcome(State(), t) == Interpreter.Maskable(old(State()))
    {
      SetIff(false, false);
      if imode == 0 {
        MemoryRefresh();
        t := Execute(dataBus);
        t := t + 2;
      } else if imode == 1 {
        Push16(pc);
        SetPC(0x38);
        t := 13;
      } else if imode == 2 {
        Push16(pc);
        SetPC(Read16(Word(i, dataBus)));
        t := 19;
      } else {
        t := 0;
      }
    }

    /** `z80_run_one`. */
    method RunOne() returns (t: int)
      requires Valid()
      modifies this, memory
      ensures Valid() && Outcome(State(), t) == Interpreter.RunOne(old(State()))
    {
      if nmiRequest {
        nmiRequest := false;
        t := Nmi();
      } else if intRequest {
        intRequest := false;
        if iff1 {
          t := Maskable();
        } else {
          t := 0;
        }
      } else if canExecute {
        var op := FetchOpcode();
        t := Execute(op);
      } else {
        t := 0;
      }
    }

    /** The two pending-request flags. */
    method SetRequests(nmi: bool, irq: bool)
      requires Valid()
      modifies this
      ensures Valid() && State() == old(State()).(nmiRequest := nmi, intRequest := irq)
    {
      nmiRequest, intRequest := nmi, irq;
    }

    /** The halt flag and the interrupt mode. */
    method SetRunMode(running: bool, mode: int)
      requires Valid()
      modifies this
      ensures Valid() && State() == old(State()).(canExecute := running, imode := mode)
    {
      canExecute, imode := running, mode;
    }

    /** `z80_reset`. */
    method Reset()
      requires Valid()
      modifies this
      ensures Valid() && State() == Interpreter.Reset(old(State()))
    {
      SetRequests(false, false);
      SetIff(false, false);
      SetRunMode(true, 0);
      SetA(0xFF);
      SetF(FromByte(0xFF));
      SetSP(0xFFFF);
      SetPC(0x0000);
      r := 0x00;
    }
  }
}
