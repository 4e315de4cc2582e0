/** What the two interrupts, `z80_run_one` and `z80_reset` do: which request is served first,
    where each interrupt mode jumps to, what is pushed, and that no instruction touches the
    interrupt latches, the mode or the pending requests. */
module Interrupts {
  import opened Bits
  import opened Alu
  import opened Machine
  import opened Interpreter
  import opened Properties
  import opened Transfers

  /** The part of the state that only interrupts, `z80_reset` and the host change. */
  predicate SameControl(s: State, t: State)
  {
    t.iff1 == s.iff1 && t.iff2 == s.iff2 && t.imode == s.imode && t.i == s.i &&
    t.dataBus == s.dataBus && t.canExecute == s.canExecute &&
    t.nmiRequest == s.nmiRequest && t.intRequest == s.intRequest
  }

  // ---------------------------------------------------------------- NMI

  /** The NMI saves IFF1 in IFF2 and clears IFF1, pushes the PC and jumps to 0x66, in 11
      T-states; nothing else but SP and the two stack cells changes. */
  lemma NmiEffect(s: State)
    ensures var out := Nmi(s);
      && out.state.sp == (s.sp - 2) % 0x1_0000
      && Read16(out.state, out.state.sp) == s.pc
      && out.state == s.(pc := 0x66, sp := out.state.sp, iff1 := false, iff2 := s.iff1,
                         memory := out.state.memory, spill := out.state.spill)
      && out.cycles == 11
  {
    var s1 := s.(iff2 := s.iff1, iff1 := false);
    Push16Effect(s1, s1.pc);
    PushedWordOnTop(s1, s1.pc, 0x66);
  }

  /** A pending NMI is served before anything else; a pending maskable request stays
      pending. */
  lemma NmiServedFirst(s: State)
    requires s.nmiRequest
    ensures var out := RunOne(s);
      && out.state.pc == 0x66 && !out.state.iff1 && out.state.iff2 == s.iff1
      && Read16(out.state, out.state.sp) == s.pc
      && !out.state.nmiRequest && out.state.intRequest == s.intRequest
      && out.cycles == 11
  {
    NmiEffect(s.(nmiRequest := false));
  }

  // ---------------------------------------------------------------- maskable interrupts

  /** A maskable request taken while IFF1 is clear is dropped: the request is cleared and
      nothing else happens. */
  lemma MaskableDroppedWhenDisabled(s: State)
    requires !s.nmiRequest && s.intRequest && !s.iff1
    ensures RunOne(s) == Outcome(s.(intRequest := false), 0)
  {
  }

  /** The state a served maskable request starts from: the request and both latches
      cleared. */
  function Acknowledged(s: State): (t: State)
    ensures !t.intRequest && !t.iff1 && !t.iff2
  {
    s.(intRequest := false, iff1 := false, iff2 := false)
  }

  /** Mode 0 executes the byte on the data bus after a refresh, for 2 T-states more than the
      instruction itself; the PC is not pushed. */
  lemma MaskableMode0(s: State)
    requires !s.nmiRequest && s.intRequest && s.iff1 && s.imode == 0
    ensures var t := Acknowledged(s).(r := (s.r + 1) % 0x80);
      var out := Execute(t, s.dataBus);
      RunOne(s) == Outcome(out.state, out.cycles + 2)
  {
    var s1 := s.(intRequest := false);
    assert RunOne(s) == Maskable(s1);
    assert MemoryRefresh(s1.(iff1 := false, iff2 := false)) == Acknowledged(s).(r := (s.r + 1) % 0x80);
  }

  /** In mode 0 the RST 38h that a Z80 system usually places on the bus (0xFF) has no case,
      so the interrupt is acknowledged, R counts once and nothing else happens, in 2
      T-states. */
  lemma MaskableMode0Restart(s: State)
    requires !s.nmiRequest && s.intRequest && s.iff1 && s.imode == 0 && s.dataBus == 0xFF
    ensures RunOne(s) == Outcome(Acknowledged(s).(r := (s.r + 1) % 0x80), 2)
  {
    MaskableMode0(s);
    UndefinedOpcode(Acknowledged(s).(r := (s.r + 1) % 0x80), 0xFF);
  }

  /** Mode 1 pushes the PC and jumps to 0x38, in 13 T-states. */
  lemma MaskableMode1(s: State)
    requires !s.nmiRequest && s.intRequest && s.iff1 && s.imode == 1
    ensures var out := RunOne(s);
      && out.state.sp == (s.sp - 2) % 0x1_0000
      && Read16(out.state, out.state.sp) == s.pc
      && out.state == Acknowledged(s).(pc := 0x38, sp := out.state.sp,
                                       memory := out.state.memory, spill := out.state.spill)
      && out.cycles == 13
  {
    var s1 := Acknowledged(s);
    Push16Effect(s1, s1.pc);
    PushedWordOnTop(s1, s1.pc, 0x38);
  }

  /** Mode 2 pushes the PC and jumps through the word of the table at (I << 8) | data bus, read
      after the push, in 19 T-states. */
  lemma MaskableMode2(s: State)
    requires !s.nmiRequest && s.intRequest && s.iff1 && s.imode == 2
    ensures var pushed := Push16(Acknowledged(s), s.pc);
      var out := RunOne(s);
      && out.state == pushed.(pc := Read16(pushed, Word(s.i, s.dataBus)))
      && Read16(out.state, out.state.sp) == s.pc
      && out.cycles == 19
  {
    PushedWordOnTop(Acknowledged(s), s.pc, Read16(Push16(Acknowledged(s), s.pc), Word(s.i, s.dataBus)));
  }

  /** When the table word lies below the two stack cells the push writes, mode 2 jumps to the
      address the table held before the interrupt. */
  lemma MaskableMode2Table(s: State)
    requires !s.nmiRequest && s.intRequest && s.iff1 && s.imode == 2
    requires Word(s.i, s.dataBus) + 1 < (s.sp - 2) % 0x1_0000
    ensures RunOne(s).state.pc == Read16(s, Word(s.i, s.dataBus))
  {
    MaskableMode2(s);
    Push16Effect(Acknowledged(s), s.pc);
  }

  /** A mode other than 0, 1 or 2 serves the request without doing anything else. */
  lemma MaskableOtherMode(s: State)
    requires !s.nmiRequest && s.intRequest && s.iff1
    requires s.imode != 0 && s.imode != 1 && s.imode != 2
    ensures RunOne(s) == Outcome(Acknowledged(s), 0)
  {
  }

  // ---------------------------------------------------------------- fetch and execute

  /** With no request pending a running CPU fetches the byte at PC, counts R once, steps the
      PC and executes that byte. */
  lemma FetchExecute(s: State)
    requires !s.nmiRequest && !s.intRequest && s.canExecute
    ensures RunOne(s) ==
      Execute(s.(r := (s.r + 1) % 0x80, pc := (s.pc + 1) % 0x1_0000), s.memory[s.pc])
  {
    assert FetchOpcode(s) == (s.memory[s.pc], s.(r := (s.r + 1) % 0x80, pc := (s.pc + 1) % 0x1_0000));
  }

  /** A CPU that may not execute (before `z80_reset`) does nothing unless a request is
      pending. */
  lemma Halted(s: State)
    requires !s.nmiRequest && !s.intRequest && !s.canExecute
    ensures RunOne(s) == Outcome(s, 0)
  {
  }

  lemma Set8KeepsControl(s: State, i: int, v: byte)
    requires 0 <= i < 8
    ensures SameControl(s, Set8(s, i, v))
  {
    Set8Frame(s, i, v);
  }

  lemma SetPairKeepsControl(s: State, p: int, v: word)
    requires 0 <= p < 4
    ensures SameControl(s, SetPair(s, p, v))
  {
    SetPairFrame(s, p, v);
  }

  lemma Add8KeepsControl(s: State, i: int, alt: byte, mask: Flags)
    requires 0 <= i < 8
    ensures SameControl(s, Add8WithFlags(s, i, alt, mask))
  {
    Set8KeepsControl(s, i, Add8(Get8(s, i), alt, s.f, mask).value);
  }

  lemma Sub8KeepsControl(s: State, i: int, alt: byte, mask: Flags)
    requires 0 <= i < 8
    ensures SameControl(s, Sub8WithFlags(s, i, alt, mask))
  {
    Set8KeepsControl(s, i, Sub8(Get8(s, i), alt, s.f, mask).value);
  }

  lemma PairGroupsKeepControl(s: State, op: byte, inc: bool)
    ensures SameControl(s, LoadPairImmediate(s, op).state)
    ensures SameControl(s, IncDecPair(s, op, inc).state)
    ensures SameControl(s, AddHLPair(s, op).state)
  {
    var p := PairIndex(op);
    SetPairKeepsControl(s.(pc := Add16Wrap(s.pc, 2)), p, Read16(s, s.pc));
    SetPairKeepsControl(s, p, Add16(GetPair(s, p), 1, s.f, MASK_NONE).value);
    SetPairKeepsControl(s, p, Sub16(GetPair(s, p), 1, s.f, MASK_NONE).value);
    SetPairKeepsControl(s, 2, Add16(s.hl, GetPair(s, p), s.f, MASK_ALL).value);
  }

  lemma SlotGroupsKeepControl(s: State, op: byte, inc: bool)
    ensures SameControl(s, IncDecReg(s, op, inc).state)
    ensures SameControl(s, LoadRegImmediate(s, op).state)
    ensures SameControl(s, LoadRegReg(s, op).state)
  {
    var i, j := Slot(op, 3), Slot(op, 0);
    Add8KeepsControl(s, i, 1, MASK_SZHVN);
    Sub8KeepsControl(s, i, 1, MASK_SZHVN);
    Set8KeepsControl(s.(pc := Add16Wrap(s.pc, 1)), i, s.memory[s.pc]);
    Set8KeepsControl(s, i, Get8(s, j));
  }

  lemma LogicKeepsControl(s: State, v: byte, aluOp: AluOp)
    requires aluOp == AndOp || aluOp == XorOp || aluOp == OrOp
    ensures SameControl(s, Logic(s, v, aluOp))
  {
  }

  lemma AdditionsKeepControl(s: State, op: byte)
    requires 0x80 <= op < 0x90
    ensures SameControl(s, ArithmeticLogic(s, op).state)
  {
    var j := Slot(op, 0);
    if op < 0x88 {
      assert AluOpOf(op) == AddOp;
      Add8KeepsControl(s, 7, Get8(s, j), MASK_ALL);
    } else {
      assert AluOpOf(op) == AdcOp;
      var s1 := s.(a := (s.a + (if s.f.c then 1 else 0)) % 0x100);
      Add8KeepsControl(s1, 7, Get8(s1, j), MASK_ALL);
    }
  }

  lemma SubtractionsKeepControl(s: State, op: byte)
    requires 0x90 <= op < 0xA0
    ensures SameControl(s, ArithmeticLogic(s, op).state)
  {
    var j := Slot(op, 0);
    if op < 0x98 {
      assert AluOpOf(op) == SubOp;
      Sub8KeepsControl(s, 7, Get8(s, j), MASK_ALL);
    } else {
      assert AluOpOf(op) == SbcOp;
      var s1 := s.(a := (s.a - (if s.f.c then 1 else 0)) % 0x100);
      Sub8KeepsControl(s1, 7, Get8(s1, j), MASK_ALL);
    }
  }

  lemma LogicCompareKeepsControl(s: State, op: byte)
    requires 0xA0 <= op < 0xC0
    ensures SameControl(s, ArithmeticLogic(s, op).state)
  {
    if op < 0xB8 {
      assert AluOpOf(op) == LogicOpOf(op);
      LogicKeepsControl(s, Get8(s, Slot(op, 0)), LogicOpOf(op));
    } else {
      assert AluOpOf(op) == CpOp;
    }
  }

  lemma AddImmediateKeepsControl(s: State, withCarry: bool)
    ensures SameControl(s, AddImmediate(s, withCarry).state)
  {
    var s1 := if withCarry then s.(a := (s.a + (if s.f.c then 1 else 0)) % 0x100) else s;
    var (n, s2) := Next8(s1);
    Add8KeepsControl(s2, 7, n, MASK_ALL);
  }

  lemma PopPushKeepControl(s: State, op: byte)
    ensures SameControl(s, Pop(s, op).state)
    ensures SameControl(s, Push(s, op).state)
  {
    var (v, s1) := Pop16(s);
    if PairIndex(op) < 3 {
      SetPairKeepsControl(s1, PairIndex(op), v);
    }
    Push16Shape(s, GetPairAF(s, PairIndex(op)));
  }

  lemma CallReturnKeepControl(s: State, c: bool)
    ensures SameControl(s, Restart(s).state)
    ensures SameControl(s, CallWithCondition(s, c).state)
    ensures SameControl(s, RetWithCondition(s, c).state)
  {
    var (target, s2) := Next16(s);
    Push16Shape(s, s.pc);
    Push16Shape(s2, s2.pc);
  }

  lemma PairOpcodesKeepControl(s: State, op: byte)
    requires IsLoadPairImmediate(op) || IsIncPair(op) || IsDecPair(op) || IsAddHLPair(op)
    ensures SameControl(s, Execute(s, op).state)
  {
    if IsLoadPairImmediate(op) {
      DispatchLoadPairImmediate(s, op);
    } else if IsIncPair(op) {
      DispatchIncPair(s, op);
    } else if IsDecPair(op) {
      DispatchDecPair(s, op);
    } else {
      DispatchAddHLPair(s, op);
    }
    PairGroupsKeepControl(s, op, IsIncPair(op));
  }

  lemma SlotOpcodesKeepControl(s: State, op: byte)
    requires IsIncReg(op) || IsDecReg(op) || IsLoadRegImmediate(op) || IsLoadRegReg(op)
    ensures SameControl(s, Execute(s, op).state)
  {
    if IsIncReg(op) || IsDecReg(op) {
      DispatchIncDecReg(s, op);
    } else if IsLoadRegImmediate(op) {
      DispatchLoadRegImmediate(s, op);
    } else {
      DispatchLoadRegReg(s, op);
    }
    SlotGroupsKeepControl(s, op, IsIncReg(op));
  }

  lemma BlockOpcodesKeepControl(s: State, op: byte)
    requires 0x80 <= op < 0xC0 || op == 0xC6 || op == 0xCE
    ensures SameControl(s, Execute(s, op).state)
  {
    if op < 0xC0 {
      DispatchArithmeticLogic(s, op);
      if op < 0x90 {
        AdditionsKeepControl(s, op);
      } else if op < 0xA0 {
        SubtractionsKeepControl(s, op);
      } else {
        LogicCompareKeepsControl(s, op);
      }
    } else {
      DispatchAddImmediate(s, op);
      AddImmediateKeepsControl(s, op == 0xCE);
    }
  }

  lemma StackOpcodesKeepControl(s: State, op: byte)
    requires op == 0xC0 || op == 0xC8 || IsPop(op) || op == 0xC4 || op == 0xCC ||
             IsPush(op) || op == 0xC7 || op == 0xC9 || op == 0xCD
    ensures SameControl(s, Execute(s, op).state)
  {
    var c := op == 0xC9 || op == 0xCD || DecodeCondition(s.f, op);
    if IsPop(op) {
      DispatchPop(s, op);
      PopPushKeepControl(s, op);
    } else if IsPush(op) {
      DispatchPush(s, op);
      PopPushKeepControl(s, op);
    } else if op == 0xC4 || op == 0xCC || op == 0xCD {
      DispatchCall(s, op);
      CallReturnKeepControl(s, c);
    } else if op == 0xC7 {
      RestartEffect(s);
      CallReturnKeepControl(s, c);
    } else {
      ReturnEffect(s, op);
      CallReturnKeepControl(s, c);
    }
  }

  /** The loads and stores through BC, DE and an absolute address. */
  predicate IsMemoryTransfer(op: byte)
  {
    op == 0x02 || op == 0x12 || op == 0x0A || op == 0x1A ||
    op == 0x22 || op == 0x2A || op == 0x32 || op == 0x3A
  }

  lemma MemoryTransfersKeepControl(s: State, op: byte)
    requires IsMemoryTransfer(op)
    ensures SameControl(s, Execute(s, op).state)
  {
    if op == 0x02 || op == 0x12 {
      StoreAccumulatorEffect(s, op);
    } else if op == 0x0A || op == 0x1A {
      LoadAccumulatorEffect(s, op);
    } else if op == 0x22 {
      StoreHLEffect(s);
    } else if op == 0x2A {
      LoadHLEffect(s);
    } else if op == 0x32 {
      StoreAbsoluteEffect(s);
    } else {
      LoadAbsoluteEffect(s);
    }
  }

  lemma RelativeJumpsKeepControl(s: State, op: byte)
    requires op == 0x10 || op == 0x18 || IsJumpRelCondition(op)
    ensures SameControl(s, Execute(s, op).state)
  {
    if op == 0x10 {
      DecrementJumpNonZeroEffect(s);
    } else {
      JumpRelativeEffect(s, op);
    }
  }

  lemma RotatesKeepControl(s: State, op: byte)
    requires op == 0x07 || op == 0x17 || op == 0x0F || op == 0x1F
    ensures SameControl(s, Execute(s, op).state)
  {
    if op == 0x07 || op == 0x17 {
      RotateLeftEffect(s, op);
    } else {
      RotateRightEffect(s, op);
    }
  }

  lemma LowOpcodesKeepControl(s: State, op: byte)
    requires op < 0x40 && !IsMemoryTransfer(op) && !(op == 0x10 || op == 0x18 || IsJumpRelCondition(op))
    requires !(IsLoadPairImmediate(op) || IsIncPair(op) || IsDecPair(op) || IsAddHLPair(op))
    requires !(IsIncReg(op) || IsDecReg(op) || IsLoadRegImmediate(op))
    ensures SameControl(s, Execute(s, op).state)
  {
    if op == 0x07 || op == 0x17 || op == 0x0F || op == 0x1F {
      RotatesKeepControl(s, op);
    } else if op == 0x00 || op == 0x08 || op == 0x27 || op == 0x2F || op == 0x37 || op == 0x3F {
      AccumulatorOpcodesKeepControl(s, op);
    } else {
      UndefinedOpcode(s, op);
    }
  }

  lemma AccumulatorOpcodesKeepControl(s: State, op: byte)
    requires op == 0x00 || op == 0x08 || op == 0x27 || op == 0x2F || op == 0x37 || op == 0x3F
    ensures SameControl(s, Execute(s, op).state)
  {
    if op == 0x08 {
      ExchangeAFEffect(s);
    } else if op == 0x27 {
      DecimalAdjustEffect(s);
    } else if op == 0x2F {
      ComplementEffect(s);
    } else if op == 0x37 || op == 0x3F {
      CarryFlagEffects(s);
    } else {
      NopEffect(s);
    }
  }

  lemma HighOpcodesKeepControl(s: State, op: byte)
    requires 0xC0 <= op && op != 0xC6 && op != 0xCE
    requires !(op == 0xC0 || op == 0xC8 || IsPop(op) || op == 0xC4 || op == 0xCC ||
               IsPush(op) || op == 0xC7 || op == 0xC9 || op == 0xCD)
    ensures SameControl(s, Execute(s, op).state)
  {
    if op == 0xC2 || op == 0xCA || op == 0xC3 {
      JumpEffect(s, op);
    } else if op == 0xCB {
      PrefixCBEffect(s);
    } else {
      UndefinedOpcode(s, op);
    }
  }

  /** No instruction changes the interrupt latches, the interrupt mode, I, the data bus, the
      run flag or the pending requests: there is no DI, EI, IM or HALT case. */
  lemma ExecuteKeepsControl(s: State, op: byte)
    ensures SameControl(s, Execute(s, op).state)
  {
    if IsLoadPairImmediate(op) || IsIncPair(op) || IsDecPair(op) || IsAddHLPair(op) {
      PairOpcodesKeepControl(s, op);
    } else if IsIncReg(op) || IsDecReg(op) || IsLoadRegImmediate(op) || IsLoadRegReg(op) {
      SlotOpcodesKeepControl(s, op);
    } else if 0x80 <= op < 0xC0 || op == 0xC6 || op == 0xCE {
      BlockOpcodesKeepControl(s, op);
    } else if op == 0xC0 || op == 0xC8 || IsPop(op) || op == 0xC4 || op == 0xCC ||
              IsPush(op) || op == 0xC7 || op == 0xC9 || op == 0xCD {
      StackOpcodesKeepControl(s, op);
    } else if IsMemoryTransfer(op) {
      MemoryTransfersKeepControl(s, op);
    } else if op == 0x10 || op == 0x18 || IsJumpRelCondition(op) {
      RelativeJumpsKeepControl(s, op);
    } else if op < 0x40 {
      LowOpcodesKeepControl(s, op);
    } else if op == 0x76 {
      UndefinedOpcode(s, op);
    } else {
      HighOpcodesKeepControl(s, op);
    }
  }

  /** So the interrupt mode stays what `z80_reset` set, whatever `z80_run_one` runs; mode 0 and
      the instruction path never change I or the data bus either. */
  lemma RunOneKeepsMode(s: State)
    ensures RunOne(s).state.imode == s.imode
    ensures RunOne(s).state.i == s.i && RunOne(s).state.dataBus == s.dataBus
  {
    if s.nmiRequest {
      NmiEffect(s.(nmiRequest := false));
    } else if s.intRequest {
      if !s.iff1 {
        MaskableDroppedWhenDisabled(s);
      } else if s.imode == 0 {
        MaskableMode0(s);
        ExecuteKeepsControl(Acknowledged(s).(r := (s.r + 1) % 0x80), s.dataBus);
      } else if s.imode == 1 {
        MaskableMode1(s);
      } else if s.imode == 2 {
        MaskableMode2(s);
        Push16Effect(Acknowledged(s), s.pc);
      } else {
        MaskableOtherMode(s);
      }
    } else if s.canExecute {
      FetchExecute(s);
      ExecuteKeepsControl(s.(r := (s.r + 1) % 0x80, pc := (s.pc + 1) % 0x1_0000), s.memory[s.pc]);
    } else {
      Halted(s);
    }
  }

  // ---------------------------------------------------------------- reset

  /** `z80_reset`: A is 0xFF and F has every bit set (AF = 0xFFFF), SP is 0xFFFF, PC and R are
      0, both latches are clear, the mode is 0, no request is pending and the CPU may
      execute. Every other field, the data bus and memory included, keeps its value. */
  lemma ResetEffect(s: State)
    ensures var t := Reset(s);
      && AF(t) == 0xFFFF && t.f == Flags(true, true, true, true, true, true, true, true)
      && t == s.(a := 0xFF, f := t.f, sp := 0xFFFF, pc := 0, r := 0,
                 iff1 := false, iff2 := false, imode := 0, canExecute := true,
                 nmiRequest := false, intRequest := false)
  {
    ToByteFromByte(0xFF);
  }

  /** After a reset the first instruction is the byte at address 0. */
  lemma ResetThenRun(s: State)
    ensures RunOne(Reset(s)) == Execute(Reset(s).(r := 1, pc := 1), s.memory[0])
  {
    FetchExecute(Reset(s));
  }

  /** At power on, once reset, the CPU runs the first byte of the ROM image. */
  lemma PowerOnRunsRom(rom: seq<byte>)
    requires 0 < |rom| <= MEMORY_SIZE
    ensures var s := Reset(PowerOn(rom));
      RunOne(s) == Execute(s.(r := 1, pc := 1), rom[0])
  {
    var s := PowerOn(rom);
    assert s.memory[0] == s.memory[..|rom|][0] == rom[0];
    ResetThenRun(s);
  }
}
