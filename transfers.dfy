/** What the loads, the stack instructions, the jumps, calls and returns, and the opcodes with no
    case do, stated against the state before the instruction. As in `Properties`, each fact about
    `Execute` is proved from the group function it dispatches to. */
module Transfers {
  import opened Bits
  import opened Alu
  import opened Machine
  import opened Interpreter

  // ---------------------------------------------------------------- dispatch

  lemma DispatchLoadPairImmediate(s: State, op: byte)
    requires IsLoadPairImmediate(op)
    ensures Execute(s, op) == LoadPairImmediate(s, op)
  {
  }

  lemma DispatchLoadRegImmediate(s: State, op: byte)
    requires IsLoadRegImmediate(op)
    ensures Execute(s, op) == LoadRegImmediate(s, op)
  {
    assert !IsLoadPairImmediate(op) && !IsIncPair(op) && !IsIncReg(op) && !IsDecReg(op);
  }

  lemma DispatchLoadRegReg(s: State, op: byte)
    requires IsLoadRegReg(op)
    ensures Execute(s, op) == LoadRegReg(s, op)
  {
  }

  lemma DispatchJumpRel(s: State, op: byte)
    requires op == 0x18 || IsJumpRelCondition(op)
    ensures Execute(s, op) == JumpRelWithCondition(s, op == 0x18 || DecodeCondition(s.f, op))
  {
  }

  lemma DispatchDecrementJumpNonZero(s: State)
    ensures Execute(s, 0x10) == DecrementJumpNonZero(s)
  {
  }

  lemma DispatchJump(s: State, op: byte)
    requires op == 0xC2 || op == 0xCA || op == 0xC3
    ensures Execute(s, op) == JumpWithCondition(s, op == 0xC3 || DecodeCondition(s.f, op))
  {
  }

  lemma DispatchCall(s: State, op: byte)
    requires op == 0xC4 || op == 0xCC || op == 0xCD
    ensures Execute(s, op) == CallWithCondition(s, op == 0xCD || DecodeCondition(s.f, op))
  {
  }

  lemma DispatchPush(s: State, op: byte)
    requires IsPush(op)
    ensures Execute(s, op) == Push(s, op)
  {
  }

  lemma DispatchPop(s: State, op: byte)
    requires IsPop(op)
    ensures Execute(s, op) == Pop(s, op)
  {
  }

  // ---------------------------------------------------------------- registers

  lemma Set8Other(s: State, i: int, v: byte, k: int)
    requires 0 <= i < 8 && 0 <= k < 8 && k != i && k != 6
    ensures Get8(Set8(s, i, v), k) == Get8(s, k)
  {
    if i < 2 {
      Set8OtherBC(s, i, v, k);
    } else if i < 4 {
      Set8OtherDE(s, i, v, k);
    } else if i < 6 {
      Set8OtherHL(s, i, v, k);
    }
  }

  lemma Set8OtherBC(s: State, i: int, v: byte, k: int)
    requires 0 <= i < 2 && 0 <= k < 8 && k != i && k != 6
    ensures Get8(Set8(s, i, v), k) == Get8(s, k)
  {
    if i == 0 {
      WordBytes(v, Low(s.bc));
    } else {
      WordBytes(High(s.bc), v);
    }
  }

  lemma Set8OtherDE(s: State, i: int, v: byte, k: int)
    requires 2 <= i < 4 && 0 <= k < 8 && k != i && k != 6
    ensures Get8(Set8(s, i, v), k) == Get8(s, k)
  {
    if i == 2 {
      WordBytes(v, Low(s.de));
    } else {
      WordBytes(High(s.de), v);
    }
  }

  lemma Set8OtherHL(s: State, i: int, v: byte, k: int)
    requires 4 <= i < 6 && 0 <= k < 8 && k != i && k != 6
    ensures Get8(Set8(s, i, v), k) == Get8(s, k)
  {
    if i == 4 {
      WordBytes(v, Low(s.hl));
    } else {
      WordBytes(High(s.hl), v);
    }
  }

  /** A store into slot i changes no other register slot (the slot (HL) aside, whose address
      H and L give), changes memory only through slot 6, and changes nothing outside A, the
      three pairs and memory. */
  lemma Set8Frame(s: State, i: int, v: byte)
    requires 0 <= i < 8
    ensures var t := Set8(s, i, v);
      && (forall k | 0 <= k < 8 && k != i && k != 6 :: Get8(t, k) == Get8(s, k))
      && (i != 6 ==> t.memory == s.memory)
      && t == s.(a := t.a, bc := t.bc, de := t.de, hl := t.hl, memory := t.memory)
  {
    forall k | 0 <= k < 8 && k != i && k != 6 ensures Get8(Set8(s, i, v), k) == Get8(s, k) {
      Set8Other(s, i, v, k);
    }
  }

  /** A store into pair p changes no other pair and nothing outside the four pairs. */
  lemma SetPairFrame(s: State, p: int, v: word)
    requires 0 <= p < 4
    ensures var t := SetPair(s, p, v);
      && (forall q | 0 <= q < 4 && q != p :: GetPair(t, q) == GetPair(s, q))
      && t == s.(bc := t.bc, de := t.de, hl := t.hl, sp := t.sp)
  {
  }

  // ---------------------------------------------------------------- loads

  lemma LoadRegRegStep(s: State, op: byte)
    requires IsLoadRegReg(op)
    ensures var i, j := Slot(op, 3), Slot(op, 0);
      var out := LoadRegReg(s, op);
      && Get8(out.state, i) == Get8(s, j)
      && (forall k | 0 <= k < 8 && k != i && k != 6 :: Get8(out.state, k) == Get8(s, k))
      && out.state.f == s.f && out.state.pc == s.pc && out.state.sp == s.sp
      && out.cycles == 4 + (if i == 6 then 3 else 0) + (if j == 6 then 3 else 0)
  {
    Set8Frame(s, Slot(op, 3), Get8(s, Slot(op, 0)));
  }

  /** LD r,r' (0x40-0x7F but 0x76) copies slot j into slot i and leaves the other registers,
      F, PC and SP as they are; each (HL) operand costs 3 T-states more than the 4 of a
      register copy. */
  lemma LoadRegRegEffect(s: State, op: byte)
    requires IsLoadRegReg(op)
    ensures var i, j := Slot(op, 3), Slot(op, 0);
      var out := Execute(s, op);
      && Get8(out.state, i) == Get8(s, j)
      && (forall k | 0 <= k < 8 && k != i && k != 6 :: Get8(out.state, k) == Get8(s, k))
      && out.state.f == s.f && out.state.pc == s.pc && out.state.sp == s.sp
      && out.cycles == 4 + (if i == 6 then 3 else 0) + (if j == 6 then 3 else 0)
  {
    DispatchLoadRegReg(s, op);
    LoadRegRegStep(s, op);
  }

  lemma LoadRegImmediateStep(s: State, op: byte)
    ensures var i := Slot(op, 3);
      var out := LoadRegImmediate(s, op);
      && Get8(out.state, i) == s.memory[s.pc]
      && (forall k | 0 <= k < 8 && k != i && k != 6 :: Get8(out.state, k) == Get8(s, k))
      && out.state.pc == (s.pc + 1) % 0x1_0000 && out.state.f == s.f && out.state.sp == s.sp
      && out.cycles == (if i == 6 then 10 else 7)
  {
    var s1 := s.(pc := Add16Wrap(s.pc, 1));
    assert forall k | 0 <= k < 8 :: Get8(s1, k) == Get8(s, k);
    Set8Frame(s1, Slot(op, 3), s.memory[s.pc]);
  }

  /** LD r,n stores the byte after the opcode in slot i and steps over it; (HL) costs 10
      T-states, a register 7. */
  lemma LoadRegImmediateEffect(s: State, op: byte)
    requires IsLoadRegImmediate(op)
    ensures var i := Slot(op, 3);
      var out := Execute(s, op);
      && Get8(out.state, i) == s.memory[s.pc]
      && (forall k | 0 <= k < 8 && k != i && k != 6 :: Get8(out.state, k) == Get8(s, k))
      && out.state.pc == (s.pc + 1) % 0x1_0000 && out.state.f == s.f && out.state.sp == s.sp
      && out.cycles == (if i == 6 then 10 else 7)
  {
    DispatchLoadRegImmediate(s, op);
    LoadRegImmediateStep(s, op);
  }

  /** LD dd,nn stores the little-endian word after the opcode in pair dd, steps over it, and
      changes nothing else, in 10 T-states. */
  lemma LoadPairImmediateEffect(s: State, op: byte)
    requires IsLoadPairImmediate(op)
    ensures var p := PairIndex(op);
      var out := Execute(s, op);
      && GetPair(out.state, p) == Read16(s, s.pc)
      && (forall q | 0 <= q < 4 && q != p :: GetPair(out.state, q) == GetPair(s, q))
      && out.state == s.(bc := out.state.bc, de := out.state.de, hl := out.state.hl,
                         sp := out.state.sp, pc := (s.pc + 2) % 0x1_0000)
      && out.cycles == 10
  {
    DispatchLoadPairImmediate(s, op);
    SetPairFrame(s.(pc := Add16Wrap(s.pc, 2)), PairIndex(op), Read16(s, s.pc));
  }

  /** LD (BC),A and LD (DE),A store A at the address in the pair, in 7 T-states. */
  lemma StoreAccumulatorEffect(s: State, op: byte)
    requires op == 0x02 || op == 0x12
    ensures var addr := if op == 0x02 then s.bc else s.de;
      Execute(s, op) == Outcome(s.(memory := s.memory[addr := s.a]), 7)
  {
  }

  /** LD A,(BC) and LD A,(DE) load A from the address in the pair, in 7 T-states. */
  lemma LoadAccumulatorEffect(s: State, op: byte)
    requires op == 0x0A || op == 0x1A
    ensures var addr := if op == 0x0A then s.bc else s.de;
      Execute(s, op) == Outcome(s.(a := s.memory[addr]), 7)
  {
  }

  /** Loading A back from the cell it was just stored in changes nothing. */
  lemma StoreThenLoadAccumulator(s: State, op: byte)
    requires op == 0x02 || op == 0x12
    ensures var t := Execute(s, op).state;
      Execute(t, op + 8).state == t
  {
    StoreAccumulatorEffect(s, op);
    var t := Execute(s, op).state;
    LoadAccumulatorEffect(t, op + 8);
  }

  /** LD (nn),A (0x32) stores A at the address after the opcode: 16 T-states. */
  lemma StoreAbsoluteEffect(s: State)
    ensures var nn := Read16(s, s.pc);
      Execute(s, 0x32) ==
        Outcome(s.(pc := (s.pc + 2) % 0x1_0000, memory := s.memory[nn := s.a]), 16)
  {
  }

  /** LD A,(nn) (0x3A) loads A from the address after the opcode: 13 T-states. */
  lemma LoadAbsoluteEffect(s: State)
    ensures var nn := Read16(s, s.pc);
      Execute(s, 0x3A) == Outcome(s.(pc := (s.pc + 2) % 0x1_0000, a := s.memory[nn]), 13)
  {
  }

  /** `memory_write16` changes no cell but the two the word covers. */
  lemma Write16Cells(s: State, addr: word, v: word)
    ensures forall k | 0 <= k < MEMORY_SIZE && k != addr && k != addr + 1 ::
      Write16(s, addr, v).memory[k] == s.memory[k]
  {
  }

  lemma DispatchStoreHL(s: State)
    ensures var nn := Read16(s, s.pc);
      var s1 := s.(pc := (s.pc + 2) % 0x1_0000);
      Execute(s, 0x22) == Outcome(Write16(s1, nn, s.hl), 16)
  {
  }

  /** LD (nn),HL (0x22) stores HL little-endian at the address after the opcode, where a word
      read gets it back; only the two cells it covers change: 16 T-states. */
  lemma StoreHLEffect(s: State)
    ensures var nn := Read16(s, s.pc);
      var out := Execute(s, 0x22);
      && Read16(out.state, nn) == s.hl
      && out.state == s.(pc := (s.pc + 2) % 0x1_0000, memory := out.state.memory,
                         spill := out.state.spill)
      && (forall k | 0 <= k < MEMORY_SIZE && k != nn && k != nn + 1 ::
            out.state.memory[k] == s.memory[k])
      && out.cycles == 16
  {
    DispatchStoreHL(s);
    Write16Cells(s.(pc := (s.pc + 2) % 0x1_0000), Read16(s, s.pc), s.hl);
  }

  /** LD HL,(nn) (0x2A) loads HL from the word at the address after the opcode: 16
      T-states. */
  lemma LoadHLEffect(s: State)
    ensures var nn := Read16(s, s.pc);
      Execute(s, 0x2A) == Outcome(s.(pc := (s.pc + 2) % 0x1_0000, hl := Read16(s, nn)), 16)
  {
  }

  /** EX AF,AF' swaps A and F with their shadows, so doing it twice changes nothing. */
  lemma ExchangeAFEffect(s: State)
    ensures var t := Execute(s, 0x08);
      t.state == s.(a := s.a2, f := s.f2, a2 := s.a, f2 := s.f) && t.cycles == 4
  {
  }

  lemma ExchangeAFTwice(s: State)
    ensures Execute(Execute(s, 0x08).state, 0x08).state == s
  {
    ExchangeAFEffect(s);
    ExchangeAFEffect(Execute(s, 0x08).state);
  }

  // ---------------------------------------------------------------- the stack

  /** `z80_push16` lowers SP by two modulo 65536 and leaves the word where a word read at the
      new SP finds it; no memory cell but the two it covers changes. */
  lemma Push16Effect(s: State, v: word)
    ensures var t := Push16(s, v);
      && t.sp == (s.sp - 2) % 0x1_0000
      && Read16(t, t.sp) == v
      && t == s.(sp := t.sp, memory := t.memory, spill := t.spill)
      && (forall k | 0 <= k < MEMORY_SIZE && k != t.sp && k != t.sp + 1 ::
            t.memory[k] == s.memory[k])
  {
    var sp := (s.sp - 2) % 0x1_0000;
    Write16Cells(s.(sp := sp), sp, v);
  }

  /** Lowering SP by two and raising it by two again gives it back, modulo 65536. */
  lemma StackPointerRoundTrip(sp: word)
    ensures ((sp - 2) % 0x1_0000 + 2) % 0x1_0000 == sp
  {
    if sp < 2 {
      assert (sp - 2) % 0x1_0000 == sp - 2 + 0x1_0000;
    }
  }

  /** A pop right after a push gives the pushed word back and restores SP, for every SP. From
      SP = 0x0001 the word covers 0xFFFF and the byte past `memory[]`, kept here as `spill`. */
  lemma PushThenPop(s: State, v: word)
    ensures Pop16(Push16(s, v)) == (v, Push16(s, v).(sp := s.sp))
  {
    Push16Effect(s, v);
    StackPointerRoundTrip(s.sp);
  }

  /** A push right after a pop writes back the word it read, so it restores the whole state. */
  lemma PopThenPush(s: State)
    ensures var (v, s1) := Pop16(s);
      Push16(s1, v) == s
  {
    var (v, s1) := Pop16(s);
    StackPointerRoundTrip(s.sp);
    assert s1.(sp := (s1.sp - 2) % 0x1_0000) == s;
    WriteBack16(s, s.sp);
  }

  /** Writing back the word just read at an address changes nothing. */
  lemma WriteBack16(s: State, addr: word)
    ensures Write16(s, addr, Read16(s, addr)) == s
  {
    var hi := if addr == 0xFFFF then s.spill else s.memory[addr + 1];
    WordBytes(hi, s.memory[addr]);
    if addr == 0xFFFF {
      assert s.memory[addr := s.memory[addr]] == s.memory;
    } else {
      assert s.memory[addr := s.memory[addr]][addr + 1 := hi] == s.memory;
    }
  }

  /** PUSH qq (0xC5, 0xD5, 0xE5, 0xF5) stores BC, DE, HL or AF, with F as the low byte, below
      the old SP; only SP and the cells it covers change: 10 T-states. */
  lemma PushEffect(s: State, op: byte)
    requires IsPush(op)
    ensures var out := Execute(s, op);
      var v := GetPairAF(s, PairIndex(op));
      && out.state.sp == (s.sp - 2) % 0x1_0000
      && Read16(out.state, out.state.sp) == v
      && out.state == s.(sp := out.state.sp, memory := out.state.memory, spill := out.state.spill)
      && out.cycles == 10
  {
    DispatchPush(s, op);
    Push16Effect(s, GetPairAF(s, PairIndex(op)));
  }

  /** POP qq (0xC1, 0xD1, 0xE1, 0xF1) loads BC, DE, HL or AF from the word at SP, F from its
      low byte, and raises SP by two; nothing else changes: 4 T-states as the engine counts
      them. */
  lemma PopEffect(s: State, op: byte)
    requires IsPop(op)
    ensures var p := PairIndex(op);
      var v := Read16(s, s.sp);
      var out := Execute(s, op);
      && (p < 3 ==> GetPair(out.state, p) == v)
      && (p == 3 ==> out.state.a == High(v) && out.state.f == FromByte(Low(v)))
      && out.state == s.(a := out.state.a, f := out.state.f, bc := out.state.bc,
                         de := out.state.de, hl := out.state.hl, sp := (s.sp + 2) % 0x1_0000)
      && out.cycles == 4
  {
    DispatchPop(s, op);
  }

  lemma Write16Footprint(s: State, t: State, addr: word, v: word)
    requires t.memory == s.memory && t.spill == s.spill
    ensures var u := Write16(s, addr, v);
      Write16(t, addr, v) == t.(memory := u.memory, spill := u.spill)
  {
    if addr == 0xFFFF {
      assert Write16(t, addr, v) == t.(memory := s.memory[addr := Low(v)], spill := High(v));
    } else {
      assert Write16(t, addr, v) == t.(memory := s.memory[addr := Low(v)][addr + 1 := High(v)]);
    }
  }

  /** A push reads nothing but SP and writes nothing but SP, memory and the spill cell. */
  lemma Push16Footprint(s: State, t: State, v: word)
    requires t.sp == s.sp && t.memory == s.memory && t.spill == s.spill
    ensures var u := Push16(s, v);
      Push16(t, v) == t.(sp := u.sp, memory := u.memory, spill := u.spill)
  {
    var sp := (s.sp - 2) % 0x1_0000;
    assert Push16(s, v) == Write16(s.(sp := sp), sp, v);
    assert Push16(t, v) == Write16(t.(sp := sp), sp, v);
    Write16Footprint(s.(sp := sp), t.(sp := sp), sp, v);
  }

  /** The word popped into a pair, AF included, reads back unchanged. */
  lemma GetSetPairAF(s: State, p: int, v: word)
    requires 0 <= p < 4
    ensures GetPairAF(SetPairAF(s, p, v), p) == v
  {
    if p == 3 {
      ToByteFromByte(Low(v));
      BytesWord(v);
    }
  }

  /** POP qq and PUSH qq are four apart and name the same pair. */
  lemma PopPushOpcodes(op: byte)
    requires IsPop(op)
    ensures op + 4 < 0x100 && IsPush(op + 4) && PairIndex(op + 4) == PairIndex(op)
  {
  }

  lemma PopThenPushStep(s: State, op: byte)
    requires IsPop(op)
    ensures var t := Pop(s, op).state;
      Push(t, op + 4).state == t.(sp := s.sp)
  {
    var p := PairIndex(op);
    var (v, s1) := Pop16(s);
    PopPushOpcodes(op);
    GetSetPairAF(s1, p, v);
    var t := SetPairAF(s1, p, v);
    SetPairAFFrame(s1, p, v);
    Push16Footprint(s1, t, v);
    PopThenPush(s);
  }

  /** A pop into a pair, AF included, leaves SP, memory and the spill cell alone. */
  lemma SetPairAFFrame(s: State, p: int, v: word)
    requires 0 <= p < 4
    ensures var t := SetPairAF(s, p, v);
      t.sp == s.sp && t.memory == s.memory && t.spill == s.spill
  {
    if p != 3 {
      assert SetPairAF(s, p, v) == SetPair(s, p, v);
    }
  }

  /** POP qq then PUSH qq of the same pair writes back the word it read: memory is as it was
      and SP is back, so only the pair keeps the popped word. */
  lemma PopThenPushRegisters(s: State, op: byte)
    requires IsPop(op)
    ensures var t := Execute(s, op).state;
      Execute(t, op + 4).state == t.(sp := s.sp)
  {
    PopPushOpcodes(op);
    DispatchPop(s, op);
    var t := Pop(s, op).state;
    DispatchPush(t, op + 4);
    PopThenPushStep(s, op);
  }

  /** Storing into a pair, AF included, the word it already holds changes nothing. */
  lemma SetPairAFSame(s: State, p: int)
    requires 0 <= p < 4
    ensures SetPairAF(s, p, GetPairAF(s, p)) == s
  {
    if p == 3 {
      WordBytes(s.a, ToByte(s.f));
      FromByteToByte(s.f);
    }
  }

  lemma PushThenPopStep(s: State, op: byte)
    requires IsPush(op)
    ensures var t := Pop(Push(s, op).state, op - 4).state;
      t == s.(memory := t.memory, spill := t.spill)
  {
    var p := PairIndex(op);
    var v := GetPairAF(s, p);
    assert PairIndex(op - 4) == p;
    PushThenPop(s, v);
    var u := Push16(s, v);
    var w := u.(sp := s.sp);
    assert w == s.(memory := u.memory, spill := u.spill);
    assert GetPairAF(w, p) == v;
    SetPairAFSame(w, p);
  }

  /** PUSH qq then POP qq of the same pair gives back every register, AF included, because
      F survives its trip through a byte; only the two stack cells may differ. */
  lemma PushThenPopRegisters(s: State, op: byte)
    requires IsPush(op)
    ensures var t := Execute(Execute(s, op).state, op - 4).state;
      t == s.(memory := t.memory, spill := t.spill)
  {
    PopPushOpcodes(op - 4);
    DispatchPush(s, op);
    var t := Push(s, op).state;
    DispatchPop(t, op - 4);
    PushThenPopStep(s, op);
  }

  // ---------------------------------------------------------------- jumps, calls, returns

  /** The condition each opcode tests: NZ, Z for 0xC0/0xC8, 0xC2/0xCA and 0xC4/0xCC; but the
      JR cc opcodes 0x20, 0x28, 0x30 and 0x38 are decoded by the same bits 5-3 and so test PO,
      PE, P and M instead of NZ, Z, NC and C. */
  lemma ConditionOpcodes(f: Flags)
    ensures DecodeCondition(f, 0xC0) == !f.z && DecodeCondition(f, 0xC8) == f.z
    ensures DecodeCondition(f, 0xC2) == !f.z && DecodeCondition(f, 0xCA) == f.z
    ensures DecodeCondition(f, 0xC4) == !f.z && DecodeCondition(f, 0xCC) == f.z
    ensures DecodeCondition(f, 0x20) == !f.pv && DecodeCondition(f, 0x28) == f.pv
    ensures DecodeCondition(f, 0x30) == !f.s && DecodeCondition(f, 0x38) == f.s
  {
  }

  /** JP nn and JP cc,nn: the target is the word after the opcode; a jump not taken steps over
      it. Both take 10 T-states. */
  lemma JumpEffect(s: State, op: byte)
    requires op == 0xC2 || op == 0xCA || op == 0xC3
    ensures var taken := op == 0xC3 || (op == 0xC2 && !s.f.z) || (op == 0xCA && s.f.z);
      Execute(s, op) ==
        Outcome(s.(pc := if taken then Read16(s, s.pc) else (s.pc + 2) % 0x1_0000), 10)
  {
    DispatchJump(s, op);
    ConditionOpcodes(s.f);
  }

  /** JR e (0x18) and JR cc,e: a taken jump adds the signed byte after the opcode to the
      address after it (12 T-states); one not taken steps over the byte (7). */
  lemma JumpRelativeEffect(s: State, op: byte)
    requires op == 0x18 || IsJumpRelCondition(op)
    ensures var taken := op == 0x18 || (op == 0x20 && !s.f.pv) || (op == 0x28 && s.f.pv) ||
                         (op == 0x30 && !s.f.s) || (op == 0x38 && s.f.s);
      var next := (s.pc + 1) % 0x1_0000;
      Execute(s, op) ==
        if taken then Outcome(s.(pc := (next + Signed8(s.memory[s.pc])) % 0x1_0000), 12)
        else Outcome(s.(pc := next), 7)
  {
    DispatchJumpRel(s, op);
    ConditionOpcodes(s.f);
  }

  /** DJNZ e (0x10) counts B down modulo 256 and jumps as JR e does unless B reached zero:
      13 T-states when taken, 8 when not. */
  lemma DecrementJumpNonZeroEffect(s: State)
    ensures var b := (High(s.bc) - 1) % 0x100;
      var next := (s.pc + 1) % 0x1_0000;
      var out := Execute(s, 0x10);
      && High(out.state.bc) == b && Low(out.state.bc) == Low(s.bc)
      && out.state.pc == (if b != 0 then (next + Signed8(s.memory[s.pc])) % 0x1_0000 else next)
      && out.state == s.(bc := out.state.bc, pc := out.state.pc)
      && out.cycles == (if b != 0 then 13 else 8)
  {
    DispatchDecrementJumpNonZero(s);
    WordBytes((High(s.bc) - 1) % 0x100, Low(s.bc));
  }

  /** CALL nn and CALL cc,nn: a taken call pushes the address after the operand and jumps to
      the operand (17 T-states); one not taken steps over it (10). */
  lemma CallEffect(s: State, op: byte)
    requires op == 0xC4 || op == 0xCC || op == 0xCD
    ensures var taken := op == 0xCD || (op == 0xC4 && !s.f.z) || (op == 0xCC && s.f.z);
      var next := (s.pc + 2) % 0x1_0000;
      var out := Execute(s, op);
      && (taken ==> out.state == Push16(s.(pc := next), next).(pc := Read16(s, s.pc))
                    && out.cycles == 17)
      && (!taken ==> out == Outcome(s.(pc := next), 10))
  {
    DispatchCall(s, op);
    ConditionOpcodes(s.f);
  }

  /** RET (0xC9) and RET cc: a taken return pops the PC. RET cc takes 15 T-states taken and 11
      not; RET returns 10 T-states. */
  lemma ReturnEffect(s: State, op: byte)
    requires op == 0xC0 || op == 0xC8 || op == 0xC9
    ensures var taken := op == 0xC9 || (op == 0xC0 && !s.f.z) || (op == 0xC8 && s.f.z);
      Execute(s, op) ==
        Outcome(if taken then s.(pc := Read16(s, s.sp), sp := (s.sp + 2) % 0x1_0000) else s,
                if op == 0xC9 then 10 else if taken then 15 else 11)
  {
    ConditionOpcodes(s.f);
  }

  lemma DispatchReturn(s: State)
    ensures Execute(s, 0xC9) == Outcome(RetWithCondition(s, true).state, 10)
  {
  }

  lemma CallTakenStep(s: State)
    ensures var next := (s.pc + 2) % 0x1_0000;
      CallWithCondition(s, true).state == Push16(s.(pc := next), next).(pc := Read16(s, s.pc))
  {
  }

  lemma ReturnTakenStep(s: State, target: word)
    requires Read16(s, s.sp) == target
    ensures RetWithCondition(s, true).state == s.(pc := target, sp := (s.sp + 2) % 0x1_0000)
  {
  }

  lemma PushedWordOnTop(s: State, v: word, pc: word)
    ensures var t := Push16(s, v).(pc := pc);
      Read16(t, t.sp) == v
  {
    Push16Effect(s, v);
  }

  lemma Push16Shape(s: State, v: word)
    ensures var t := Push16(s, v);
      t == s.(sp := (s.sp - 2) % 0x1_0000, memory := t.memory, spill := t.spill)
  {
  }

  lemma CallThenReturnStep(s: State)
    ensures var t := RetWithCondition(CallWithCondition(s, true).state, true).state;
      t == s.(pc := (s.pc + 2) % 0x1_0000, memory := t.memory, spill := t.spill)
  {
    var next := (s.pc + 2) % 0x1_0000;
    var s1 := s.(pc := next);
    var pushed := Push16(s1, next);
    CallTakenStep(s);
    var t1 := pushed.(pc := Read16(s, s.pc));
    PushedWordOnTop(s1, next, Read16(s, s.pc));
    ReturnTakenStep(t1, next);
    Push16Shape(s1, next);
    StackPointerRoundTrip(s.sp);
    assert t1.(pc := next, sp := s.sp) ==
      s.(pc := next, memory := pushed.memory, spill := pushed.spill);
  }

  /** A RET right after a CALL resumes after the CALL's operand with the old SP; only the two
      stack cells may have changed. */
  lemma CallThenReturn(s: State)
    ensures var t := Execute(Execute(s, 0xCD).state, 0xC9).state;
      t == s.(pc := (s.pc + 2) % 0x1_0000, memory := t.memory, spill := t.spill)
  {
    DispatchCall(s, 0xCD);
    DispatchReturn(Execute(s, 0xCD).state);
    CallThenReturnStep(s);
  }

  /** RST 00h (0xC7), the only restart with a case: the PC is pushed and becomes 0, in 11
      T-states. */
  lemma RestartEffect(s: State)
    ensures Execute(s, 0xC7) == Outcome(Push16(s, s.pc).(pc := 0x0000), 11)
  {
  }

  // ---------------------------------------------------------------- opcodes with no case

  /** A byte with no case in the switch, HALT and the DD, ED and FD prefixes among them,
      changes nothing and takes 0 T-states. */
  lemma UndefinedOpcode(s: State, op: byte)
    requires !Implemented(op)
    ensures Execute(s, op) == Outcome(s, 0)
  {
  }

  /** HALT (0x76) and the DD, ED and FD prefixes have no case. */
  lemma UndefinedHaltAndPrefixes()
    ensures !Implemented(0x76) && !Implemented(0xDD) && !Implemented(0xED) && !Implemented(0xFD)
  {
  }

  /** Neither do OUT (n),A, IN A,(n), DI and EI. */
  lemma UndefinedPortsAndLatches()
    ensures !Implemented(0xD3) && !Implemented(0xDB) && !Implemented(0xF3) && !Implemented(0xFB)
  {
  }

  /** Of the eight RST opcodes only RST 0 (0xC7) has a case. */
  lemma UndefinedRestarts(op: byte)
    requires op % 8 == 7 && op >= 0xC0 && op != 0xC7
    ensures !Implemented(op)
  {
  }

  /** The CB prefix fetches the second opcode (a refresh and a step of the PC) and then
      fails with 0 T-states, whatever that opcode is. */
  lemma PrefixCBEffect(s: State)
    ensures Execute(s, 0xCB) ==
      Outcome(s.(r := (s.r + 1) % 0x80, pc := (s.pc + 1) % 0x1_0000), 0)
  {
  }
}
