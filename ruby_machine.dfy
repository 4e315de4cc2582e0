/** The Ruby draft of the engine, `machine.rb`: a `Z80` object whose `run` executes one
    instruction among opcodes 0x00 to 0x08.

    Ruby integers are unbounded and signed, so the registers are `int`s here and the draft's
    own conventions are kept: a register that overflows is reset to -1 (`INC B`, `INC BC`),
    and `pair` maps a negative low byte `l` to `127 - l`. The flags byte `@f` is only ever
    combined with the 8-bit flag masks, starting from 0, so it is kept as a `byte`.

    `@memory` is a Ruby `Array`: an index below zero counts from the end, an index outside
    the array reads `nil`. The wall-clock pacing of `run` (`Time.now`, `sleep`) is left out;
    `run` returns the t-state count that pacing would use. */
module RubyMachine {
  import opened Bits

  const MAX4: int := 0x10
  const MAX7: int := 0x80
  const MAX8: int := 0x100

  const FLAG_C: byte := 0x01
  const FLAG_N: byte := 0x02
  const FLAG_PV: byte := 0x04
  const FLAG_HC: byte := 0x10
  const FLAG_Z: byte := 0x40
  const FLAG_S: byte := 0x80

  /** Length of `@memory`: 48 KiB. */
  const MEMORY_SIZE: nat := 49152

  /** The instance variables of a `Z80` object; `a'` to `l'` are the shadow registers. */
  datatype State = Values(
    a: int, b: int, c: int, d: int, e: int, f: byte, h: int, l: int,
    a': int, b': int, c': int, d': int, e': int, f': byte, h': int, l': int,
    sp: int, pc: int, i: int, x: int, y: int,
    memory: seq<int>)

  /** The state `initialize` leaves: every register 0 and 48 KiB of zeroed memory. */
  const INITIAL: State := Values(0, 0, 0, 0, 0, 0, 0, 0, 0, 0, 0, 0, 0, 0, 0, 0, 0, 0, 0, 0, 0,
                                 seq(MEMORY_SIZE, _ => 0))

  /** Why a `run` does not complete. `Failed` is the `fail` of the `else` branch and
      `IndexError` the error Ruby raises for a store far below the start of the array; the
      other two stand for behaviour the model does not follow (see the README). */
  datatype Fault = Failed | IndexError | NilOperand | GrowsMemory

  datatype Outcome = Stepped(next: State, tStates: nat) | Raised(fault: Fault)

  // ---------------------------------------------------------------- memory and pairs

  /** Whether `@memory[k]` names an element (and does not read `nil`). */
  predicate Present(memory: seq<int>, k: int)
  {
    -|memory| <= k < |memory|
  }

  /** The element `@memory[k]` names: a negative index counts from the end. */
  function Slot(memory: seq<int>, k: int): (j: nat)
    requires Present(memory, k)
    ensures j < |memory|
    ensures j % |memory| == k % |memory|
  {
    if k < 0 then |memory| + k else k
  }

  /** `pair`: the address of a register pair. A low byte from 0 to 255 is kept as is; a
      negative one, the draft's overflowed register, is mapped to 127 - l, so -1 to -128
      land on 128 to 255 in reverse order. */
  function Pair(h: int, l: int): (r: int)
    ensures 0 <= l < MAX8 ==> r / MAX8 == h && r % MAX8 == l
    ensures -MAX7 <= l < 0 ==> r / MAX8 == h && r % MAX8 == MAX7 - 1 - l
  {
    var low := if l < 0 then MAX7 - (l + 1) else l;
    h * MAX8 + low
  }

  // ---------------------------------------------------------------- the instructions

  /** INC BC: C goes up by one; when it reaches 128, B goes up modulo 128 (`& 127` on a
      Ruby integer) and C becomes -1. */
  function IncBC(s: State): State
  {
    var c := s.c + 1;
    if c == MAX7 then s.(b := (s.b + 1) % MAX7, c := -1) else s.(c := c)
  }

  /** INC B with the draft's flag updates: several flags are toggled (`^=`) where the chip
      would clear them. */
  function IncB(s: State): State
  {
    var b := s.b + 1;
    var f := Xor8(s.f, FLAG_N);
    if b == MAX7 then s.(b := -1, f := Or8(f, FLAG_PV + FLAG_S))
    else
      var f := Xor8(f, FLAG_PV + FLAG_S);
      if b == MAX4 then s.(b := b, f := Or8(f, FLAG_HC))
      else
        var f := Xor8(f, FLAG_HC);
        s.(b := b, f := if b == 0 then Or8(f, FLAG_Z) else Xor8(f, FLAG_Z))
  }

  /** DEC B with the draft's flag updates. */
  function DecB(s: State): State
  {
    var b := s.b - 1;
    var f := Or8(s.f, FLAG_N);
    if b - 1 == -MAX7 then s.(b := 0, f := Xor8(Or8(f, FLAG_PV), FLAG_S))
    else
      var f := Or8(Xor8(f, FLAG_PV), FLAG_S);
      if b - 1 == -MAX4 then s.(b := b, f := Or8(f, FLAG_HC))
      else
        var f := Xor8(f, FLAG_HC);
        s.(b := b, f := if b == 0 then Or8(f, FLAG_Z) else Xor8(f, FLAG_Z))
  }

  /** RLCA as the draft writes it: A doubles; the carry flag is set when A is negative and
      toggled otherwise. */
  function Rlca(s: State): State
  {
    var a := s.a * 2;
    var f := Xor8(s.f, FLAG_N + FLAG_HC);
    s.(a := a, f := if a < 0 then Or8(f, FLAG_C) else Xor8(f, FLAG_C))
  }

  /** EX AF,AF': A and F trade places with their shadows. */
  function ExchangeAF(s: State): State
  {
    s.(a := s.a', f := s.f', a' := s.a, f' := s.f)
  }

  /** One `run`: the instruction at `@pc`, then `@pc` advanced by its size. */
  function Step(s: State): Outcome
  {
    if !Present(s.memory, s.pc) then Raised(Failed)
    else
      var op := s.memory[Slot(s.memory, s.pc)];
      if op == 0x00 then Stepped(s.(pc := s.pc + 1), 4)
      else if op == 0x01 then
        if !Present(s.memory, s.pc + 2) || !Present(s.memory, s.pc + 1) then Raised(NilOperand)
        else
          var hi := s.memory[Slot(s.memory, s.pc + 2)];
          var lo := s.memory[Slot(s.memory, s.pc + 1)];
          Stepped(s.(b := hi, c := lo, pc := s.pc + 3), 10)
      else if op == 0x02 then
        var k := Pair(s.b, s.c);
        if k < -|s.memory| then Raised(IndexError)
        else if k >= |s.memory| then Raised(GrowsMemory)
        else Stepped(s.(memory := s.memory[Slot(s.memory, k) := s.a], pc := s.pc + 1), 7)
      else if op == 0x03 then Stepped(IncBC(s).(pc := s.pc + 1), 6)
      else if op == 0x04 then Stepped(IncB(s).(pc := s.pc + 1), 4)
      else if op == 0x05 then Stepped(DecB(s).(pc := s.pc + 1), 4)
      else if op == 0x06 then
        if !Present(s.memory, s.pc + 1) then Raised(NilOperand)
        else Stepped(s.(b := s.memory[Slot(s.memory, s.pc + 1)], pc := s.pc + 2), 7)
      else if op == 0x07 then Stepped(Rlca(s).(pc := s.pc + 1), 4)
      else if op == 0x08 then Stepped(ExchangeAF(s).(pc := s.pc + 1), 4)
      else Raised(Failed)
  }

  // ---------------------------------------------------------------- properties of a step

  /** A step keeps the length of `@memory`. */
  lemma StepKeepsMemorySize(s: State)
    ensures Step(s).Stepped? ==> |Step(s).next.memory| == |s.memory|
  {
  }

  /** NOP only advances `@pc`, by one, in 4 t-states. */
  lemma NopOnlyAdvances(s: State)
    requires Present(s.memory, s.pc) && s.memory[Slot(s.memory, s.pc)] == 0x00
    ensures Step(s) == Stepped(s.(pc := s.pc + 1), 4)
  {
  }

  /** LD BC,HHLL: B takes the byte two past the opcode and C the byte just after it; `@pc`
      moves past the three bytes, in 10 t-states. */
  lemma LoadBCImmediate(s: State)
    requires 0 <= s.pc && s.pc + 2 < |s.memory| && s.memory[s.pc] == 0x01
    ensures Step(s).Stepped? && Step(s).tStates == 10
    ensures Step(s).next == s.(b := s.memory[s.pc + 2], c := s.memory[s.pc + 1], pc := s.pc + 3)
  {
  }

  /** LD BC,HHLL at the last or next-to-last cell reads `nil` for an operand. */
  lemma LoadBCAtEnd(s: State)
    requires 0 <= s.pc < |s.memory| && |s.memory| <= s.pc + 2 && s.memory[s.pc] == 0x01
    ensures Step(s) == Raised(NilOperand)
  {
  }

  /** LD B,NN: B takes the byte after the opcode and `@pc` moves past both, in 7 t-states. */
  lemma LoadBImmediate(s: State)
    requires 0 <= s.pc && s.pc + 1 < |s.memory| && s.memory[s.pc] == 0x06
    ensures Step(s) == Stepped(s.(b := s.memory[s.pc + 1], pc := s.pc + 2), 7)
  {
  }

  /** LD (BC),A with B and C in byte range: the cell at B * 256 + C takes A; no other cell
      and no register but `@pc` changes. */
  lemma StoreThroughBC(s: State)
    requires 0 <= s.pc < |s.memory| && s.memory[s.pc] == 0x02
    requires 0 <= s.b && 0 <= s.c < MAX8 && s.b * MAX8 + s.c < |s.memory|
    ensures Step(s).Stepped? && Step(s).tStates == 7
    ensures Step(s).next.memory[s.b * MAX8 + s.c] == s.a
    ensures forall k | 0 <= k < |s.memory| && k != s.b * MAX8 + s.c ::
      Step(s).next.memory[k] == s.memory[k]
    ensures Step(s).next == s.(memory := Step(s).next.memory, pc := s.pc + 1)
  {
  }

  /** LD (BC),A through a pair past the end of the array does not store: a Ruby array would
      grow, which the model reports as `GrowsMemory`. */
  lemma StoreThroughBCOutside(s: State)
    requires 0 <= s.pc < |s.memory| && s.memory[s.pc] == 0x02
    requires Pair(s.b, s.c) >= |s.memory|
    ensures Step(s) == Raised(GrowsMemory)
  {
  }

  /** INC BC below the overflow point raises C by one and keeps B. */
  lemma IncBCPlain(s: State)
    requires 0 <= s.pc < |s.memory| && s.memory[s.pc] == 0x03 && s.c != MAX7 - 1
    ensures Step(s) == Stepped(s.(c := s.c + 1, pc := s.pc + 1), 6)
  {
  }

  /** INC BC from C = 127: B goes up modulo 128 and C becomes -1. */
  lemma IncBCOverflow(s: State)
    requires 0 <= s.pc < |s.memory| && s.memory[s.pc] == 0x03 && s.c == MAX7 - 1
    ensures Step(s) == Stepped(s.(b := (s.b + 1) % MAX7, c := -1, pc := s.pc + 1), 6)
  {
  }

  /** What INC BC does to the address `pair` forms: one more while C is in 0 to 126, one
      less while C is in -128 to -2 (the reversed negative range), 128 less from C = -1, and
      257 more from C = 127 when B is below 127 (B * 256 + 127 goes to (B + 1) * 256 + 128). */
  lemma {:induction false} IncBCPair(s: State)
    requires -MAX7 <= s.c < MAX7
    ensures 0 <= s.c < MAX7 - 1 ==> Pair(IncBC(s).b, IncBC(s).c) == Pair(s.b, s.c) + 1
    ensures -MAX7 <= s.c < -1 ==> Pair(IncBC(s).b, IncBC(s).c) == Pair(s.b, s.c) - 1
    ensures s.c == -1 ==> Pair(IncBC(s).b, IncBC(s).c) == Pair(s.b, s.c) - MAX7
    ensures s.c == MAX7 - 1 && 0 <= s.b < MAX7 - 1 ==>
      Pair(IncBC(s).b, IncBC(s).c) == Pair(s.b, s.c) + MAX8 + 1
  {
    if s.c == MAX7 - 1 && 0 <= s.b < MAX7 - 1 {
      assert IncBC(s).b == s.b + 1;
    }
  }

  /** INC B then DEC B gives B back, unless B was 127 (INC sets -1) or -127 (DEC sets 0). */
  lemma IncThenDecB(s: State)
    requires s.b != MAX7 - 1 && s.b != 1 - MAX7
    ensures DecB(IncB(s)).b == s.b
  {
  }

  /** INC B that brings B to 0 (from -1) sets the zero flag. */
  lemma IncBToZeroSetsZ(s: State)
    requires s.b == -1
    ensures IncB(s).b == 0 && Bit(IncB(s).f, 6)
  {
    var f := Xor8(Xor8(Xor8(s.f, FLAG_N), FLAG_PV + FLAG_S), FLAG_HC);
    Or8Bit(f, FLAG_Z, 6);
    PowerBits(6, 6);
  }

  /** INC B to any other value but 16 and 128 toggles the zero flag instead of clearing it,
      and toggles N, P/V, S and H. */
  lemma IncBTogglesFlags(s: State, k: nat)
    requires s.b + 1 != MAX7 && s.b + 1 != MAX4 && s.b + 1 != 0 && k < 8
    ensures Bit(IncB(s).f, k) == (Bit(s.f, k) != (k == 1 || k == 2 || k == 4 || k == 6 || k == 7))
  {
    var f1 := Xor8(s.f, FLAG_N);
    var f2 := Xor8(f1, FLAG_PV + FLAG_S);
    var f3 := Xor8(f2, FLAG_HC);
    Xor8Bit(s.f, FLAG_N, k);
    Xor8Bit(f1, FLAG_PV + FLAG_S, k);
    Xor8Bit(f2, FLAG_HC, k);
    Xor8Bit(f3, FLAG_Z, k);
    FlagMaskBits(k);
  }

  /** The bits of the flag masks the draft uses. */
  lemma FlagMaskBits(k: nat)
    requires k < 8
    ensures Bit(FLAG_N, k) == (k == 1) && Bit(FLAG_HC, k) == (k == 4) && Bit(FLAG_Z, k) == (k == 6)
    ensures Bit(FLAG_C, k) == (k == 0) && Bit(FLAG_PV + FLAG_S, k) == (k == 2 || k == 7)
  {
    PowerBits(1, k);
    PowerBits(4, k);
    PowerBits(6, k);
    PowerBits(0, k);
    if k == 0 { } else if k == 1 { } else if k == 2 { } else if k == 3 { }
    else if k == 4 { } else if k == 5 { } else if k == 6 { } else { }
  }

  /** DEC B from 1 sets B to 0 and the zero flag. */
  lemma DecBToZeroSetsZ(s: State)
    requires s.b == 1
    ensures DecB(s).b == 0 && Bit(DecB(s).f, 6)
  {
    var f := Xor8(Or8(Xor8(Or8(s.f, FLAG_N), FLAG_PV), FLAG_S), FLAG_HC);
    Or8Bit(f, FLAG_Z, 6);
    PowerBits(6, 6);
  }

  /** RLCA doubles A; the carry flag ends set when A was negative and toggled otherwise. */
  lemma RlcaCarry(s: State)
    ensures Rlca(s).a == 2 * s.a
    ensures Bit(Rlca(s).f, 0) == (s.a < 0 || !Bit(s.f, 0))
  {
    var f := Xor8(s.f, FLAG_N + FLAG_HC);
    Xor8Bit(s.f, FLAG_N + FLAG_HC, 0);
    FlagMaskBits(0);
    assert !Bit(FLAG_N + FLAG_HC, 0);
    if s.a < 0 {
      Or8Bit(f, FLAG_C, 0);
    } else {
      Xor8Bit(f, FLAG_C, 0);
    }
  }

  /** EX AF,AF' twice gives back A, F and their shadows: the state is the one before, but
      for `@pc`, two further on, after 4 t-states each. */
  lemma ExchangeTwice(s: State)
    requires 0 <= s.pc && s.pc + 1 < |s.memory|
    requires s.memory[s.pc] == 0x08 && s.memory[s.pc + 1] == 0x08
    ensures Step(s).Stepped? && Step(s).tStates == 4
    ensures Step(Step(s).next) == Stepped(s.(pc := s.pc + 2), 4)
  {
    assert Step(s) == Stepped(ExchangeAF(s).(pc := s.pc + 1), 4);
  }

  /** An opcode other than 0x00 to 0x08, or `nil` past the array, makes `run` fail. */
  lemma UnknownOpcodeFails(s: State)
    requires !Present(s.memory, s.pc) || s.memory[Slot(s.memory, s.pc)] !in {0, 1, 2, 3, 4, 5, 6, 7, 8}
    ensures Step(s) == Raised(Failed)
  {
  }

  /** The script's `Z80.new.run`: the first instruction of a fresh object is the NOP at
      address 0, which only moves `@pc` to 1. */
  lemma FirstRunIsNop()
    ensures Step(INITIAL) == Stepped(INITIAL.(pc := 1), 4)
  {
  }

  // ---------------------------------------------------------------- the object

  /** A `Z80` object; `run` updates its instance variables in place. */
  class Z80 {
    var a: int, b: int, c: int, d: int, e: int, f: byte, h: int, l: int
    var a': int, b': int, c': int, d': int, e': int, f': byte, h': int, l': int
    var sp: int, pc: int, i: int, x: int, y: int
    const memory: array<int>
    /** Milliseconds per t-state; only the pacing, left out, uses it. */
    var stateDuration: int

    ghost function State(): State
      reads this, memory
    {
      Values(a, b, c, d, e, f, h, l, a', b', c', d', e', f', h', l', sp, pc, i, x, y, memory[..])
    }

    /** `initialize`: every register 0 and 48 KiB of zeroed memory. */
    constructor()
      ensures fresh(memory) && memory.Length == MEMORY_SIZE && stateDuration == 1
      ensures State() == INITIAL
    {
      a, b, c, d, e, f, h, l := 0, 0, 0, 0, 0, 0, 0, 0;
      a', b', c', d', e', f', h', l' := 0, 0, 0, 0, 0, 0, 0, 0;
      sp, pc, i, x, y := 0, 0, 0, 0, 0;
      memory := new int[MEMORY_SIZE](_ => 0);
      stateDuration := 1;
    }

    /** `@memory[k]`, `k` being present. */
    method Read(k: int) returns (v: int)
      requires Present(memory[..], k)
      ensures v == memory[Slot(memory[..], k)]
    {
      if k < 0 {
        v := memory[memory.Length + k];
      } else {
        v := memory[k];
      }
    }

    /** `run`: executes the instruction at `@pc` and returns its t-states; on a fault nothing
        has changed. */
    method Run() returns (r: Outcome)
      modifies this, memory
      ensures match Step(old(State()))
        case Stepped(next, t) => State() == next && r == Stepped(next, t)
        case Raised(e) => State() == old(State()) && r == Raised(e)
    {
      if !Present(memory[..], pc) {
        return Raised(Failed);
      }
      var tStates := 4;
      var opSize := 1;
      var op := Read(pc);
      if op == 0x00 {
      } else if op == 0x01 {
        if !Present(memory[..], pc + 2) || !Present(memory[..], pc + 1) {
          return Raised(NilOperand);
        }
        LoadBC();
        tStates, opSize := 10, 3;
      } else if op == 0x02 {
        var k := Pair(b, c);
        if k < -memory.Length {
          return Raised(IndexError);
        } else if k >= memory.Length {
          return Raised(GrowsMemory);
        }
        StoreA(k);
        tStates := 7;
      } else if op == 0x03 {
        IncrementBC();
        tStates := 6;
      } else if op == 0x04 {
        IncrementB();
      } else if op == 0x05 {
        DecrementB();
      } else if op == 0x06 {
        if !Present(memory[..], pc + 1) {
          return Raised(NilOperand);
        }
        LoadB();
        tStates, opSize := 7, 2;
      } else if op == 0x07 {
        RotateA();
      } else if op == 0x08 {
        Exchange();
      } else {
        return Raised(Failed);
      }
      SetPC(pc + opSize);
      r := Stepped(Values(a, b, c, d, e, f, h, l, a', b', c', d', e', f', h', l', sp, pc, i, x, y,
                          memory[..]), tStates);
    }

    /** The LD BC,HHLL branch of `run`, before `@pc` moves. */
    method LoadBC()
      requires Present(memory[..], pc + 2) && Present(memory[..], pc + 1)
      modifies this
      ensures var s := old(State());
        State() == s.(b := s.memory[Slot(s.memory, s.pc + 2)], c := s.memory[Slot(s.memory, s.pc + 1)])
    {
      var hi := Read(pc + 2);
      var lo := Read(pc + 1);
      b, c := hi, lo;
    }

    /** The LD (BC),A branch of `run`, `k` being `pair(@b, @c)`. */
    method StoreA(k: int)
      requires Present(memory[..], k)
      modifies memory
      ensures State() == old(State()).(memory := old(memory[..])[Slot(old(memory[..]), k) := a])
    {
      memory[Slot(memory[..], k)] := a;
    }

    /** The INC BC branch of `run`. */
    method IncrementBC()
      modifies this
      ensures State() == IncBC(old(State()))
    {
      c := c + 1;
      if c == MAX7 {
        b, c := (b + 1) % MAX7, -1;
      }
    }

    /** The INC B branch of `run`. */
    method IncrementB()
      modifies this
      ensures State() == IncB(old(State()))
    {
      var nb := b + 1;
      var nf := Xor8(f, FLAG_N);
      if nb == MAX7 {
        nb := -1;
        nf := Or8(nf, FLAG_PV + FLAG_S);
      } else {
        nf := Xor8(nf, FLAG_PV + FLAG_S);
        if nb == MAX4 {
          nf := Or8(nf, FLAG_HC);
        } else {
          nf := Xor8(nf, FLAG_HC);
          if nb == 0 {
            nf := Or8(nf, FLAG_Z);
          } else {
            nf := Xor8(nf, FLAG_Z);
          }
        }
      }
      SetBF(nb, nf);
    }

    /** The DEC B branch of `run`. */
    method DecrementB()
      modifies this
      ensures State() == DecB(old(State()))
    {
      var nb := b - 1;
      var nf := Or8(f, FLAG_N);
      if nb - 1 == -MAX7 {
        nb := 0;
        nf := Or8(nf, FLAG_PV);
        nf := Xor8(nf, FLAG_S);
      } else {
        nf := Xor8(nf, FLAG_PV);
        nf := Or8(nf, FLAG_S);
        if nb - 1 == -MAX4 {
          nf := Or8(nf, FLAG_HC);
        } else {
          nf := Xor8(nf, FLAG_HC);
          if nb == 0 {
            nf := Or8(nf, FLAG_Z);
          } else {
            nf := Xor8(nf, FLAG_Z);
          }
        }
      }
      SetBF(nb, nf);
    }

    /** The LD B,NN branch of `run`, before `@pc` moves. */
    method LoadB()
      requires Present(memory[..], pc + 1)
      modifies this
      ensures var s := old(State()); State() == s.(b := s.memory[Slot(s.memory, s.pc + 1)])
    {
      b := Read(pc + 1);
    }

    /** The RLCA branch of `run`. */
    method RotateA()
      modifies this
      ensures State() == Rlca(old(State()))
    {
      var na := a * 2;
      var nf := Xor8(f, FLAG_N + FLAG_HC);
      if na < 0 {
        nf := Or8(nf, FLAG_C);
      } else {
        nf := Xor8(nf, FLAG_C);
      }
      SetAF(na, nf);
    }

    /** The EX AF,AF' branch of `run`. */
    method Exchange()
      modifies this
      ensures State() == ExchangeAF(old(State()))
    {
      var na, nf, sa, sf := a', f', a, f;
      SetAF(na, nf);
      SetShadowAF(sa, sf);
    }

    method SetAF(na: int, nf: byte)
      modifies this
      ensures State() == old(State()).(a := na, f := nf)
    {
      a, f := na, nf;
    }

    method SetShadowAF(na: int, nf: byte)
      modifies this
      ensures State() == old(State()).(a' := na, f' := nf)
    {
      a', f' := na, nf;
    }

    method SetPC(n: int)
      modifies this
      ensures State() == old(State()).(pc := n)
    {
      pc := n;
    }

    method SetBF(nb: int, nf: byte)
      modifies this
      ensures State() == old(State()).(b := nb, f := nf)
    {
      b, f := nb, nf;
    }
  }
}
