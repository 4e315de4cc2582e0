/** The state of the C emulator's Z80 engine and its memory, stack, operand and condition
    helpers (`memory_*`, `z80_next8/16`, `z80_push16/pop16`, `z80_memory_refresh`,
    `z80_fetch_opcode`, `z80_decode_reg8`, `z80_decode_condition` and the jump, call and return
    helpers), as functions from a state to a state.

    The register pairs are kept as 16-bit values, the union's `.bytes.high` and `.bytes.low`
    being `High` and `Low` of them. AF is kept as its two halves, A as a byte and F as `Flags`,
    because F is used flag by flag. The 64 KiB `memory[]` is a sequence of 65536 bytes; the C
    word access at address 0xFFFF touches the byte just past the array, which is kept here as
    the separate cell `spill`. */
module Machine {
  import opened Bits
  import opened Alu

  const MEMORY_SIZE: int := 0x1_0000

  type Memory = m: seq<byte> | |m| == MEMORY_SIZE witness seq(MEMORY_SIZE, _ => 0)

  datatype State = State(
    a: byte, f: Flags, bc: word, de: word, hl: word, sp: word, pc: word,
    a2: byte, f2: Flags,
    i: byte, r: byte, dataBus: byte,
    memory: Memory, spill: byte,
    iff1: bool, iff2: bool, imode: int, canExecute: bool,
    nmiRequest: bool, intRequest: bool)

  /** A state after an instruction or interrupt, with the T-states it took. */
  datatype Outcome = Outcome(state: State, cycles: int)

  /** The state before `z80_reset`: C globals start at zero, and `memory_load_rom` has copied
      the ROM image to address 0. */
  function PowerOn(rom: seq<byte>): (s: State)
    requires |rom| <= MEMORY_SIZE
    ensures s.memory[..|rom|] == rom
    ensures forall k :: |rom| <= k < MEMORY_SIZE ==> s.memory[k] == 0
  {
    State(0, FromByte(0), 0, 0, 0, 0, 0, 0, FromByte(0), 0, 0, 0,
          rom + seq(MEMORY_SIZE - |rom|, _ => 0), 0, false, false, 0, false, false, false)
  }

  /** `reg.byte_value + n` stored back into an unsigned short. */
  function Add16Wrap(w: word, n: int): (r: word)
    ensures r == (w + n) % 0x1_0000
  {
    (w + n) % 0x1_0000
  }

  // ---------------------------------------------------------------- memory

  /** `memory_read8`. */
  function Read8(s: State, addr: word): byte
  {
    s.memory[addr]
  }

  /** `memory_write8`. */
  function Write8(s: State, addr: word, v: byte): (t: State)
    ensures t.memory[addr] == v
    ensures forall k :: 0 <= k < MEMORY_SIZE && k != addr ==> t.memory[k] == s.memory[k]
    ensures t == s.(memory := t.memory)
  {
    s.(memory := s.memory[addr := v])
  }

  /** `memory_read16`: the byte at addr is the low half, the next byte the high half; at
      0xFFFF the next byte is the one past the array. */
  function Read16(s: State, addr: word): word
  {
    Word(if addr == 0xFFFF then s.spill else s.memory[addr + 1], s.memory[addr])
  }

  /** `memory_write16`: stores the low half at addr and the high half after it. */
  function Write16(s: State, addr: word, v: word): (t: State)
    ensures t == s.(memory := t.memory, spill := t.spill)
    ensures Read16(t, addr) == v
  {
    var t := s.(memory := s.memory[addr := Low(v)]);
    if addr == 0xFFFF then t.(spill := High(v)) else t.(memory := t.memory[addr + 1 := High(v)])
  }

  // ---------------------------------------------------------------- registers

  /** `z80_all8[i]`, and `(HL)` for slot 6: B, C, D, E, H, L, (HL), A. */
  function Get8(s: State, i: int): byte
    requires 0 <= i < 8
  {
    match i
    case 0 => High(s.bc)
    case 1 => Low(s.bc)
    case 2 => High(s.de)
    case 3 => Low(s.de)
    case 4 => High(s.hl)
    case 5 => Low(s.hl)
    case 6 => Read8(s, s.hl)
    case 7 => s.a
  }

  /** A store through the pointer `z80_decode_reg8` returns. */
  function Set8(s: State, i: int, v: byte): (t: State)
    requires 0 <= i < 8
    ensures Get8(t, i) == v
  {
    match i
    case 0 => s.(bc := Word(v, Low(s.bc)))
    case 1 => s.(bc := Word(High(s.bc), v))
    case 2 => s.(de := Word(v, Low(s.de)))
    case 3 => s.(de := Word(High(s.de), v))
    case 4 => s.(hl := Word(v, Low(s.hl)))
    case 5 => s.(hl := Word(High(s.hl), v))
    case 6 => Write8(s, s.hl, v)
    case 7 => s.(a := v)
  }

  /** `z80_bc_de_hl_sp[p]`. */
  function GetPair(s: State, p: int): word
    requires 0 <= p < 4
  {
    match p
    case 0 => s.bc
    case 1 => s.de
    case 2 => s.hl
    case 3 => s.sp
  }

  function SetPair(s: State, p: int, v: word): (t: State)
    requires 0 <= p < 4
    ensures GetPair(t, p) == v
  {
    match p
    case 0 => s.(bc := v)
    case 1 => s.(de := v)
    case 2 => s.(hl := v)
    case 3 => s.(sp := v)
  }

  /** AF as the 16-bit value the union holds: A high, F low. */
  function AF(s: State): word
  {
    Word(s.a, ToByte(s.f))
  }

  /** `z80_bc_de_hl_af[p]`. */
  function GetPairAF(s: State, p: int): word
    requires 0 <= p < 4
  {
    if p == 3 then AF(s) else GetPair(s, p)
  }

  function SetPairAF(s: State, p: int, v: word): State
    requires 0 <= p < 4
  {
    if p == 3 then s.(a := High(v), f := FromByte(Low(v))) else SetPair(s, p, v)
  }

  // ---------------------------------------------------------------- the helpers on registers

  /** `register_add8_with_flags` on the register in slot i. */
  function Add8WithFlags(s: State, i: int, alt: byte, mask: Flags): State
    requires 0 <= i < 8
  {
    var out := Add8(Get8(s, i), alt, s.f, mask);
    Set8(s, i, out.value).(f := out.flags)
  }

  /** `register_sub8_with_flags` on the register in slot i. */
  function Sub8WithFlags(s: State, i: int, alt: byte, mask: Flags): State
    requires 0 <= i < 8
  {
    var out := Sub8(Get8(s, i), alt, s.f, mask);
    Set8(s, i, out.value).(f := out.flags)
  }

  /** `register_add16_with_flags` on the pair p of `z80_bc_de_hl_sp`. */
  function Add16WithFlags(s: State, p: int, alt: word, mask: Flags): State
    requires 0 <= p < 4
  {
    var out := Add16(GetPair(s, p), alt, s.f, mask);
    SetPair(s, p, out.value).(f := out.flags)
  }

  /** `register_sub16_with_flags` on the pair p of `z80_bc_de_hl_sp`. */
  function Sub16WithFlags(s: State, p: int, alt: word, mask: Flags): State
    requires 0 <= p < 4
  {
    var out := Sub16(GetPair(s, p), alt, s.f, mask);
    SetPair(s, p, out.value).(f := out.flags)
  }

  /** `register_left8_with_flags` on A, the only register it is applied to. */
  function Left8WithFlags(s: State, mask: Flags, b: bool): State
  {
    var out := Left8(s.a, mask, b, s.f);
    s.(a := out.value, f := out.flags)
  }

  /** `register_right8_with_flags` on A. */
  function Right8WithFlags(s: State, mask: Flags, b: bool): State
  {
    var out := Right8(s.a, mask, b, s.f);
    s.(a := out.value, f := out.flags)
  }

  /** `register_a_set_flag_s_z_p`. */
  function SetFlagsSZP(s: State): State
  {
    s.(f := SignZeroParity(s.a, s.f))
  }

  // ---------------------------------------------------------------- fetch and stack

  /** `z80_memory_refresh`: R counts modulo 128. */
  function MemoryRefresh(s: State): (t: State)
    ensures t == s.(r := t.r) && t.r < 0x80
  {
    s.(r := (s.r + 1) % 0x80)
  }

  /** `z80_next8`: the byte at PC, and PC advanced by one. */
  function Next8(s: State): (byte, State)
  {
    (Read8(s, s.pc), s.(pc := Add16Wrap(s.pc, 1)))
  }

  /** `z80_next16`: the word at PC, and PC advanced by two. */
  function Next16(s: State): (word, State)
  {
    (Read16(s, s.pc), s.(pc := Add16Wrap(s.pc, 2)))
  }

  /** `z80_push16`: SP is lowered by two, then the word is stored at the new SP. */
  function Push16(s: State, v: word): State
  {
    var sp := Add16Wrap(s.sp, -2);
    Write16(s.(sp := sp), sp, v)
  }

  /** `z80_pop16`: the word at SP, and SP raised by two. */
  function Pop16(s: State): (word, State)
  {
    (Read16(s, s.sp), s.(sp := Add16Wrap(s.sp, 2)))
  }

  /** `z80_fetch_opcode`: a refresh, then the next byte. */
  function FetchOpcode(s: State): (byte, State)
  {
    Next8(MemoryRefresh(s))
  }

  // ---------------------------------------------------------------- decoding

  /** `reg >> pos & 0x07`, the register slot `z80_decode_reg8` selects. */
  function Slot(op: byte, pos: nat): (i: int)
    ensures 0 <= i < 8
  {
    (op / Pow2(pos)) % 8
  }

  /** The T-states `z80_decode_reg8` adds: t for the memory slot (HL), none for a register. */
  function SlotCost(i: int, t: int): int
  {
    if i == 6 then t else 0
  }

  /** `reg >> 4 & 0x03`, the register pair an opcode names. */
  function PairIndex(op: byte): (p: int)
    ensures 0 <= p < 4
  {
    (op / 16) % 4
  }

  /** `z80_decode_condition`: bits 5-3 select NZ, Z, NC, C, PO, PE, P, M. */
  function DecodeCondition(f: Flags, op: byte): bool
  {
    match (op / 8) % 8
    case 0 => !f.z
    case 1 => f.z
    case 2 => !f.c
    case 3 => f.c
    case 4 => !f.pv
    case 5 => f.pv
    case 6 => !f.s
    case 7 => f.s
  }

  // ---------------------------------------------------------------- control flow

  /** `z80_jump_with_condition`: the target is read whether or not the jump is taken. */
  function JumpWithCondition(s: State, c: bool): Outcome
  {
    var (target, s1) := Next16(s);
    Outcome(if c then s1.(pc := target) else s1, 10)
  }

  /** `z80_jump_rel_with_condition`: the displacement is a signed byte added to the PC that
      follows it. */
  function JumpRelWithCondition(s: State, c: bool): Outcome
  {
    var (d, s1) := Next8(s);
    if c then Outcome(s1.(pc := Add16Wrap(s1.pc, Signed8(d))), 12) else Outcome(s1, 7)
  }

  /** `z80_ret_with_condition`. */
  function RetWithCondition(s: State, c: bool): Outcome
  {
    if c then
      var (target, s1) := Pop16(s);
      Outcome(s1.(pc := target), 15)
    else
      Outcome(s, 11)
  }

  /** `z80_call_with_condition`: the target is read whether or not the call is taken; a taken
      call pushes the address after it. */
  function CallWithCondition(s: State, c: bool): Outcome
  {
    var (target, s1) := Next16(s);
    if c then Outcome(Push16(s1, s1.pc).(pc := target), 17) else Outcome(s1, 10)
  }
}
