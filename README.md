# A Dafny model of the chrimeea/z80 emulator core

This project models two parts of a ZX Spectrum emulator:

- **The Z80 engine of the C emulator (`c/main.c`).** It keeps a global register file, the
  interrupt latches and a 64 KiB `memory[]`. Flag helpers update registers through pointers.
  `z80_execute` is one switch over the unprefixed opcode page and returns a T-state count.
  `z80_run_one` serves the NMI, then a maskable interrupt in mode 0, 1 or 2, then fetch and
  execute. The keyboard matrix is written by `keyboard_press` and read by `keyboard_read8`
  through `port_read8`.
- **The early Ruby draft (`machine.rb`).** It is a `Z80` object whose `run` executes one of the
  opcodes 0x00 to 0x08, or fails.

The C engine is modelled twice: once as a state value, once as a class.

- **As values.**
  - `Machine` holds the state and the memory, stack, operand and condition helpers.
  - `Alu` holds the flag register and the arithmetic helpers.
  - `Interpreter` holds `z80_execute`, the interrupt handlers, `z80_run_one` and `z80_reset`.
  - `Bits` holds the byte and bit arithmetic underneath.
- **As an object.** `Cpu.Z80` has one field per register, latch and request flag, and a
  `memory` array. Every helper and opcode group is a method. Each method is proved to leave the
  object in the state that the matching function computes, and to return the same T-states.
- **The properties.** `Properties` and `Transfers` state what each instruction does. `Interrupts`
  states what the interrupts, the step and the reset do. All of them are stated against the
  state before the step.

The keyboard (`Keyboard`) is a `Matrix` object with an `array` of eight rows. Its reads are also
given as functions on the rows.

The Ruby draft (`RubyMachine`) is the value `State` with the step function `Step`, plus a `Z80`
class whose `Run` method is proved against `Step`.

The model follows the code, quirks included, and states each quirk as a lemma:

- ADD never sets S or H, because both are computed from the unwrapped sum.
- ADC and SBC fold the carry into A before reading the operand.
- P/V is odd parity (`__builtin_parity`), so `XOR A` leaves it clear.
- JR cc decodes the same bits 5-3 as JP cc, so its four opcodes test PO, PE, P and M.
- DAA splits A by dividing by 8, so only two of its rows can fire.
- Only RST 0 has a case.
- A byte with no case changes nothing and takes 0 T-states. A CB-page byte also takes 0
  T-states, after counting R once and stepping the PC over the second byte.
- `port_read8` compares the whole 16-bit port with 0xFE, so only port 0x00FE reaches the
  keyboard, and that read ANDs all eight rows.
- A key reported down sets its bit in the matrix; it does not clear it.

Where the Zilog Z80 CPU User Manual and the ZX Spectrum hardware differ from the code, the model
follows the code. In the manual, P/V after a logic instruction is set on even parity. On the
Spectrum, the keyboard is read one half-row at a time through the ports 0xFEFE to 0x7FFE, and a
pressed key reads as a 0 bit.

Choices about the state:

- `char` is taken as signed, so the `.value` view of a byte is its two's-complement reading.
- A word access at 0xFFFF touches the byte just past `memory[]`. That byte is kept as the
  separate cell `spill` (see "Left out").
- F is kept as its eight flag bits. It is proved equivalent to the byte view in both directions.

## Model

| member | source | states |
|---|---|---|
| Bits.SetOrUnsetBit | c/main.c:49-51 | `set_or_unset_bit` gives each bit the mask selects the value v and keeps every other bit |
| Bits.Signed8 | c/main.c:60-64 | the `char` view of a byte lies in -128..127 and is negative exactly when bit 7 is set |
| Bits.Signed8Truncates | c/main.c:60-64 | truncating the `char` view back to a byte gives the byte again |
| Bits.WordBytes | c/main.c:66-76 | a word built from a high and a low byte has those bytes as its `.bytes.high` and `.bytes.low` |
| Bits.BytesWord | c/main.c:66-76 | a word is rebuilt from its high and low bytes |
| Bits.TestTopBit | c/main.c:46-47 | `x & MAX7` is non-zero exactly when x >= 0x80 |
| Bits.TestBottomBit | c/main.c:46-47 | `x & MAX0` is non-zero exactly when x is odd |
| Bits.Not8Bit | c/main.c:802 | `~` turns every bit of a byte over |
| Bits.SetBottomBit | c/main.c:163-164 | setting bit 0 of an even byte (a byte just shifted left) adds 1 when b holds |
| Bits.SetTopBit | c/main.c:172-173 | setting bit 7 of a byte below 128 (a byte just shifted right) adds 128 when b holds |
| Alu.FromByteToByte | c/main.c:29-34 | reading F as a byte and back gives the same eight flags |
| Alu.ToByteFromByte | c/main.c:29-34 | every byte is the byte view of the flags read from it |
| Alu.FlagConstantBytes | c/main.c:29-37 | the flag and mask constants have the byte values 0x01, 0x02, 0x04, 0x10, 0x40, 0x80, 0xFF, 0xD6, 0x00 |
| Alu.MeetIsAnd | c/main.c:160 | `FLAG_X & mask` on flag records is the bitwise AND of their bytes |
| Alu.IsFlagReads | c/main.c:48 | `register_is_flag(FLAG_X)` reads exactly flag X |
| Alu.SetOrUnsetFlagIsBitwise | c/main.c:51-53 | `register_set_or_unset_flag` on the flag record is `set_or_unset_bit` on F's byte |
| Alu.SetOrUnsetMaskedC | c/main.c:180 | a masked C update sets C to v when the mask has C, and otherwise leaves F as it is |
| Alu.SetOrUnsetMaskedHC | c/main.c:181 | the same for H |
| Alu.SetOrUnsetMaskedN | c/main.c:182 | the same for N |
| Alu.SetOrUnsetMaskedPV | c/main.c:183 | the same for P/V |
| Alu.SetOrUnsetMaskedS | c/main.c:184 | the same for S |
| Alu.SetOrUnsetMaskedZ | c/main.c:185 | the same for Z |
| Alu.Add8Effect | c/main.c:176-187 | the byte becomes (reg + alt) mod 256; under the mask C is the carry out of bit 7, N is cleared, S and H are never set, Z holds only for 0 + 0, and P/V holds when both operands are negative; flags outside the mask are kept |
| Alu.Sub8Effect | c/main.c:189-200 | the byte becomes (reg - alt) mod 256; under the mask C and S hold iff alt > reg, H iff the low nibble borrows, N is set, P/V follows the sign test, Z iff reg == alt; flags outside the mask are kept |
| Alu.Add16Effect | c/main.c:202-209 | the word becomes (reg + alt) mod 65536; under the mask C is the carry out of bit 15, H and N are cleared; S, Z and P/V are kept |
| Alu.Sub16Effect | c/main.c:211-217 | the word becomes (reg - alt) mod 65536; under the mask C is the borrow, H the borrow out of bit 11, N is set; S, Z and P/V are kept |
| Alu.Add16Unmasked | c/main.c:202-209 | with `MASK_NONE` the 16-bit add changes no flag |
| Alu.Sub16Unmasked | c/main.c:211-217 | with `MASK_NONE` the 16-bit subtract changes no flag |
| Alu.TopBit | c/main.c:160 | `reg & MAX7` tests reg >= 0x80 |
| Alu.BottomBit | c/main.c:169 | `reg & MAX0` tests that reg is odd |
| Alu.ShiftLeft | c/main.c:163-164 | the shifted byte is 2 * reg mod 256 plus b |
| Alu.ShiftRight | c/main.c:172-173 | the shifted byte is reg / 2 plus 0x80 when b holds |
| Alu.Left8Effect | c/main.c:158-165 | the byte is shifted left with b as bit 0; under the mask C takes the old bit 7 and H and N are cleared; S, Z and P/V are kept |
| Alu.Right8Effect | c/main.c:167-174 | the byte is shifted right with b as bit 7; under the mask C takes the old bit 0 and H and N are cleared; S, Z and P/V are kept |
| Alu.SignZeroParityEffect | c/main.c:151-156 | S is bit 7 of A, Z is A == 0 and P/V is odd parity of A; the other flags are kept |
| Machine.PowerOn | c/main.c:219-231 | the ROM image lies at address 0 and every cell after it is 0 |
| Machine.Write8 | c/main.c:243-246 | the cell at addr holds v, every other cell is unchanged, and nothing but memory changes |
| Machine.Write16 | c/main.c:273-276 | a word read at addr gives v back, and nothing but memory and the spill cell changes |
| Machine.Set8 | c/main.c:534-546 | a read of slot i after a store of v into it gives v |
| Machine.SetPair | c/main.c:108 | a read of pair p after a store of v into it gives v |
| Machine.MemoryRefresh | c/main.c:496-499 | only R changes, and R stays below 128 |
| Properties.IncDecRegEffect | c/main.c:638-657 | INC r and DEC r move the slot by one modulo 256 and change nothing else but F. C and bits 3 and 5 are kept. INC clears S, Z, H, P/V and N whatever the result. DEC sets S iff the slot was 0, Z iff it was 1, H iff its low nibble was 0, P/V iff it was 0x80 or more, and sets N. (HL) takes 11 T-states, a register 4 |
| Properties.IncrementNeverSetsZero | c/main.c:176-187 | INC r leaves Z clear, even when 0xFF wraps to 0x00 |
| Properties.IncDecPairEffect | c/main.c:632-637 | INC ss and DEC ss move only the pair, by one modulo 65536, and leave F as it is, in 6 T-states |
| Properties.AddEffect | c/main.c:886-895 | ADD A,r stores the sum modulo 256 and changes nothing else but F. C is the carry and N is cleared. P/V holds iff both operands are 0x80 or more. Z holds only for 0 + 0. S and H are never set, and bits 3 and 5 are kept. 4 T-states, 7 for (HL) |
| Properties.AddWithCarryEffect | c/main.c:896-906 | ADC A,r adds the carry to A modulo 256 first. It then adds the operand read from that state as ADD does, with the same flags and T-states |
| Properties.AddWithCarrySelf | c/main.c:896-906 | with the carry set, ADC A,A leaves 2 * (A + 1) modulo 256 |
| Properties.AddImmediateEffect | c/main.c:999-1001 | ADD A,n and ADC A,n add the byte after the opcode (ADC to A with the carry folded in) and step over it, in 7 T-states; C is the carry out, Z is set only when both operands are 0, P/V only when both are >= 0x80, S, H and N are cleared, F bits 3 and 5 are kept |
| Properties.AddNeverSetsSignOrHalfCarry | c/main.c:176-187 | no ADD or ADC, register or immediate, ever leaves S or H set |
| Properties.SubEffect | c/main.c:907-916 | SUB A,r stores the difference modulo 256 and changes nothing else but F. C and S hold iff the operand is larger, and H iff its low nibble is. P/V holds iff the two differ in bit 7, and Z iff they are equal. N is set. 4 T-states, 7 for (HL) |
| Properties.SubWithCarryEffect | c/main.c:917-927 | SBC A,r takes the carry from A modulo 256 first. It then subtracts the operand as SUB does, with the same flags and T-states |
| Properties.CompareEffect | c/main.c:965-975 | CP A,r changes only F, and F takes the flags SUB would give: Z iff A equals the operand, C and S iff the operand is larger, N set. 4 T-states, 7 for (HL) |
| Properties.LogicEffect | c/main.c:928-964 | AND, XOR and OR store A op r; C and N are cleared, H is set for AND only, Z iff the result is 0, S its bit 7, P/V its odd parity; F bits 3 and 5 are kept |
| Properties.ArithmeticLogicCycles | c/main.c:886-975 | every instruction from ADD A,r to CP A,r takes 4 T-states, 7 when the operand is (HL) |
| Properties.ExclusiveOrSelf | c/main.c:941-952 | XOR A clears A, sets Z and leaves P/V clear |
| Properties.AddHLPairEffect | c/main.c:675-680 | ADD HL,ss adds the pair to HL modulo 65536; C is the carry, H and N are cleared, S, Z and P/V are kept, in 11 T-states |
| Properties.ComplementEffect | c/main.c:801-804 | CPL turns every bit of A over and sets N and H, in 4 T-states |
| Properties.ComplementTwice | c/main.c:801-804 | two CPLs give A back |
| Properties.CarryFlagEffects | c/main.c:808-820 | SCF sets C and clears N and H; CCF moves C to H, inverts C and clears N; only F changes |
| Properties.ComplementCarryTwice | c/main.c:815-820 | two CCFs give C back |
| Properties.NopEffect | c/main.c:621-622 | NOP changes nothing and takes 4 T-states |
| Properties.RotateLeftEffect | c/main.c:669-671 | RLCA and RLA shift A left, with the old bit 7 (RLCA) or the old carry (RLA) as bit 0; C takes the old bit 7; H and N are cleared and S, Z and P/V kept |
| Properties.RotateRightEffect | c/main.c:690-692 | RRCA and RRA shift A right, with the old bit 0 (RRCA) or the old carry (RRA) as bit 7; C takes the old bit 0; H and N are cleared and S, Z and P/V kept |
| Properties.RotateLeftCircularBits | c/main.c:158-165 | RLCA moves bit k of A to bit k + 1 and bit 7 round to bit 0 |
| Properties.RotationsBits | c/main.c:669-671 | after n rotations bit k sits at bit (k + n) mod 8 |
| Properties.RotationsPeriod | c/main.c:669-671 | any multiple of eight rotations gives the byte back |
| Properties.RepeatRotations | c/main.c:669-671 | n RLCAs in a row leave A rotated n times |
| Properties.EightRotatesRestoreA | c/main.c:669-671 | eight RLCAs in a row give A back |
| Properties.DecimalAdjustRows | c/main.c:727-797 | with A split by 8, only the rows for A = 0x4B and A = 0x1B (H set, C clear) can match |
| Properties.DecimalAdjustEffect | c/main.c:727-797 | DAA changes A only for those two values (to 0x51 with C cleared, or 0x81 with C set), then recomputes S, Z and P/V from A |
| Transfers.Set8Frame | c/main.c:534-546 | a store into slot i changes no other slot, touches memory only through slot 6, and nothing outside A, the pairs and memory |
| Transfers.SetPairFrame | c/main.c:108 | a store into pair p changes no other pair and nothing outside the four pairs |
| Transfers.LoadRegRegEffect | c/main.c:821-885 | LD r,r' copies slot j into slot i and keeps F, PC and SP; each (HL) operand adds 3 T-states to 4 |
| Transfers.LoadRegImmediateEffect | c/main.c:658-668 | LD r,n stores the byte after the opcode in the slot and steps over it; (HL) takes 10 T-states, a register 7 |
| Transfers.LoadPairImmediateEffect | c/main.c:623-628 | LD dd,nn stores the little-endian word after the opcode in the pair, steps over it and changes nothing else, in 10 T-states |
| Transfers.StoreAccumulatorEffect | c/main.c:629-631 | LD (BC),A and LD (DE),A store A at the pair's address, in 7 T-states |
| Transfers.LoadAccumulatorEffect | c/main.c:681-683 | LD A,(BC) and LD A,(DE) load A from the pair's address, in 7 T-states |
| Transfers.StoreThenLoadAccumulator | c/main.c:629-631 | loading A back from the cell just stored to changes nothing |
| Transfers.StoreAbsoluteEffect | c/main.c:805-807 | LD (nn),A stores A at the word after the opcode, in 16 T-states |
| Transfers.LoadAbsoluteEffect | c/main.c:812-814 | LD A,(nn) loads A from the word after the opcode, in 13 T-states |
| Transfers.Write16Cells | c/main.c:273-276 | `memory_write16` changes no cell but the two the word covers |
| Transfers.StoreHLEffect | c/main.c:724-726 | LD (nn),HL stores HL where a word read finds it again; only the two cells it covers change, in 16 T-states |
| Transfers.LoadHLEffect | c/main.c:798-800 | LD HL,(nn) loads HL from the word at the operand address, in 16 T-states |
| Transfers.ExchangeAFEffect | c/main.c:672-674 | EX AF,AF' swaps A and F with their shadows, in 4 T-states |
| Transfers.ExchangeAFTwice | c/main.c:144-149 | EX AF,AF' twice gives the whole state back |
| Transfers.Push16Effect | c/main.c:515-519 | a push lowers SP by 2 modulo 65536 and leaves the word where a read at the new SP finds it; no other cell changes |
| Transfers.StackPointerRoundTrip | c/main.c:515-526 | lowering SP by 2 and raising it by 2 again, modulo 65536, gives it back |
| Transfers.PushThenPop | c/main.c:515-526 | a pop right after a push returns the pushed word and restores SP, for every SP (for SP = 0x0001 through the `spill` cell, see "Left out") |
| Transfers.PopThenPush | c/main.c:515-526 | a push right after a pop writes back the word read, so the whole state is restored |
| Transfers.WriteBack16 | c/main.c:263-276 | writing back the word just read at an address changes nothing |
| Transfers.PushEffect | c/main.c:993-998 | PUSH qq stores the pair (AF with F as low byte) below the old SP; only SP and those cells change, in 10 T-states |
| Transfers.PopEffect | c/main.c:979-984 | POP qq loads the pair from the word at SP and raises SP by 2; nothing else changes, in 4 T-states |
| Transfers.Push16Footprint | c/main.c:515-519 | a push reads only SP and writes only SP, memory and the spill cell |
| Transfers.GetSetPairAF | c/main.c:109 | a word stored into a pair of `z80_bc_de_hl_af`, AF included, reads back unchanged |
| Transfers.PopPushOpcodes | c/main.c:979-998 | POP qq and PUSH qq are four opcodes apart and name the same pair |
| Transfers.SetPairAFFrame | c/main.c:109 | a store into a pair of `z80_bc_de_hl_af` leaves SP, memory and the spill cell alone |
| Transfers.SetPairAFSame | c/main.c:109 | storing into a pair the word it holds changes nothing |
| Transfers.PopThenPushRegisters | c/main.c:979-998 | POP qq then PUSH qq restores memory and SP; only the pair keeps the popped word |
| Transfers.PushThenPopRegisters | c/main.c:979-998 | PUSH qq then POP qq gives every register back, AF included; only the two stack cells may differ |
| Transfers.ConditionOpcodes | c/main.c:548-561 | the condition each opcode tests: NZ/Z for RET cc, JP cc and CALL cc; PO, PE, P and M for the four JR cc opcodes |
| Transfers.JumpEffect | c/main.c:563-571 | JP nn and JP cc,nn jump to the operand when taken and step over it otherwise, in 10 T-states |
| Transfers.JumpRelativeEffect | c/main.c:573-583 | a taken JR adds the signed byte to the address after it (12 T-states); one not taken steps over it (7) |
| Transfers.DecrementJumpNonZeroEffect | c/main.c:693-704 | DJNZ counts B down modulo 256 and jumps as JR does unless B reached 0: 13 T-states taken, 8 not |
| Transfers.CallEffect | c/main.c:598-611 | a taken CALL pushes the address after the operand and jumps to the operand (17 T-states); otherwise it steps over it (10) |
| Transfers.ReturnEffect | c/main.c:585-596 | a taken RET pops the PC; RET cc takes 15 or 11 T-states, RET 10 |
| Transfers.CallThenReturn | c/main.c:585-611 | RET right after CALL resumes after the CALL's operand with the old SP; only the two stack cells may differ |
| Transfers.RestartEffect | c/main.c:1002-1005 | RST 0 pushes the PC and jumps to 0, in 11 T-states |
| Transfers.UndefinedOpcode | c/main.c:1021-1023 | a byte with no case changes nothing and takes 0 T-states |
| Transfers.UndefinedHaltAndPrefixes | c/main.c:1021-1023 | HALT and the DD, ED and FD prefixes have no case |
| Transfers.UndefinedPortsAndLatches | c/main.c:1021-1023 | OUT (n),A, IN A,(n), DI and EI have no case |
| Transfers.UndefinedRestarts | c/main.c:1002-1005 | the seven RST opcodes other than 0xC7 have no case |
| Transfers.PrefixCBEffect | c/main.c:1009-1014 | the CB prefix refreshes, steps the PC over the second byte and returns 0 T-states, whatever that byte is |
| Interrupts.NmiEffect | c/main.c:1026-1033 | the NMI copies IFF1 to IFF2, clears IFF1, pushes the PC and jumps to 0x66, in 11 T-states; nothing else but SP and the stack cells changes |
| Interrupts.NmiServedFirst | c/main.c:1058-1064 | a pending NMI is served before anything else, and a pending maskable request stays pending |
| Interrupts.MaskableDroppedWhenDisabled | c/main.c:1065-1072 | a maskable request with IFF1 clear is cleared, nothing else changes, and the step takes 0 T-states |
| Interrupts.Acknowledged | c/main.c:1037-1038 | a served maskable request starts with the request and both latches cleared |
| Interrupts.MaskableMode0 | c/main.c:1041-1044 | mode 0 refreshes and executes the data-bus byte, for 2 T-states more than that instruction; the PC is not pushed |
| Interrupts.MaskableMode0Restart | c/main.c:1041-1044 | in mode 0 the byte 0xFF (RST 38h) has no case: the request is acknowledged, R counts once, 2 T-states |
| Interrupts.MaskableMode1 | c/main.c:1045-1048 | mode 1 pushes the PC and jumps to 0x38, in 13 T-states |
| Interrupts.MaskableMode2 | c/main.c:1049-1052 | mode 2 pushes the PC and jumps through the word at (I << 8) \| data bus, read after the push, in 19 T-states |
| Interrupts.MaskableMode2Table | c/main.c:1049-1052 | when the table word lies below the pushed cells, mode 2 jumps to the address the table held before |
| Interrupts.MaskableOtherMode | c/main.c:1053-1054 | any other mode acknowledges the request and does nothing else, in 0 T-states |
| Interrupts.FetchExecute | c/main.c:1073-1076 | with no request pending a running CPU fetches the byte at PC, counts R, steps the PC and executes that byte |
| Interrupts.Halted | c/main.c:1058-1078 | a CPU that may not execute does nothing when no request is pending |
| Interrupts.ExecuteKeepsControl | c/main.c:613-1024 | no instruction changes the latches, the mode, I, the data bus, the run flag or the pending requests |
| Interrupts.RunOneKeepsMode | c/main.c:1058-1078 | no step changes the interrupt mode, I or the data bus |
| Interrupts.ResetEffect | c/main.c:480-494 | after a reset AF and SP are 0xFFFF, PC and R are 0, the latches are clear, the mode is 0, no request is pending and the CPU may execute; every other field, the data bus and memory included, is kept |
| Interrupts.ResetThenRun | c/main.c:480-494 | the first step after a reset executes the byte at address 0 |
| Interrupts.PowerOnRunsRom | c/main.c:219-231 | at power on, once reset, the CPU runs the first byte of the ROM image |
| Cpu.Z80.constructor | c/main.c:219-231 | the object starts in the power-on state with the ROM image at address 0 |
| Cpu.Z80.Read8 | c/main.c:238-241 | `memory_read8` returns the byte `Machine.Read8` gives |
| Cpu.Z80.Write8 | c/main.c:243-246 | `memory_write8` leaves the state `Machine.Write8` computes: one cell changed |
| Cpu.Z80.Read16 | c/main.c:268-271 | `memory_read16` returns the little-endian word `Machine.Read16` gives |
| Cpu.Z80.Write16 | c/main.c:273-276 | `memory_write16` leaves the state `Machine.Write16` computes |
| Cpu.Z80.MemoryRefresh | c/main.c:496-499 | R counts modulo 128, as `Machine.MemoryRefresh` |
| Cpu.Z80.Next8 | c/main.c:501-506 | returns the byte at PC and steps PC, as `Machine.Next8` |
| Cpu.Z80.Next16 | c/main.c:508-513 | returns the word at PC and steps PC by 2, as `Machine.Next16` |
| Cpu.Z80.Push16 | c/main.c:515-519 | lowers SP and stores the word, as `Machine.Push16` (see `Transfers.Push16Effect`) |
| Cpu.Z80.Pop16 | c/main.c:521-526 | returns the word at SP and raises SP, as `Machine.Pop16` (see `Transfers.PushThenPop`) |
| Cpu.Z80.FetchOpcode | c/main.c:528-532 | refreshes, returns the byte at PC and steps PC, as `Machine.FetchOpcode` |
| Cpu.Z80.Get8 | c/main.c:534-546 | a read through the `z80_decode_reg8` pointer gives `Machine.Get8` |
| Cpu.Z80.Set8 | c/main.c:534-546 | a store through the `z80_decode_reg8` pointer leaves `Machine.Set8`'s state |
| Cpu.Z80.GetPair | c/main.c:108 | `*z80_bc_de_hl_sp[p]` gives `Machine.GetPair` |
| Cpu.Z80.SetPair | c/main.c:108 | a store through `z80_bc_de_hl_sp[p]` leaves `Machine.SetPair`'s state |
| Cpu.Z80.GetPairAF | c/main.c:109 | `*z80_bc_de_hl_af[p]` gives `Machine.GetPairAF` |
| Cpu.Z80.SetPairAF | c/main.c:109 | a store through `z80_bc_de_hl_af[p]` leaves `Machine.SetPairAF`'s state |
| Cpu.Z80.Add8WithFlags | c/main.c:176-187 | leaves the state `Machine.Add8WithFlags` computes (see `Alu.Add8Effect`) |
| Cpu.Z80.Sub8WithFlags | c/main.c:189-200 | leaves the state `Machine.Sub8WithFlags` computes (see `Alu.Sub8Effect`) |
| Cpu.Z80.Add16WithFlags | c/main.c:202-209 | leaves the state `Machine.Add16WithFlags` computes (see `Alu.Add16Effect`) |
| Cpu.Z80.Sub16WithFlags | c/main.c:211-217 | leaves the state `Machine.Sub16WithFlags` computes (see `Alu.Sub16Effect`) |
| Cpu.Z80.Left8WithFlags | c/main.c:158-165 | leaves the state `Machine.Left8WithFlags` computes (see `Alu.Left8Effect`) |
| Cpu.Z80.Right8WithFlags | c/main.c:167-174 | leaves the state `Machine.Right8WithFlags` computes (see `Alu.Right8Effect`) |
| Cpu.Z80.SetFlagsSZP | c/main.c:151-156 | leaves the state `Machine.SetFlagsSZP` computes (see `Alu.SignZeroParityEffect`) |
| Cpu.Z80.JumpWithCondition | c/main.c:563-571 | state and T-states as `Machine.JumpWithCondition` (see `Transfers.JumpEffect`) |
| Cpu.Z80.JumpRelWithCondition | c/main.c:573-583 | state and T-states as `Machine.JumpRelWithCondition` (see `Transfers.JumpRelativeEffect`) |
| Cpu.Z80.RetWithCondition | c/main.c:585-596 | state and T-states as `Machine.RetWithCondition` (see `Transfers.ReturnEffect`) |
| Cpu.Z80.CallWithCondition | c/main.c:598-611 | state and T-states as `Machine.CallWithCondition` (see `Transfers.CallEffect`) |
| Cpu.Z80.LoadPairImmediate | c/main.c:623-628 | state and T-states as `Interpreter.LoadPairImmediate` (see `Transfers.LoadPairImmediateEffect`) |
| Cpu.Z80.IncDecPair | c/main.c:632-637 | state and T-states as `Interpreter.IncDecPair` (see `Properties.IncDecPairEffect`) |
| Cpu.Z80.IncDecReg | c/main.c:638-657 | state and T-states as `Interpreter.IncDecReg` (see `Properties.IncDecRegEffect`) |
| Cpu.Z80.LoadRegImmediate | c/main.c:658-668 | state and T-states as `Interpreter.LoadRegImmediate` (see `Transfers.LoadRegImmediateEffect`) |
| Cpu.Z80.Rotate | c/main.c:669-671 | state and T-states as `Interpreter.Rotate` (see `Properties.RotateLeftEffect`, `Properties.RotateRightEffect`) |
| Cpu.Z80.ExchangeAF | c/main.c:672-674 | state and T-states as `Interpreter.ExchangeAF` (see `Transfers.ExchangeAFTwice`) |
| Cpu.Z80.AddHLPair | c/main.c:675-680 | state and T-states as `Interpreter.AddHLPair` (see `Properties.AddHLPairEffect`) |
| Cpu.Z80.DecrementJumpNonZero | c/main.c:693-704 | state and T-states as `Interpreter.DecrementJumpNonZero` (see `Transfers.DecrementJumpNonZeroEffect`) |
| Cpu.Z80.DecimalAdjust | c/main.c:727-797 | state and T-states as `Interpreter.DecimalAdjust` (see `Properties.DecimalAdjustEffect`) |
| Cpu.Z80.Complement | c/main.c:801-804 | state and T-states as `Interpreter.Complement` (see `Properties.ComplementEffect`) |
| Cpu.Z80.SetCarry | c/main.c:808-811 | state and T-states as `Interpreter.SetCarry` (see `Properties.CarryFlagEffects`) |
| Cpu.Z80.ComplementCarry | c/main.c:815-820 | state and T-states as `Interpreter.ComplementCarry` (see `Properties.CarryFlagEffects`) |
| Cpu.Z80.LoadRegReg | c/main.c:821-885 | state and T-states as `Interpreter.LoadRegReg` (see `Transfers.LoadRegRegEffect`) |
| Cpu.Z80.Logic | c/main.c:928-964 | leaves the state `Interpreter.Logic` computes (see `Properties.LogicEffect`) |
| Cpu.Z80.ArithmeticLogic | c/main.c:886-975 | state and T-states as `Interpreter.ArithmeticLogic` |
| Cpu.Z80.Arithmetic | c/main.c:886-927 | ADD, ADC, SUB and SBC leave `Interpreter.ArithmeticLogic`'s state (see `Properties.AddEffect` ... `Properties.SubWithCarryEffect`) |
| Cpu.Z80.LogicCompare | c/main.c:928-975 | AND, XOR, OR and CP leave `Interpreter.ArithmeticLogic`'s state (see `Properties.CompareEffect`) |
| Cpu.Z80.AddImmediate | c/main.c:999-1001 | state and T-states as `Interpreter.AddImmediate` (see `Properties.AddImmediateEffect`) |
| Cpu.Z80.Pop | c/main.c:979-984 | state and T-states as `Interpreter.Pop` (see `Transfers.PopEffect`) |
| Cpu.Z80.Push | c/main.c:993-998 | state and T-states as `Interpreter.Push` (see `Transfers.PushEffect`) |
| Cpu.Z80.Restart | c/main.c:1002-1005 | state and T-states as `Interpreter.Restart` (see `Transfers.RestartEffect`) |
| Cpu.Z80.PrefixCB | c/main.c:1009-1014 | state and T-states as `Interpreter.PrefixCB` (see `Transfers.PrefixCBEffect`) |
| Cpu.Z80.Execute | c/main.c:613-1024 | `z80_execute` leaves the state and returns the T-states `Interpreter.Execute` computes, for every opcode |
| Cpu.Z80.Nmi | c/main.c:1026-1033 | state and T-states as `Interpreter.Nmi` (see `Interrupts.NmiEffect`) |
| Cpu.Z80.Maskable | c/main.c:1035-1056 | state and T-states as `Interpreter.Maskable` (see `Interrupts.MaskableMode0` ... `Interrupts.MaskableOtherMode`) |
| Cpu.Z80.RunOne | c/main.c:1058-1078 | state and T-states as `Interpreter.RunOne` (see `Interrupts.NmiServedFirst`, `Interrupts.FetchExecute`) |
| Cpu.Z80.Reset | c/main.c:480-494 | leaves the state `Interpreter.Reset` computes (see `Interrupts.ResetEffect`) |
| Keyboard.KeyPosition | c/main.c:294-452 | every key that `keyboard_press` handles lies in one of the eight rows at one of the five key bits |
| Keyboard.Pressed | c/main.c:294-452 | a key event keeps eight rows |
| Keyboard.MaskTestsBit | c/main.c:284 | `register_is_bit(high, b)` with b = 2^k tests bit k of the high byte |
| Keyboard.SelectedBits | c/main.c:278-292 | after n rows, bit k of the accumulated byte is set iff k < 5 and every selected row among them has bit k |
| Keyboard.ReadBits | c/main.c:278-292 | bit k of `keyboard_read8` is set iff k < 5 and every row whose high-byte bit is clear has bit k set |
| Keyboard.ReadNoRow | c/main.c:278-292 | with high byte 0xFF no row is selected and the read is 0x1F |
| Keyboard.ReadAtRest | c/main.c:85-87 | rows at their initial 0x1F read 0x1F, whichever rows are selected |
| Keyboard.PortReadFF | c/main.c:464-474 | `port_read8` returns 0xFF exactly for the ports other than 0x00FE, the Spectrum half-row ports 0xFEFE to 0x7FFE among them |
| Keyboard.PortReadKeyboard | c/main.c:464-474 | port 0x00FE selects every row: a bit reads set iff k < 5 and it is set in all eight rows |
| Keyboard.PressedBits | c/main.c:294-452 | a key event sets the key's bit in its row to the value and keeps every other bit of every row |
| Keyboard.LastEventWins | c/main.c:294-452 | of two events on one key the later wins |
| Keyboard.DownAtRest | c/main.c:85-87 | a key reported down on the initial rows leaves them unchanged, its bit being set already |
| Keyboard.UpReadsClear | c/main.c:278-292 | after a key is reported up, a read that selects its row has the key's bit clear |
| Keyboard.LettersIgnoreCase | c/main.c:294-452 | an upper-case letter names the same key as its lower-case form |
| Keyboard.ShiftKeysUnreached | c/main.c:294-452 | no key reaches bit 0 of row 0 or bit 1 of row 7, the two shift keys |
| Keyboard.Matrix.constructor | c/main.c:85-87 | the eight rows start at 0x1F |
| Keyboard.Matrix.Press | c/main.c:294-452 | `keyboard_press` updates the rows in place to `Pressed` of the old rows (see `Keyboard.PressedBits`) |
| Keyboard.Matrix.Read8 | c/main.c:278-292 | the loop over the mask returns `KeyboardRead` of the rows (see `Keyboard.ReadBits`) |
| Keyboard.Matrix.PortRead8 | c/main.c:464-474 | `port_read8` returns `PortRead` of the rows (see `Keyboard.PortReadFF`) |
| RubyMachine.Pair | machine.rb:24-27 | for a low byte in 0..255 the address splits back into h and l; a negative low byte -1..-128 lands on 128..255 in reverse order |
| RubyMachine.StepKeepsMemorySize | machine.rb:29-107 | a completed `run` keeps the length of `@memory` |
| RubyMachine.NopOnlyAdvances | machine.rb:31-34 | NOP changes only `@pc`, by 1, in 4 t-states |
| RubyMachine.LoadBCImmediate | machine.rb:35-38 | LD BC,HHLL sets B to the byte at pc + 2 and C to the byte at pc + 1 and advances `@pc` by 3, in 10 t-states |
| RubyMachine.LoadBCAtEnd | machine.rb:35-38 | LD BC,HHLL at the end of `@memory` reads `nil` for an operand |
| RubyMachine.LoadBImmediate | machine.rb:88-91 | LD B,NN sets B to the byte at pc + 1 and advances `@pc` by 2, in 7 t-states |
| RubyMachine.StoreThroughBC | machine.rb:39-41 | LD (BC),A with B and C in byte range stores A at B * 256 + C; no other cell and nothing but `@pc` (by 1) changes, in 7 t-states |
| RubyMachine.StoreThroughBCOutside | machine.rb:39-41 | LD (BC),A through a pair past the end of `@memory` does not store |
| RubyMachine.IncBCPlain | machine.rb:42-47 | INC BC below the overflow raises C by 1 and keeps B, in 6 t-states |
| RubyMachine.IncBCOverflow | machine.rb:42-47 | INC BC from C = 127 sets B to (B + 1) mod 128 and C to -1, in 6 t-states |
| RubyMachine.IncBCPair | machine.rb:42-46 | INC BC raises `pair(b, c)` by 1 for C in 0..126, lowers it by 1 for C in -128..-2 and by 128 from C = -1, and raises it by 257 from C = 127 when B is below 127 |
| RubyMachine.IncThenDecB | machine.rb:48-87 | INC B then DEC B gives B back unless B was 127 or -127 |
| RubyMachine.IncBToZeroSetsZ | machine.rb:48-66 | INC B from -1 leaves B = 0 with the zero flag set |
| RubyMachine.IncBTogglesFlags | machine.rb:48-66 | INC B to any value but 0, 16 and 128 toggles N, P/V, H, Z and S and keeps the other bits |
| RubyMachine.FlagMaskBits | machine.rb:8-13 | each flag mask has the one bit its flag names |
| RubyMachine.DecBToZeroSetsZ | machine.rb:67-87 | DEC B from 1 leaves B = 0 with the zero flag set |
| RubyMachine.RlcaCarry | machine.rb:92-99 | RLCA doubles A; the carry ends set when A was negative and toggled otherwise |
| RubyMachine.ExchangeTwice | machine.rb:100-101 | EX AF,AF' twice gives back A, F and their shadows, with `@pc` two further on, in 4 t-states each |
| RubyMachine.UnknownOpcodeFails | machine.rb:102-104 | any opcode outside 0x00..0x08, or `nil` past the array, makes `run` fail before `@pc` moves |
| RubyMachine.FirstRunIsNop | machine.rb:110-111 | the first `run` of a fresh object executes the NOP at address 0 |
| RubyMachine.Z80.constructor | machine.rb:4-22 | a fresh object has every register 0, 49152 zeroed memory cells and a state duration of 1 |
| RubyMachine.Z80.Run | machine.rb:29-107 | `run` leaves the object in the state `Step` computes and returns its t-states; on a fault the object is unchanged |
| RubyMachine.Z80.LoadBC | machine.rb:35-38 | B and C take the two operand bytes |
| RubyMachine.Z80.StoreA | machine.rb:39-41 | the one cell `pair(b, c)` names takes A |
| RubyMachine.Z80.IncrementBC | machine.rb:42-47 | leaves the state `IncBC` computes (see `RubyMachine.IncBCPair`) |
| RubyMachine.Z80.IncrementB | machine.rb:48-66 | leaves the state `IncB` computes (see `RubyMachine.IncBTogglesFlags`) |
| RubyMachine.Z80.DecrementB | machine.rb:67-87 | leaves the state `DecB` computes (see `RubyMachine.IncThenDecB`) |
| RubyMachine.Z80.LoadB | machine.rb:88-91 | B takes the operand byte |
| RubyMachine.Z80.RotateA | machine.rb:92-99 | leaves the state `Rlca` computes (see `RubyMachine.RlcaCarry`) |
| RubyMachine.Z80.Exchange | machine.rb:100-101 | A and F trade places with their shadows (see `RubyMachine.ExchangeTwice`) |

## Left out

- Rendering (`ula_point`, `ula_draw_line`, `ula_draw_screen*` and the colour tables): OpenGL
  drawing with floating-point colours on its own thread.
- Pacing (`time_in_seconds`, `time_seconds_to_timespec`, `time_sync` and the `sleep` and
  `Time.now` of `machine.rb`): wall clock and sleeping. The T-state counts these would use are
  modelled.
- `main`, `z80_run` and the `running` loop: threads and start-up. The request flags that another
  thread sets are plain inputs of the state. `Cpu.Z80.SetRequests` and `Cpu.Z80.SetRunMode`
  stand in for those outside writes and for the start-up. `Cpu.Z80.SetA` ... `Cpu.Z80.SetIff`
  are single-field stores that the opcode methods share. None of these has a row above.
- `system_little_endian`: a platform probe. Words are little-endian.
- `memory_load_rom`: file I/O. `Machine.PowerOn` and `Cpu.Z80.constructor` take the image as a
  byte sequence and place it at address 0.
- `memory_ref8_indexed`, `memory_read8_indexed` and `memory_write8_indexed`: never called, and
  unbounded past the array.
- `port_write8`: an empty stub.
- `keyboard_press_down` and `keyboard_press_up`: callbacks that pass `true` and `false` to
  `keyboard_press`, which is modelled. The window coordinates they receive are unused.
- IX, IY and every shadow register but AF' (`z80_reg_bc_2` ... `z80_reg_iy_2`): no case of the
  switch reads or writes them.
- `c/tape.c`: a TZX block reader that only does file I/O.
- `run.rb` and `ruby/run.rb`: drivers that load a ROM and print.
- `machine_test.rb` and `ruby/machine_test.rb`: they test Ruby classes that are not part of
  this model.
- Machine.Write16: `memory_write16` at 0xFFFF writes one byte past `memory[]`. That is
  undefined behaviour in C: the byte lands in whatever object follows the array. The model keeps
  that byte as a private cell, `spill`, which only a word read or write at 0xFFFF reaches. So
  the model does not capture a word store at 0xFFFF corrupting another variable, or a word read
  at 0xFFFF returning another variable's byte.
- Transfers.PushThenPop: from SP = 0x0001 the push lowers SP to 0xFFFF, so the pushed word
  covers the byte past the array. In that one case the round trip holds only because of the
  private `spill` cell; in C it is undefined behaviour.
- RubyMachine.Z80.Run: a `nil` operand read past the end of `@memory` (LD BC,HHLL or LD B,NN
  at the last cells) is reported as the fault `NilOperand`. Ruby would store `nil` in the
  register and go on.
- RubyMachine.Z80.Run: a store past the end of `@memory` is reported as the fault
  `GrowsMemory`. Ruby would grow the array.
- RubyMachine.Z80.Run: the flags `@f` and `@f'` are kept as bytes. This holds because they
  start at 0 and are only combined with 8-bit masks.
