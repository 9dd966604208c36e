# rusty8080: the instruction-execution step

This project models the core of an Intel 8080 emulator written in Rust: the
`Cpu` record in `src/cpu.rs` and the work of one `process_instruction` call.
The model covers:

- the registers A, B, C, D, E, H, L, SP and PC;
- the 16000-cell memory;
- the flags Z, S, P, CY and AC, and the reserved `pad` byte;
- the interrupt-enable byte;
- the ten-entry instruction table built by `Cpu::new`;
- the handlers bound in that table: NOP, LXI B, STAX B, INX B, INR B, DCR B,
  MVI B, RLC and DAD B;
- the even-parity helper `parity`.

The model is in three files.

- `bits.dfy` (module `Bits`) defines the 8- and 16-bit widths and the
  register pair `(hi << 8) | lo`. It also holds `parity` as a loop method,
  proved against `OnesBelow`, the count of set bits among the low `k` bits.
- `cpu.dfy` (module `Cpu8080`) gives the specification on values and the class:
  - `State` is the value-level state, and `Execute` is what one handler does to it.
  - `Exec` is one `process_instruction` step. A step that would index out of
    range in Rust (PC, the table, an operand or the STAX address) returns a
    `Fault` and no new state. The two `u16` overflow panics (DCR B at B = 0,
    DAD B when HL + BC reaches 2^16) are replaced by 8-bit and 16-bit
    wrap-around, as listed under "## Findings".
  - The class `Cpu` holds the same fields. Its `memory` is an `array` of 16000
    cells. Each handler method updates the fields in place and is proved to
    turn `Snapshot()` into `Execute(op, old(Snapshot()))`. `ProcessInstruction`
    is proved to agree with `Exec`.
- `properties.dfy` (module `Cpu8080Properties`) holds:
  - one lemma per opcode, stating one full step in terms of the registers, cells
    and flags involved;
  - the scenarios of the source's own unit tests;
  - a two-instruction program (LXI B then STAX B).

Registers and memory cells are 8-bit. The Rust fields are declared `u16`.
From `Cpu::new`, every handler keeps each register and cell within 0..255:
- LXI, MVI and STAX only copy such values;
- DAD masks its result to bytes;
- DCR on B ≥ 1 gives a smaller byte.

So byte-valued registers lose no reachable behaviour. The two places where
the `u16` width matters are the DCR B underflow and the DAD B overflow. Both
are listed under "## Findings".

## Model

| member | source | states |
|---|---|---|
| Bits.Parity | src/cpu.rs:46-56 | returns true iff the low `size` bits of `num` hold an even number of ones (the intent stated in the comment at line 46); for `size == 8` that is the parity of the low byte alone |
| Bits.ParityAsWritten | src/cpu.rs:47-56 | the loop as written (shift result discarded) returns true iff bit 0 of `num` is clear or `size` is even, so for `size == 8` it is always true |
| Bits.ParityDisagreesOnOne | src/cpu.rs:50-55 | on `parity(1, 8)` the loop as written reports even parity while the byte 0x01 has odd parity |
| Bits.OnesBelowIgnoresHighBits | src/cpu.rs:50-53 | adding any multiple of 2^k to `n` does not change the number of ones among its low k bits |
| Bits.OnesBelowLowByte | src/cpu.rs:119 | `parity(x, 8)` depends on the low byte of its 16-bit argument only |
| Bits.PairInjective | src/cpu.rs:99 | two register pairs `(hi << 8) + lo` with the same value hold the same two bytes |
| Bits.PairSplits | src/cpu.rs:135-137 | the high and low bytes of `(hi << 8) + lo` are `hi` and `lo` again |
| Bits.SignBit | src/cpu.rs:118 | `v & 0x80 == 0x80` holds iff the byte is at least 0x80 |
| Bits.Low16 | src/cpu.rs:135-137 | the low 16 bits of a 17-bit sum are its byte 1 shifted up plus its byte 0 |
| Cpu8080.Decode | src/cpu.rs:144 | an opcode has a table entry iff it is below 10; the entry is the handler whose comment documents that opcode, and slot 0x08 is a second NOP |
| Cpu8080.DecodeOpcodeOf | src/cpu.rs:72 | every handler is reached through the opcode its comment documents |
| Cpu8080.Initial | src/cpu.rs:63-76 | the state of `Cpu::new` has 16000 memory cells |
| Cpu8080.AccessFault | src/cpu.rs:92-100 | a handler's memory accesses are all in range iff LXI's pc+2, MVI's pc+1 and STAX's BC are below the memory size; a fault names an address at or past the end |
| Cpu8080.Decrement | src/cpu.rs:116 | the new B plus one is the old B modulo 256 |
| Cpu8080.DecrementAsWritten | src/cpu.rs:116 | `b -= 1` on a `u16` fails exactly at 0 and otherwise gives v − 1 |
| Cpu8080.DecrementUnderflow | src/cpu.rs:116 | at B = 0 the code as written overflows while the 8-bit result is 0xFF |
| Cpu8080.AddPairs | src/cpu.rs:133-139 | HL becomes (HL + BC) mod 2^16 and the carry is set iff HL + BC ≥ 2^16 |
| Cpu8080.AddPairsAsWritten | src/cpu.rs:135-138 | the `u16` sum fails iff HL + BC ≥ 2^16, and when it succeeds the carry it reports is always false |
| Cpu8080.AddPairsCarryLost | src/cpu.rs:135-138 | HL = 0xFFFF, BC = 0x0001 overflows as written, while the intended result is HL = 0 with CY set |
| Cpu8080.Execute | src/cpu.rs:84-139 | every handler leaves A, D, E, SP, the interrupt byte, AC and `pad` alone; memory changes only under STAX B, CY only under DAD B, Z/S/P only under DCR B, B only under LXI/DCR/MVI, C only under LXI, H and L only under DAD; PC moves by the documented instruction length minus one |
| Cpu8080.Exec | src/cpu.rs:141-149 | a step succeeds iff PC is in memory, the opcode is below 10 and the handler's operand addresses are in range; otherwise it reports the out-of-range PC, the unimplemented opcode, or the first operand address that `AccessFault` names; a successful step moves PC by exactly the instruction length and preserves A, D, E, SP, the interrupt byte and the memory size |
| Cpu8080.Cpu.constructor | src/cpu.rs:63-76 | a new CPU has its own 16000-cell memory, the ten-entry table, and the initial state |
| Cpu8080.Cpu.Nop | src/cpu.rs:86-88 | NOP changes nothing |
| Cpu8080.Cpu.LxiBD16 | src/cpu.rs:91-95 | the fields become exactly the `Execute` result for LXI B: C and B from the two operand bytes, PC + 2 |
| Cpu8080.Cpu.StaxB | src/cpu.rs:98-102 | only the memory cell at BC changes, and it receives A |
| Cpu8080.Cpu.InxB | src/cpu.rs:105-107 | the stub changes nothing |
| Cpu8080.Cpu.InrB | src/cpu.rs:110-112 | the stub changes nothing |
| Cpu8080.Cpu.DcrB | src/cpu.rs:115-120 | B is decremented and Z, S and P are set from the new B, with P from the corrected `parity` loop |
| Cpu8080.Cpu.MviBD8 | src/cpu.rs:123-126 | B becomes the operand byte and PC + 1 |
| Cpu8080.Cpu.Rlc1 | src/cpu.rs:129-131 | the stub changes nothing |
| Cpu8080.Cpu.DadB | src/cpu.rs:134-139 | H, L and CY become the 17-bit sum's result; nothing else changes |
| Cpu8080.Cpu.Call | src/cpu.rs:24-26 | calling the table entry's handler has the effect `Execute` gives it |
| Cpu8080.Cpu.ProcessInstruction | src/cpu.rs:141-149 | one step on the object matches `Exec` on its snapshot: a fault leaves every field and cell unchanged, and otherwise the new fields are the successful result |
| Cpu8080Properties.Dispatch | src/cpu.rs:141-149 | a decodable opcode whose operands are in range runs its handler and then adds 1 to PC |
| Cpu8080Properties.NopStep | src/cpu.rs:86-88 | opcodes 0x00 and 0x08 change only PC, which grows by 1 |
| Cpu8080Properties.StubStep | src/cpu.rs:104-131 | the stubs at 0x03, 0x04 and 0x07 change only PC, which grows by 1 |
| Cpu8080Properties.LxiBD16Step | src/cpu.rs:90-95 | LXI B loads C from pc+1 and B from pc+2, PC grows by 3, nothing else changes; an operand past the end faults at that address |
| Cpu8080Properties.StaxBStep | src/cpu.rs:97-102 | STAX B writes A at BC, every other cell, register and flag keeps its value, PC grows by 1; BC past the end faults |
| Cpu8080Properties.DcrBStep | src/cpu.rs:114-120 | DCR B gives B − 1 mod 256, Z iff the new B is 0, S iff it is ≥ 0x80, P iff it has an even number of ones; CY, AC and everything else are unchanged and PC grows by 1 |
| Cpu8080Properties.MviBD8Step | src/cpu.rs:122-126 | MVI B loads B from pc+1 and PC grows by 2; an operand past the end faults |
| Cpu8080Properties.DadBExec | src/cpu.rs:133-139 | a DAD B step yields the input state with H, L and CY taken from the 17-bit sum and PC + 1 |
| Cpu8080Properties.DadBStep | src/cpu.rs:133-139 | DAD B gives HL = (HL + BC) mod 2^16 and CY iff HL + BC ≥ 2^16; no other flag or register changes and PC grows by 1 |
| Cpu8080Properties.Loaded | src/cpu.rs:172-175 | the initial state with a program written into memory from address 0, every later cell still 0 |
| Cpu8080Properties.NopIncrementsProgramCounter | src/cpu.rs:158-168 | from `Cpu::new`, one step keeps flags and memory and sets PC to 1 |
| Cpu8080Properties.LxiBD16ChangesCAndB | src/cpu.rs:170-184 | program 01 01 02 loads C = 1 and B = 2, keeps flags and memory, and sets PC to 3 |
| Cpu8080Properties.StaxBMovesAIntoAddrBC | src/cpu.rs:186-198 | with B = 1 and C = 2, STAX B stores A in cell 258 and keeps the flags |
| Cpu8080Properties.DcrBHandlesZeroResult | src/cpu.rs:212-226 | with B = 1 and every flag set, DCR B leaves B = 0, Z and P set, S cleared and CY kept |
| Cpu8080Properties.DadBWrapsAndCarries | src/cpu.rs:133-139 | HL = 0xFFFF plus BC = 1 gives HL = 0 and sets CY |
| Cpu8080Properties.DadBWithoutCarry | src/cpu.rs:133-139 | HL = 0 plus BC = 1 gives HL = 1 and clears CY |
| Cpu8080Properties.LoadPairThenStore | src/cpu.rs:90-102 | LXI B,hi:lo followed by STAX B stores A at address `(hi << 8) + lo`, with B = hi, C = lo, flags unchanged and PC + 4 |

## Left out

- The console output of the mnemonic and of "Implement me" is left out. The
  table keeps `name` as inert data.
- The `fn(&mut Cpu)` function pointers are modelled as the `Op` datatype, with
  `match` dispatch in `Cpu.Call`.
- `cycles` is kept as table data only, because nothing reads it.
- `run` is left out, because it only calls `process_instruction` once.
- Register width: registers and cells are 8-bit, where the source declares
  `u16`. Every reachable value fits in a byte, as argued above. States with
  `u16` values above 255 cannot be expressed.
- The stubs INX B, INR B and RLC are no-ops, as in the source. Their 8080
  semantics are not invented.
- Cpu8080.Execute: DCR B does not recompute AC, although its comment lists AC.
  The model follows the code.
- `pad` and `int_enable` are carried unchanged, because no code reads or
  writes them after construction.
- Cpu8080.Cpu.ProcessInstruction: a Rust index-out-of-range panic aborts the
  program. Here it is a returned `Fault` with the state unchanged. The model
  has no "halted" status, and nothing after a fault is modelled. The two
  arithmetic panics (DCR B at B = 0, DAD B when HL + BC reaches 2^16) are not
  faults here: the step wraps around instead, as listed under "## Findings".
- Release-mode wrap-around of `u16` arithmetic is not modelled. A debug build
  panics there, and the Findings describe both cases.

## Findings

| source | as written | input that shows it | evidently intended | confidence | as-written member | corrected member |
|---|---|---|---|---|---|---|
| src/cpu.rs:50-53 | `num >> 1;` discards the shifted value, so bit 0 is counted `size` times and `parity(x, 8)` is always true | `parity(1, 8)` returns true although 0x01 has one set bit | shift `num` each iteration and report even parity of the low `size` bits | high (not executed) | Bits.ParityAsWritten | Bits.Parity |
| src/cpu.rs:116 | `self.b -= 1` on a `u16` overflows at 0: a panic in a debug build, 0xFFFF in a release build | DCR B with B = 0 | 8-bit wrap-around: B becomes 0xFF | high (not executed) | Cpu8080.DecrementAsWritten | Cpu8080.Decrement |
| src/cpu.rs:135-138 | the `u16` sum overflows when HL + BC ≥ 2^16, and `res as u32 & 0xffff0000` is always 0, so CY is never set | DAD B with HL = 0xFFFF, BC = 0x0001 | a 17-bit sum: HL = sum mod 2^16 and CY = carry out of bit 15 | high (not executed) | Cpu8080.AddPairsAsWritten | Cpu8080.AddPairs |
