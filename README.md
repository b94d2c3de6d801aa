# Game Boy CPU core in Dafny

This project models the CPU core of a small Game Boy (Sharp LR35902) emulator
and proves properties of that model. The core has five parts:

- The register file: the eight 8-bit registers A, F, B, C, D, E, H and L, and
  the 16-bit SP and PC. It offers AF/BC/DE/HL views with the first register as
  the high byte. The Z/N/H/C flags live in the high nibble of F, and
  `FlagsRegister` packs four named flags into a byte and back.
- The decoder: a partial map from opcode bytes to the two implemented
  instruction forms, ADD A,r and LD r,d8.
- The executor: one fetch-decode-execute step, ADD A,r and LD r,d8.
- The memory bus: a 64 KiB store. Writes to SB (0xFF01) and SC (0xFF02) are
  intercepted for serial output instead of being stored.
- The CPU state: the registers plus the halted and interrupt-master-enable
  latches, with construction and reset.

Each Rust file keeps its form:

- `Registers`, `Bus` and `Cpu` are Dafny classes whose methods update their
  fields in place, as the Rust `&mut self` methods do.
- The decoder and the `FlagsRegister` conversions are functions.
- The CPU methods are each proved equal to a specification function on values
  in module `Execution` (`AddSpec`, `LdImm8Spec`, `ExecuteSpec`, `StepSpec`).
  The lemmas about the instructions are proved on those functions.

The 8- and 16-bit registers are bounded integers (`Byte`, `Word`). The Rust
shifts and masks on them become division and remainder by 256 and 16, and
wrapping additions become `% 256` and `% 0x10000`. F is a `bv8`, since only
bit operations touch it. `HighNibble` and `ByteValue` convert between the two
forms where AF needs it.

Files:

| file | module |
|---|---|
| `registers.dfy` | `RegisterFile` |
| `instructions.dfy` | `Instructions` |
| `bus.dfy` | `MemoryBus` |
| `execute.dfy` | `Execution` |
| `cpu.dfy` | `Processor` |

## Model

| member | source | states |
|---|---|---|
| RegisterFile.HighByte | src/cpu/registers.rs:43 | the high byte a pair setter stores is the number of whole 256s in v: hi*256 <= v < hi*256+256 |
| RegisterFile.LowByte | src/cpu/registers.rs:44 | the low byte a pair setter stores is what remains of v after its high byte |
| RegisterFile.Pair | src/cpu/registers.rs:38-40 | a pair read as one word splits back into the same high and low bytes |
| RegisterFile.PairOfHalves | src/cpu/registers.rs:38-45 | splitting a 16-bit value and joining the halves gives the value back |
| RegisterFile.WithFlag | src/cpu/registers.rs:69-71 | setting or clearing one flag leaves exactly that flag equal to v and the other seven bits of F unchanged |
| RegisterFile.HighNibble | src/cpu/registers.rs:35 | masking with 0xF0 leaves the low nibble zero and the number equal to n minus n mod 16 |
| RegisterFile.AFReadBack | src/cpu/registers.rs:29-36 | reading AF after writing v gives v with its low nibble cleared (v & 0xFFF0), and F's low nibble is zero |
| RegisterFile.FlagsToByte | src/cpu/registers.rs:108-115 | the packed byte has a zero low nibble and bits 7/6/5/4 equal to zero/subtract/half_carry/carry |
| RegisterFile.FlagsFromByte | src/cpu/registers.rs:117-131 | each flag is the matching bit of the byte, and packing the result again gives b & 0xF0 |
| RegisterFile.FlagsRoundTrip | src/cpu/registers.rs:108-131 | packing a FlagsRegister and unpacking the byte gives it back |
| RegisterFile.Registers.constructor | src/cpu/registers.rs:1-13 | the default register file has every register, SP and PC zero |
| RegisterFile.Registers.GetAF | src/cpu/registers.rs:29-31 | AF has A as its high byte and F as its low byte |
| RegisterFile.Registers.SetAF | src/cpu/registers.rs:33-36 | writes only A and F; A is the high byte; F is the low byte's high nibble; reading AF back gives v & 0xFFF0 |
| RegisterFile.Registers.GetBC | src/cpu/registers.rs:38-40 | BC has B as its high byte and C as its low byte |
| RegisterFile.Registers.SetBC | src/cpu/registers.rs:42-45 | writes only B and C, with the high and low byte of v; reading BC back gives v |
| RegisterFile.Registers.GetDE | src/cpu/registers.rs:47-49 | DE has D as its high byte and E as its low byte |
| RegisterFile.Registers.SetDE | src/cpu/registers.rs:51-54 | writes only D and E, with the high and low byte of v; reading DE back gives v |
| RegisterFile.Registers.GetHL | src/cpu/registers.rs:56-58 | HL has H as its high byte and L as its low byte |
| RegisterFile.Registers.SetHL | src/cpu/registers.rs:60-63 | writes only H and L, with the high and low byte of v; reading HL back gives v |
| RegisterFile.Registers.SetZ | src/cpu/registers.rs:66-71 | changes only the Z bit of F (mask 0x80); get_z then returns v |
| RegisterFile.Registers.SetN | src/cpu/registers.rs:73-78 | changes only the N bit of F (mask 0x40); get_n then returns v |
| RegisterFile.Registers.SetH | src/cpu/registers.rs:80-85 | changes only the H bit of F (mask 0x20); get_h then returns v |
| RegisterFile.Registers.SetC | src/cpu/registers.rs:87-92 | changes only the C bit of F (mask 0x10); get_c then returns v |
| Instructions.TargetCode | src/cpu/instructions.rs:32-38 | the operand code of an ADD target is a 3-bit code other than 6 (the indirect-HL slot) |
| Instructions.RegisterCode | src/cpu/instructions.rs:41-47 | the operand code of an LD destination is a 3-bit code other than 6 |
| Instructions.Encode | src/cpu/instructions.rs:29-48 | ADD A,r is 0x80 plus code(r) and LD r,d8 is code(r)*8 + 6, and decode maps each back to its instruction |
| Instructions.Decode | src/cpu/instructions.rs:29-51 | every ADD result comes from 0x80-0x87 with the target's code in the low three bits; every LD result comes from 00rrr110; all seven codes other than 6 decode in both families |
| Instructions.DecodeIffEncode | src/cpu/instructions.rs:29-51 | decode(op) is instruction i exactly when op is the encoding of i |
| Instructions.DecodeFailsIffNoEncoding | src/cpu/instructions.rs:49 | an opcode fails to decode exactly when no implemented instruction has that encoding |
| Instructions.DecodeInjective | src/cpu/instructions.rs:30-48 | distinct opcodes that decode give distinct instructions |
| Instructions.UnimplementedNeighbours | src/cpu/instructions.rs:49 | 0x76 (HALT), 0x86 (ADD A,(HL)) and 0x36 (LD (HL),d8) fail to decode |
| MemoryBus.Bus.constructor | src/bus.rs:9-14 | all 65536 memory bytes are zero, serial_data is zero and nothing has been emitted |
| MemoryBus.Bus.Write8 | src/bus.rs:16-39 | SB buffers the byte and leaves memory alone. SC leaves memory and serial_data alone and emits serial_data iff the value is exactly 0x81. Any other address stores exactly that one byte, and read8 then returns it |
| MemoryBus.SerialTransfer | src/bus.rs:20-33 | writing a byte to SB and then 0x81 to SC emits that byte and leaves memory, including the byte stored at 0xFF01, unchanged |
| Execution.NextPc | src/cpu/execute.rs:11 | PC plus one, wrapping from 0xFFFF to 0 |
| Execution.AddFlags | src/cpu/execute.rs:38-42 | Z iff the 8-bit sum is zero; N cleared; H iff the low nibble overflows; C iff the sum exceeds 0xFF. H and C are stated as the wrapped sum falling below the addend; F's low nibble is kept |
| Execution.AddSpec | src/cpu/execute.rs:24-47 | the new A plus 256 for the carry flag is the full sum; Z iff the new A is zero; only A and F change |
| Execution.AddToSelf | src/cpu/execute.rs:25-36 | ADD A,A leaves 2a mod 256 in A |
| Execution.AddExamples | src/cpu/execute.rs:35-44 | 0x0F + 0x01 gives 0x10 with H set and Z, N, C clear; 0xFF + 0x01 gives 0x00 with Z, H, C set and N clear |
| Execution.LdImm8Spec | src/cpu/execute.rs:49-64 | PC advances by one with wrapping; F and SP are unchanged |
| Execution.LdImm8LoadsDestination | src/cpu/execute.rs:50-61 | the destination register receives the byte at PC |
| Execution.LdImm8WritesOnlyDestination | src/cpu/execute.rs:53-61 | every register other than the destination keeps its value |
| Execution.ExecuteSpec | src/cpu/execute.rs:17-22 | ADD costs 4 cycles and LD r,d8 costs 8; neither changes SP, and both keep a zero low nibble of F zero |
| Execution.StepSpec | src/cpu/execute.rs:5-15 | a halted CPU costs 4 cycles and changes nothing; no step changes halted, ime or SP; every step that decodes costs 4 or 8 cycles; a zero low nibble of F stays zero |
| Execution.StepExecutesDecoded | src/cpu/execute.rs:10-14 | a running step executes the instruction the opcode at the old PC decodes to, with PC already one past it |
| Execution.StepUnimplemented | src/cpu/execute.rs:10-14 | a running step fails exactly when the opcode at PC does not decode |
| Execution.StepAdd | src/cpu/execute.rs:10-19 | an ADD step costs 4 and leaves PC one past the opcode, with A and F as ADD computes them |
| Execution.AddIgnoresPc | src/cpu/execute.rs:24-47 | ADD neither reads nor writes PC |
| Execution.OperandIgnoresPc | src/cpu/execute.rs:25-33 | the ADD operand does not depend on PC |
| Execution.StepLdImm8 | src/cpu/execute.rs:10-20 | an LD r,d8 step costs 8 and loads the byte after the opcode into r. PC ends two past the opcode, modulo 65536. F is kept |
| Execution.Run | src/cpu/execute.rs:5-15 | n successful steps cost between 4n and 8n cycles in total |
| Execution.HaltedRunIsIdle | src/cpu/execute.rs:6-8 | from a halted state, n steps cost 4n cycles and change nothing |
| Execution.RunNeverHalts | src/cpu/execute.rs:17-64 | no implemented instruction sets halted, changes ime or changes SP |
| Execution.RunKeepsFlagsLowNibble | src/cpu/execute.rs:5-64 | from a state whose F has a zero low nibble, every successful run of n steps ends with F's low nibble still zero |
| Processor.PowerOn | src/cpu/mod.rs:22-30 | PC is 0x0100, SP 0xFFFE, A-L and F zero so every flag is clear, halted and ime false |
| Processor.Cpu.constructor | src/cpu/mod.rs:14-20 | all registers, SP and PC zero; halted and ime false |
| Processor.Cpu.Reset | src/cpu/mod.rs:22-30 | the state afterwards is PowerOn whatever it was before, so reset is idempotent |
| Processor.Cpu.Step | src/cpu/execute.rs:5-15 | the new state and the outcome are those of StepSpec on the old state and the memory; the bus, memory and serial_data are unchanged |
| Processor.Cpu.ExecuteInstruction | src/cpu/execute.rs:17-22 | the new registers and the cycle count are those of ExecuteSpec |
| Processor.Cpu.Add | src/cpu/execute.rs:24-47 | the new registers are AddSpec of the old, using the flag setters; costs 4 |
| Processor.Cpu.LdImm8 | src/cpu/execute.rs:49-64 | the new registers are LdImm8Spec of the old and the memory; costs 8 |

## Left out

- src/main.rs, the host loop that steps the CPU and traces to the terminal, is not part of this model. `Execution.Run` only composes steps over a fixed memory.
- The terminal output of `write8` on SC is modelled as appending the buffered byte to a ghost sequence `output`. The byte-to-char conversion and the printing are not modelled.
- The panic on an unimplemented opcode is modelled as `None` from `Decode` and as the outcome `UnimplementedOpcode` from `Step`. Process termination is not modelled. In the model, PC has already moved past the failing opcode, as it has in the source when the panic happens.
- The model covers only the instructions the source decodes. Decoding 0x76 (HALT), the indirect-HL forms and every other opcode fails, as in the source. Nothing ever sets `halted` to true.
- Processor.Cpu.Reset: the source replaces the whole `Registers` value, while the model assigns each field of the same register object. The resulting values are the same, but object identity is not modelled.
- RegisterFile.Registers.GetZ, GetN, GetH and GetC are one-line mask tests. They carry no contract of their own; the setters' contracts and `FlagBit` state what they return.
- MemoryBus.Bus.Read8 is the plain array lookup, which is total on 16-bit addresses. It carries no contract of its own; Write8's read-back clause and Step's contract use it.
- Execution.Operand and Execution.Destination are the register selections of `add` and `id_imm8`. They carry no contract of their own.
- Integer widths: `u8` and `u16` are bounded integer subset types. Every wrapping addition in the source is written out modulo 256 or 65536.
