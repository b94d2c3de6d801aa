/// The CPU: a register file plus the halted and interrupt-master-enable
/// latches, constructed all-zero, reset to the power-on state, and advanced
/// one instruction at a time by Step, which reads the bus but never writes it.
module Processor {
  import opened RegisterFile
  import opened Instructions
  import opened MemoryBus
  import opened Execution

  /** The power-on state: PC at the cartridge entry 0x0100, SP at 0xFFFE, everything else zero. */
  function PowerOn(): (s: CpuState)
    ensures s.regs.pc == 0x0100 && s.regs.sp == 0xFFFE
    ensures !s.halted && !s.ime
    ensures s.regs.a == s.regs.b == s.regs.c == s.regs.d == s.regs.e == s.regs.h == s.regs.l == 0 && s.regs.f == 0
    ensures !FlagBit(s.regs.f, ZeroMask) && !FlagBit(s.regs.f, SubtractMask)
    ensures !FlagBit(s.regs.f, HalfCarryMask) && !FlagBit(s.regs.f, CarryMask)
  {
    CpuState(ZeroRegisters.(pc := 0x0100, sp := 0xFFFE), false, false)
  }

  class Cpu {
    const regs: Registers
    var halted: bool
    /** Interrupt master enable. */
    var ime: bool

    function State(): CpuState
      reads this, regs
    {
      CpuState(regs.Values(), halted, ime)
    }

    /** A CPU with every register zero, not halted, interrupts disabled. */
    constructor ()
      ensures fresh(regs)
      ensures State() == CpuState(ZeroRegisters, false, false)
    {
      regs := new Registers();
      halted := false;
      ime := false;
    }

    /** Puts the CPU in its power-on state, whatever state it was in. */
    method Reset()
      modifies this`halted, this`ime, regs
      ensures State() == PowerOn()
    {
      regs.a, regs.f, regs.b, regs.c, regs.d, regs.e, regs.h, regs.l := 0, 0, 0, 0, 0, 0, 0, 0;
      regs.pc := 0x0100;
      regs.sp := 0xFFFE;
      halted := false;
      ime := false;
    }

    /**
     * One fetch-decode-execute step. Only the registers can change: the bus,
     * halted and ime are left as they were.
     */
    method Step(bus: Bus) returns (outcome: Outcome)
      requires bus.Valid()
      modifies regs
      ensures (State(), outcome) == StepSpec(old(State()), bus.memory[..])
      ensures unchanged(bus) && unchanged(bus.memory)
    {
      if halted {
        return Cycles(4);
      }

      var opcode := bus.Read8(regs.pc);
      regs.pc := NextPc(regs.pc);

      match Decode(opcode) {
        case None =>
          outcome := UnimplementedOpcode(opcode);
        case Some(instruction) =>
          var cycles := ExecuteInstruction(instruction, bus);
          outcome := Cycles(cycles);
      }
    }

    method ExecuteInstruction(instr: Instruction, bus: Bus) returns (cycles: Byte)
      requires bus.Valid()
      modifies regs
      ensures (regs.Values(), cycles) == ExecuteSpec(old(regs.Values()), instr, bus.memory[..])
    {
      match instr {
        case Add(target) =>
          cycles := Add(target);
        case LdImm8(reg) =>
          cycles := LdImm8(reg, bus);
      }
    }

    /** ADD A,r: wrapping 8-bit add into A, flags through the flag setters. */
    method Add(target: ArithmeticTarget) returns (cycles: Byte)
      modifies regs
      ensures regs.Values() == AddSpec(old(regs.Values()), target)
      ensures cycles == 4
    {
      var value := Operand(regs.Values(), target);
      var a := regs.a;
      var result: Byte := (a as int + value as int) % 256;

      regs.SetZ(result == 0);
      regs.SetN(false);
      regs.SetH((a % 16) + (value % 16) > 0xF);
      regs.SetC(a as int + value as int > 0xFF);

      regs.a := result;
      cycles := 4;
    }

    /** LD r,d8: loads the byte at PC into r and moves PC past it. */
    method LdImm8(reg: Register8, bus: Bus) returns (cycles: Byte)
      requires bus.Valid()
      modifies regs
      ensures regs.Values() == LdImm8Spec(old(regs.Values()), reg, bus.memory[..])
      ensures cycles == 8
    {
      var value := bus.Read8(regs.pc);
      regs.pc := NextPc(regs.pc);

      match reg {
        case A => regs.a := value;
        case B => regs.b := value;
        case C => regs.c := value;
        case D => regs.d := value;
        case E => regs.e := value;
        case H => regs.h := value;
        case L => regs.l := value;
      }

      cycles := 8;
    }
  }
}
