/// What one step of the CPU does, stated on values: the effect of ADD A,r
/// and LD r,d8 on the register file, the fetch-decode-execute step, and
/// the composition of several steps as a host that accumulates cycles sees it.
/// The methods of Processor.Cpu are proved to do exactly this.
module Execution {
  import opened RegisterFile
  import opened Instructions

  /** The result of one step: its cycle cost, or the fatal unimplemented-opcode failure. */
  datatype Outcome = Cycles(count: Byte) | UnimplementedOpcode(opcode: Byte)

  /** The whole CPU as a value: its register file and the halted and interrupt-master-enable latches. */
  datatype CpuState = CpuState(regs: RegisterValues, halted: bool, ime: bool)

  /** PC plus one, wrapping from 0xFFFF to 0. */
  function NextPc(pc: Word): (next: Word)
    ensures next == if pc == 0xFFFF then 0 else pc + 1
  {
    (pc + 1) % 0x10000
  }

  /** The register ADD A,r reads its second operand from. */
  function Operand(r: RegisterValues, t: ArithmeticTarget): Byte {
    match t
    case A => r.a
    case B => r.b
    case C => r.c
    case D => r.d
    case E => r.e
    case H => r.h
    case L => r.l
  }

  /** The register LD r,d8 writes. */
  function Destination(r: RegisterValues, reg: Register8): Byte {
    match reg
    case A => r.a
    case B => r.b
    case C => r.c
    case D => r.d
    case E => r.e
    case H => r.h
    case L => r.l
  }

  /**
   * The flags byte ADD A,r leaves when adding `value` to `a`: Z is set iff
   * the 8-bit sum is zero, N is cleared, H is set iff the low nibble of the
   * sum wrapped below that of `a` (a carry out of bit 3), C iff the 8-bit
   * sum wrapped below `a` (a carry out of bit 7); the low nibble of F is kept.
   */
  function AddFlags(f: bv8, a: Byte, value: Byte): (f': bv8)
    ensures FlagBit(f', ZeroMask) == ((a + value) % 256 == 0)
    ensures !FlagBit(f', SubtractMask)
    ensures FlagBit(f', HalfCarryMask) == ((a + value) % 16 < a % 16)
    ensures FlagBit(f', CarryMask) == ((a + value) % 256 < a)
    ensures f' & 0x0F == f & 0x0F
  {
    var result := (a + value) % 256;
    var fz := WithFlag(f, ZeroMask, result == 0);
    var fn := WithFlag(fz, SubtractMask, false);
    var fh := WithFlag(fn, HalfCarryMask, (a % 16) + (value % 16) > 0xF);
    WithFlag(fh, CarryMask, a + value > 0xFF)
  }

  /**
   * ADD A,r: A becomes the 8-bit (wrapping) sum, and A together with the
   * new carry flag is exactly the 9-bit sum; Z is set iff the new A is zero;
   * nothing but A and F changes.
   */
  function AddSpec(r: RegisterValues, t: ArithmeticTarget): (r': RegisterValues)
    ensures r'.a + (if FlagBit(r'.f, CarryMask) then 256 else 0) == r.a + Operand(r, t)
    ensures FlagBit(r'.f, ZeroMask) <==> r'.a == 0
    ensures r'.f == AddFlags(r.f, r.a, Operand(r, t))
    ensures r' == r.(a := r'.a, f := r'.f)
  {
    var value := Operand(r, t);
    var a := r.a;
    var result := (a + value) % 256;
    r.(a := result, f := AddFlags(r.f, a, value))
  }

  /** ADD A,A doubles A, modulo 256. */
  lemma AddToSelf(r: RegisterValues)
    ensures AddSpec(r, ArithmeticTarget.A).a == (2 * r.a) % 256
  {
  }

  /** The two worked examples: 0x0F + 0x01 and 0xFF + 0x01. */
  lemma AddExamples(r: RegisterValues)
    ensures var r' := AddSpec(r.(a := 0x0F, b := 0x01), ArithmeticTarget.B);
      r'.a == 0x10 && !FlagBit(r'.f, ZeroMask) && !FlagBit(r'.f, SubtractMask) &&
      FlagBit(r'.f, HalfCarryMask) && !FlagBit(r'.f, CarryMask)
    ensures var r' := AddSpec(r.(a := 0xFF, b := 0x01), ArithmeticTarget.B);
      r'.a == 0x00 && FlagBit(r'.f, ZeroMask) && !FlagBit(r'.f, SubtractMask) &&
      FlagBit(r'.f, HalfCarryMask) && FlagBit(r'.f, CarryMask)
  {
  }

  /**
   * LD r,d8: the byte at PC is loaded into r and PC moves past it
   * (wrapping); flags, SP and every other register are unchanged.
   */
  function LdImm8Spec(r: RegisterValues, reg: Register8, mem: seq<Byte>): (r': RegisterValues)
    requires |mem| == MemorySize
    ensures r'.pc == NextPc(r.pc)
    ensures r'.f == r.f && r'.sp == r.sp
  {
    var value := mem[r.pc];
    var r1 := r.(pc := NextPc(r.pc));
    match reg
    case A => r1.(a := value)
    case B => r1.(b := value)
    case C => r1.(c := value)
    case D => r1.(d := value)
    case E => r1.(e := value)
    case H => r1.(h := value)
    case L => r1.(l := value)
  }

  /** LD r,d8 loads the byte at PC into r. */
  lemma LdImm8LoadsDestination(r: RegisterValues, reg: Register8, mem: seq<Byte>)
    requires |mem| == MemorySize
    ensures Destination(LdImm8Spec(r, reg, mem), reg) == mem[r.pc]
  {
  }

  /** LD r,d8 writes no register other than r. */
  lemma LdImm8WritesOnlyDestination(r: RegisterValues, reg: Register8, mem: seq<Byte>, other: Register8)
    requires |mem| == MemorySize
    requires other != reg
    ensures Destination(LdImm8Spec(r, reg, mem), other) == Destination(r, other)
  {
  }

  /** Dispatch of a decoded instruction: the new register file and the cycle cost. */
  function ExecuteSpec(r: RegisterValues, instr: Instruction, mem: seq<Byte>): (e: (RegisterValues, Byte))
    requires |mem| == MemorySize
    ensures e.1 == (if instr.Add? then 4 else 8)
    ensures e.0.sp == r.sp
    ensures r.f & 0x0F == 0 ==> e.0.f & 0x0F == 0
  {
    match instr
    case Add(t) => (AddSpec(r, t), 4)
    case LdImm8(reg) => (LdImm8Spec(r, reg, mem), 8)
  }

  /**
   * One step: a halted CPU burns 4 cycles and changes nothing; otherwise the
   * opcode at PC is fetched, PC advanced past it, and the decoded
   * instruction executed. No step sets halted or changes SP or ime, and
   * every step that decodes costs 4 or 8 cycles.
   */
  function StepSpec(s: CpuState, mem: seq<Byte>): (t: (CpuState, Outcome))
    requires |mem| == MemorySize
    ensures s.halted ==> t == (s, Cycles(4))
    ensures t.0.halted == s.halted && t.0.ime == s.ime && t.0.regs.sp == s.regs.sp
    ensures t.1.Cycles? ==> t.1.count == 4 || t.1.count == 8
    ensures s.regs.f & 0x0F == 0 ==> t.0.regs.f & 0x0F == 0
  {
    if s.halted then
      (s, Cycles(4))
    else
      var opcode := mem[s.regs.pc];
      var r := s.regs.(pc := NextPc(s.regs.pc));
      match Decode(opcode)
      case None => (s.(regs := r), UnimplementedOpcode(opcode))
      case Some(instruction) =>
        var (r', cycles) := ExecuteSpec(r, instruction, mem);
        (s.(regs := r'), Cycles(cycles))
  }

  /** A running step executes what the opcode at PC decodes to, with PC already past the opcode. */
  lemma StepExecutesDecoded(s: CpuState, mem: seq<Byte>, i: Instruction)
    requires |mem| == MemorySize
    requires !s.halted && Decode(mem[s.regs.pc]) == Some(i)
    ensures var e := ExecuteSpec(s.regs.(pc := NextPc(s.regs.pc)), i, mem);
      StepSpec(s, mem) == (s.(regs := e.0), Cycles(e.1))
  {
  }

  /** An opcode that does not decode fails the step, after PC has moved past it. */
  lemma StepUnimplemented(s: CpuState, mem: seq<Byte>)
    requires |mem| == MemorySize
    requires !s.halted
    ensures StepSpec(s, mem).1.UnimplementedOpcode? <==> Decode(mem[s.regs.pc]).None?
    ensures StepSpec(s, mem).1.UnimplementedOpcode? ==>
      StepSpec(s, mem) == (s.(regs := s.regs.(pc := NextPc(s.regs.pc))), UnimplementedOpcode(mem[s.regs.pc]))
  {
  }

  /** ADD A,r takes 4 cycles, leaves PC one past the opcode and otherwise acts as AddSpec. */
  lemma StepAdd(s: CpuState, mem: seq<Byte>, t: ArithmeticTarget)
    requires |mem| == MemorySize
    requires !s.halted && Decode(mem[s.regs.pc]) == Some(Add(t))
    ensures StepSpec(s, mem).1 == Cycles(4)
    ensures StepSpec(s, mem).0.regs.pc == NextPc(s.regs.pc)
    ensures StepSpec(s, mem).0.regs == AddSpec(s.regs, t).(pc := NextPc(s.regs.pc))
  {
    StepExecutesDecoded(s, mem, Add(t));
    AddIgnoresPc(s.regs, t, NextPc(s.regs.pc));
  }

  /** ADD A,r neither reads nor writes PC. */
  lemma AddIgnoresPc(r: RegisterValues, t: ArithmeticTarget, pc: Word)
    ensures AddSpec(r.(pc := pc), t) == AddSpec(r, t).(pc := pc)
  {
    OperandIgnoresPc(r, t, pc);
  }

  lemma OperandIgnoresPc(r: RegisterValues, t: ArithmeticTarget, pc: Word)
    ensures Operand(r.(pc := pc), t) == Operand(r, t)
  {
  }

  /**
   * LD r,d8 takes 8 cycles, loads the byte after the opcode into r, leaves PC
   * two past the opcode (wrapping) and keeps the flags.
   */
  lemma StepLdImm8(s: CpuState, mem: seq<Byte>, reg: Register8)
    requires |mem| == MemorySize
    requires !s.halted && Decode(mem[s.regs.pc]) == Some(LdImm8(reg))
    ensures StepSpec(s, mem).1 == Cycles(8)
    ensures StepSpec(s, mem).0.regs.pc == (s.regs.pc + 2) % 0x10000
    ensures Destination(StepSpec(s, mem).0.regs, reg) == mem[NextPc(s.regs.pc)]
    ensures StepSpec(s, mem).0.regs.f == s.regs.f
  {
    StepExecutesDecoded(s, mem, LdImm8(reg));
    LdImm8LoadsDestination(s.regs.(pc := NextPc(s.regs.pc)), reg, mem);
  }

  /**
   * `n` successive steps over an unchanging memory, with the cycles they
   * cost in total; None if one of them fails to decode. Every step costs 4
   * or 8 cycles, so the total lies between 4n and 8n.
   */
  function Run(s: CpuState, mem: seq<Byte>, n: nat): (t: Option<(CpuState, nat)>)
    requires |mem| == MemorySize
    ensures t.Some? ==> 4 * n <= t.value.1 <= 8 * n
    decreases n
  {
    if n == 0 then Some((s, 0))
    else
      var (s1, outcome) := StepSpec(s, mem);
      match outcome
      case UnimplementedOpcode(_) => None
      case Cycles(k) =>
        match Run(s1, mem, n - 1)
        case None => None
        case Some((s2, total)) => Some((s2, k + total))
  }

  /** Once halted, any number of steps costs 4 cycles each and changes nothing. */
  lemma {:induction false} HaltedRunIsIdle(s: CpuState, mem: seq<Byte>, n: nat)
    requires |mem| == MemorySize
    requires s.halted
    ensures Run(s, mem, n) == Some((s, 4 * n))
    decreases n
  {
    if n > 0 {
      HaltedRunIsIdle(s, mem, n - 1);
    }
  }

  /** No implemented instruction halts the CPU: from a running state it stays running, with ime and SP as they were. */
  lemma {:induction false} RunNeverHalts(s: CpuState, mem: seq<Byte>, n: nat)
    requires |mem| == MemorySize
    requires !s.halted
    ensures Run(s, mem, n).Some? ==>
      var s' := Run(s, mem, n).value.0;
      !s'.halted && s'.ime == s.ime && s'.regs.sp == s.regs.sp
    decreases n
  {
    if n > 0 {
      RunNeverHalts(StepSpec(s, mem).0, mem, n - 1);
    }
  }

  /** The low nibble of F, zero at power-on and after any AF write, stays zero over any number of steps. */
  lemma {:induction false} RunKeepsFlagsLowNibble(s: CpuState, mem: seq<Byte>, n: nat)
    requires |mem| == MemorySize
    requires s.regs.f & 0x0F == 0
    ensures Run(s, mem, n).Some? ==> Run(s, mem, n).value.0.regs.f & 0x0F == 0
    decreases n
  {
    if n > 0 {
      RunKeepsFlagsLowNibble(StepSpec(s, mem).0, mem, n - 1);
    }
  }
}
