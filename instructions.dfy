/// The instruction decoder: a pure, partial map from an opcode byte to one
/// of the two implemented instruction forms, ADD A,r and LD r,d8.
module Instructions {
  import opened RegisterFile

  datatype Option<T> = None | Some(value: T)

  /** The register operand of ADD A,r. */
  datatype ArithmeticTarget = A | B | C | D | E | H | L

  /** The destination register of LD r,d8. */
  datatype Register8 = A | B | C | D | E | H | L

  datatype Instruction =
    | Add(target: ArithmeticTarget)
    | LdImm8(register: Register8)

  /** The 3-bit operand code of a register in the opcode map (110, the indirect-HL operand, is not implemented). */
  function TargetCode(t: ArithmeticTarget): (code: int)
    ensures 0 <= code < 8 && code != 6
  {
    match t
    case B => 0
    case C => 1
    case D => 2
    case E => 3
    case H => 4
    case L => 5
    case A => 7
  }

  function RegisterCode(r: Register8): (code: int)
    ensures 0 <= code < 8 && code != 6
  {
    match r
    case B => 0
    case C => 1
    case D => 2
    case E => 3
    case H => 4
    case L => 5
    case A => 7
  }

  /**
   * The opcode of an implemented instruction, built from the operand code:
   * ADD A,r is 0x80 plus the code (1000_0rrr) and LD r,d8 is eight
   * times the code plus 6 (00rr_r110). Decode inverts it.
   */
  function Encode(i: Instruction): (op: Byte)
    ensures Decode(op) == Some(i)
  {
    match i
    case Add(t) => 0x80 + TargetCode(t)
    case LdImm8(r) => RegisterCode(r) * 8 + 0x06
  }

  /** Decodes an opcode; None stands for the fatal "unimplemented opcode" failure. */
  function Decode(op: Byte): (r: Option<Instruction>)
    ensures r.Some? && r.value.Add? ==> op / 8 == 0x10 && op % 8 == TargetCode(r.value.target)
    ensures r.Some? && r.value.LdImm8? ==> op < 0x40 && op % 8 == 6 && op / 8 == RegisterCode(r.value.register)
    ensures op / 8 == 0x10 && op % 8 != 6 ==> r.Some?
    ensures op < 0x40 && op % 8 == 6 && op / 8 != 6 ==> r.Some?
  {
    match op
    case 0x87 => Some(Add(ArithmeticTarget.A))
    case 0x80 => Some(Add(ArithmeticTarget.B))
    case 0x81 => Some(Add(ArithmeticTarget.C))
    case 0x82 => Some(Add(ArithmeticTarget.D))
    case 0x83 => Some(Add(ArithmeticTarget.E))
    case 0x84 => Some(Add(ArithmeticTarget.H))
    case 0x85 => Some(Add(ArithmeticTarget.L))

    case 0x06 => Some(LdImm8(Register8.B))
    case 0x0E => Some(LdImm8(Register8.C))
    case 0x16 => Some(LdImm8(Register8.D))
    case 0x1E => Some(LdImm8(Register8.E))
    case 0x26 => Some(LdImm8(Register8.H))
    case 0x2E => Some(LdImm8(Register8.L))
    case 0x3E => Some(LdImm8(Register8.A))

    case _ => None
  }

  /** Decode and Encode are inverse on the implemented opcodes, in both directions. */
  lemma {:induction false} DecodeIffEncode(op: Byte, i: Instruction)
    ensures Decode(op) == Some(i) <==> Encode(i) == op
  {
  }

  /** An opcode fails to decode exactly when no implemented instruction has it as its encoding. */
  lemma DecodeFailsIffNoEncoding(op: Byte)
    ensures Decode(op).None? <==> forall i :: Encode(i) != op
  {
    if Decode(op).Some? {
      DecodeIffEncode(op, Decode(op).value);
    }
  }

  /** Distinct implemented opcodes decode to distinct instructions. */
  lemma DecodeInjective(x: Byte, y: Byte)
    requires Decode(x).Some? && Decode(x) == Decode(y)
    ensures x == y
  {
    DecodeIffEncode(x, Decode(x).value);
    DecodeIffEncode(y, Decode(y).value);
  }

  /** The opcodes of the unimplemented HALT, ADD A,(HL) and LD (HL),d8 all fail. */
  lemma UnimplementedNeighbours()
    ensures Decode(0x76).None? && Decode(0x86).None? && Decode(0x36).None?
  {
  }
}
