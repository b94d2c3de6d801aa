/// The register file of the CPU: eight 8-bit registers (A, F, B, C, D, E,
/// H, L), the 16-bit stack pointer and program counter, the 16-bit pair
/// views AF/BC/DE/HL and the four flags kept in the high nibble of F.
module RegisterFile {

  /** An unsigned 8-bit value. */
  type Byte = x: int | 0 <= x < 0x100

  /** An unsigned 16-bit value. */
  type Word = x: int | 0 <= x < 0x10000

  /** The number of bytes the 16-bit address space holds. */
  const MemorySize: int := 0x10000

  /** Masks of the four flags inside F. */
  const ZeroMask: bv8 := 0x80
  const SubtractMask: bv8 := 0x40
  const HalfCarryMask: bv8 := 0x20
  const CarryMask: bv8 := 0x10

  predicate IsFlagMask(mask: bv8) {
    mask == ZeroMask || mask == SubtractMask || mask == HalfCarryMask || mask == CarryMask
  }

  /** The byte a pair setter stores in the first (high) register. */
  function HighByte(v: Word): (hi: Byte)
    ensures hi * 256 <= v < hi * 256 + 256
  {
    v / 256
  }

  /** The byte a pair setter stores in the second (low) register. */
  function LowByte(v: Word): (lo: Byte)
    ensures v == HighByte(v) * 256 + lo
  {
    v % 256
  }

  /** A register pair read as one 16-bit value, the first register high. */
  function Pair(hi: Byte, lo: Byte): (v: Word)
    ensures HighByte(v) == hi && LowByte(v) == lo
  {
    hi * 256 + lo
  }

  /** Splitting a word and reading the halves back as a pair gives the word. */
  lemma PairOfHalves(v: Word)
    ensures Pair(HighByte(v), LowByte(v)) == v
  {
  }

  /** Whether the flag selected by `mask` is set in the flags byte `f`. */
  function FlagBit(f: bv8, mask: bv8): bool {
    f & mask != 0
  }

  /** Every bit of a byte except those of `mask` (the complement of the mask). */
  function Others(mask: bv8): bv8 {
    mask ^ 0xFF
  }

  /**
   * The flags byte after setting or clearing the single flag `mask`; the
   * flag is cleared by AND with the complement of its mask.
   */
  function WithFlag(f: bv8, mask: bv8, v: bool): (f': bv8)
    requires IsFlagMask(mask)
    ensures FlagBit(f', mask) == v
    ensures f' & Others(mask) == f & Others(mask)
  {
    if v then f | mask else f & Others(mask)
  }

  /** The number a bit-vector byte stands for, bit by bit. */
  function ByteValue(x: bv8): (n: Byte)
  {
    (if x & 0x80 != 0 then 0x80 else 0) + (if x & 0x40 != 0 then 0x40 else 0) +
    (if x & 0x20 != 0 then 0x20 else 0) + (if x & 0x10 != 0 then 0x10 else 0) +
    (if x & 0x08 != 0 then 0x08 else 0) + (if x & 0x04 != 0 then 0x04 else 0) +
    (if x & 0x02 != 0 then 0x02 else 0) + (if x & 0x01 != 0 then 0x01 else 0)
  }

  /** The bit-vector byte holding bits 7 to 4 of `n`, its low nibble cleared. */
  function HighNibble(n: Byte): (x: bv8)
    ensures x & 0x0F == 0
    ensures ByteValue(x) == n - n % 16
  {
    (if n / 0x80 % 2 == 1 then 0x80 else 0) | (if n / 0x40 % 2 == 1 then 0x40 else 0) |
    (if n / 0x20 % 2 == 1 then 0x20 else 0) | (if n / 0x10 % 2 == 1 then 0x10 else 0)
  }

  /**
   * What SetAF leaves readable through AF: the written word with its low
   * nibble cleared, and no low bit set in F.
   */
  lemma AFReadBack(value: Word)
    ensures Pair(HighByte(value), ByteValue(HighNibble(LowByte(value)))) == value - value % 16
    ensures HighNibble(LowByte(value)) & 0x0F == 0
  {
    var hi: int, lo: int := HighByte(value), LowByte(value);
    assert ByteValue(HighNibble(lo)) == lo - lo % 16;
    assert value == 16 * (16 * hi) + lo;
    SameLowNibble(16 * hi, lo);
  }

  /** Adding a multiple of 16 does not change the low nibble. */
  lemma SameLowNibble(k: int, x: int)
    requires 0 <= k && 0 <= x
    ensures (16 * k + x) % 16 == x % 16
  {
  }

  /** Four named flags, packed into and unpacked from the high nibble of a byte. */
  datatype FlagsRegister = FlagsRegister(zero: bool, subtract: bool, halfCarry: bool, carry: bool)

  const ZeroFlagBytePosition: bv8 := 7
  const SubtractFlagBytePosition: bv8 := 6
  const HalfCarryFlagBytePosition: bv8 := 5
  const CarryFlagBytePosition: bv8 := 4

  function BitOf(b: bool): bv8 {
    if b then 1 else 0
  }

  /** Packs the four flags into bits 7, 6, 5 and 4 of a byte. */
  function FlagsToByte(fr: FlagsRegister): (b: bv8)
    ensures b & 0x0F == 0
    ensures FlagBit(b, ZeroMask) == fr.zero
    ensures FlagBit(b, SubtractMask) == fr.subtract
    ensures FlagBit(b, HalfCarryMask) == fr.halfCarry
    ensures FlagBit(b, CarryMask) == fr.carry
  {
    (BitOf(fr.zero) << ZeroFlagBytePosition)
      | (BitOf(fr.subtract) << SubtractFlagBytePosition)
      | (BitOf(fr.halfCarry) << HalfCarryFlagBytePosition)
      | (BitOf(fr.carry) << CarryFlagBytePosition)
  }

  /** Unpacks bits 7, 6, 5 and 4 of a byte; the low nibble is dropped. */
  function FlagsFromByte(b: bv8): (fr: FlagsRegister)
    ensures fr.zero == FlagBit(b, ZeroMask)
    ensures fr.subtract == FlagBit(b, SubtractMask)
    ensures fr.halfCarry == FlagBit(b, HalfCarryMask)
    ensures fr.carry == FlagBit(b, CarryMask)
    ensures FlagsToByte(fr) == b & 0xF0
  {
    FlagsRegister(
      (b >> ZeroFlagBytePosition) & 1 != 0,
      (b >> SubtractFlagBytePosition) & 1 != 0,
      (b >> HalfCarryFlagBytePosition) & 1 != 0,
      (b >> CarryFlagBytePosition) & 1 != 0)
  }

  /** Packing and then unpacking a FlagsRegister gives it back. */
  lemma FlagsRoundTrip(fr: FlagsRegister)
    ensures FlagsFromByte(FlagsToByte(fr)) == fr
  {
  }

  /**
   * The contents of a register file, as a value. F is kept as a bit-vector,
   * since only bit operations touch it; the other registers are numbers.
   */
  datatype RegisterValues = RegisterValues(
    a: Byte, f: bv8, b: Byte, c: Byte, d: Byte, e: Byte, h: Byte, l: Byte,
    sp: Word, pc: Word)

  /** The default register file: every register zero. */
  const ZeroRegisters := RegisterValues(0, 0, 0, 0, 0, 0, 0, 0, 0, 0)

  class Registers {
    var a: Byte
    var f: bv8
    var b: Byte
    var c: Byte
    var d: Byte
    var e: Byte
    var h: Byte
    var l: Byte
    var sp: Word
    var pc: Word

    /** The default register file. */
    constructor ()
      ensures Values() == ZeroRegisters
    {
      a, f, b, c, d, e, h, l := 0, 0, 0, 0, 0, 0, 0, 0;
      sp, pc := 0, 0;
    }

    function Values(): RegisterValues
      reads this
    {
      RegisterValues(a, f, b, c, d, e, h, l, sp, pc)
    }

    function GetAF(): (v: Word)
      reads this
      ensures HighByte(v) == a && LowByte(v) == ByteValue(f)
    {
      Pair(a, ByteValue(f))
    }

    /** Writes AF; the low nibble of F is cleared whatever `value` holds. */
    method SetAF(value: Word)
      modifies this`a, this`f
      ensures a == HighByte(value) && f == HighNibble(LowByte(value))
      ensures f & 0x0F == 0 && GetAF() == value - value % 16
    {
      a := value / 256;
      f := HighNibble(value % 256);
      AFReadBack(value);
    }

    function GetBC(): (v: Word)
      reads this
      ensures HighByte(v) == b && LowByte(v) == c
    {
      Pair(b, c)
    }

    method SetBC(value: Word)
      modifies this`b, this`c
      ensures b == HighByte(value) && c == LowByte(value)
      ensures GetBC() == value
    {
      b := value / 256;
      c := value % 256;
    }

    function GetDE(): (v: Word)
      reads this
      ensures HighByte(v) == d && LowByte(v) == e
    {
      Pair(d, e)
    }

    method SetDE(value: Word)
      modifies this`d, this`e
      ensures d == HighByte(value) && e == LowByte(value)
      ensures GetDE() == value
    {
      d := value / 256;
      e := value % 256;
    }

    function GetHL(): (v: Word)
      reads this
      ensures HighByte(v) == h && LowByte(v) == l
    {
      Pair(h, l)
    }

    method SetHL(value: Word)
      modifies this`h, this`l
      ensures h == HighByte(value) && l == LowByte(value)
      ensures GetHL() == value
    {
      h := value / 256;
      l := value % 256;
    }

    function GetZ(): bool
      reads this
    {
      FlagBit(f, ZeroMask)
    }

    method SetZ(v: bool)
      modifies this`f
      ensures f == WithFlag(old(f), ZeroMask, v)
      ensures GetZ() == v
    {
      f := if v then f | ZeroMask else f & 0x7F;
    }

    function GetN(): bool
      reads this
    {
      FlagBit(f, SubtractMask)
    }

    method SetN(v: bool)
      modifies this`f
      ensures f == WithFlag(old(f), SubtractMask, v)
      ensures GetN() == v
    {
      f := if v then f | SubtractMask else f & 0xBF;
    }

    function GetH(): bool
      reads this
    {
      FlagBit(f, HalfCarryMask)
    }

    method SetH(v: bool)
      modifies this`f
      ensures f == WithFlag(old(f), HalfCarryMask, v)
      ensures GetH() == v
    {
      f := if v then f | HalfCarryMask else f & 0xDF;
    }

    function GetC(): bool
      reads this
    {
      FlagBit(f, CarryMask)
    }

    method SetC(v: bool)
      modifies this`f
      ensures f == WithFlag(old(f), CarryMask, v)
      ensures GetC() == v
    {
      f := if v then f | CarryMask else f & 0xEF;
    }
  }
}
