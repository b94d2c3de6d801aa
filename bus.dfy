/// The memory bus: a flat 64 KiB store in which every 16-bit address is
/// valid, with writes to the serial data (SB) and serial control (SC)
/// registers intercepted instead of stored.
module MemoryBus {
  import opened RegisterFile

  /** Serial transfer data register (SB). */
  const SerialDataAddr: Word := 0xFF01
  /** Serial transfer control register (SC). */
  const SerialControlAddr: Word := 0xFF02
  /** The only value written to SC that emits the buffered byte. */
  const TransferStart: Byte := 0x81

  class Bus {
    const memory: array<Byte>
    /** The byte last written to SB. */
    var serialData: Byte
    /** Every byte emitted to the serial sink so far, oldest first. */
    ghost var output: seq<Byte>

    ghost predicate Valid()
    {
      memory.Length == MemorySize
    }

    /** A bus whose memory and serial buffer are all zero. */
    constructor ()
      ensures Valid() && fresh(memory)
      ensures forall i :: 0 <= i < memory.Length ==> memory[i] == 0
      ensures serialData == 0 && output == []
    {
      memory := new Byte[MemorySize](_ => 0);
      serialData := 0;
      output := [];
    }

    /** Reads the stored byte; no address is out of range. */
    function Read8(addr: Word): Byte
      requires Valid()
      reads memory
    {
      memory[addr]
    }

    method Write8(addr: Word, value: Byte)
      requires Valid()
      modifies this`serialData, this`output, memory
      ensures Valid()
      // SB: the byte is buffered, memory is not touched
      ensures addr == SerialDataAddr ==>
        serialData == value && output == old(output) && unchanged(memory)
      // SC: the buffered byte is emitted iff the value is exactly 0x81; memory is not touched
      ensures addr == SerialControlAddr ==>
        serialData == old(serialData) && unchanged(memory) &&
        output == old(output) + (if value == TransferStart then [serialData] else [])
      // any other address: a plain store of that one byte
      ensures addr != SerialDataAddr && addr != SerialControlAddr ==>
        memory[..] == old(memory[..])[addr := value] &&
        serialData == old(serialData) && output == old(output)
      ensures addr != SerialDataAddr && addr != SerialControlAddr ==> Read8(addr) == value
    {
      if addr == SerialDataAddr {
        serialData := value;
      } else if addr == SerialControlAddr {
        if value == TransferStart {
          output := output + [serialData];
        }
      } else {
        memory[addr] := value;
      }
    }
  }

  /**
   * Writing a byte to SB and then 0x81 to SC emits exactly that byte and
   * leaves memory, including the stored bytes at 0xFF01 and 0xFF02, as it was.
   */
  method SerialTransfer(bus: Bus, ch: Byte)
    requires bus.Valid()
    modifies bus, bus.memory
    ensures bus.Valid()
    ensures bus.output == old(bus.output) + [ch]
    ensures unchanged(bus.memory)
    ensures bus.Read8(SerialDataAddr) == old(bus.Read8(SerialDataAddr))
  {
    bus.Write8(SerialDataAddr, ch);
    bus.Write8(SerialControlAddr, TransferStart);
  }
}
