/** The memory bus: a fixed array of 0xFFFF bytes (src/memorybus.rs). Address
    0xFFFF lies outside the array, so both operations require a smaller address. */
module MemoryBus {
  import opened Bits

  const MemorySize: nat := 0xFFFF

  class MemoryBus {
    const memory: array<Byte>

    ghost predicate Valid()
      reads this
    {
      memory.Length == MemorySize
    }

    /** Every cell starts at 0. */
    constructor ()
      ensures Valid() && fresh(memory)
      ensures forall i :: 0 <= i < memory.Length ==> memory[i] == 0
    {
      memory := new Byte[MemorySize](_ => 0);
    }

    /** The byte stored at `address`. */
    function ReadByte(address: Word): (r: Byte)
      reads this, memory
      requires Valid() && address as int < MemorySize
      ensures r == memory[address as int]
    {
      memory[address as int]
    }

    /** Stores `value` at `address`; every other cell keeps its value. */
    method Write(address: Word, value: Byte)
      requires Valid() && address as int < MemorySize
      modifies memory
      ensures ReadByte(address) == value
      ensures forall i :: 0 <= i < memory.Length && i != address as int ==> memory[i] == old(memory[i])
    {
      memory[address as int] := value;
    }
  }

  /** A client of the bus: a read after a write sees the written value, a second
      write to the same address replaces the first, reads change nothing, and
      no other cell is touched. */
  method WriteThenRead(bus: MemoryBus, address: Word, first: Byte, second: Byte) returns (seen: Byte, last: Byte)
    requires bus.Valid() && address as int < MemorySize
    modifies bus.memory
    ensures seen == first && last == second
    ensures bus.ReadByte(address) == second
    ensures forall i :: 0 <= i < bus.memory.Length && i != address as int ==> bus.memory[i] == old(bus.memory[i])
  {
    bus.Write(address, first);
    seen := bus.ReadByte(address);
    bus.Write(address, second);
    last := bus.ReadByte(address);
  }
}
