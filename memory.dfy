/** The remote process's memory as the read primitive `vm_rpm_ptr` shows it:
    a partial map from address to the pointer-sized value stored there.
    Narrower reads see the low bytes of that value (the targets are
    little-endian). An address outside the map faults. The explicit-destination
    reads of PUBGM.h write into locals initialised to 0, so a fault leaves 0;
    a faulting templated read `vm_rpm_ptr<T>(addr)` is taken to return 0 too. */
module RemoteMemory {

  type Memory = map<int, nat>

  const Two32: int := 0x1_0000_0000
  const Two31: int := 0x8000_0000

  /** A `uintptr_t` read into a zeroed destination: the stored value, or 0 on a fault. */
  function ReadPtr(mem: Memory, a: int): nat
  {
    if a in mem then mem[a] else 0
  }

  /** A `uint32_t` read (an instruction word): the low four bytes. */
  function ReadU32(mem: Memory, a: int): (v: nat)
    ensures v < Two32
    ensures a in mem && mem[a] < Two32 ==> v == mem[a]
  {
    ReadPtr(mem, a) % Two32
  }

  /** Two's complement reading of a 32-bit pattern. */
  function ToInt32(u: nat): (v: int)
    requires u < Two32
    ensures -Two31 <= v < Two31
    ensures v == u || v == u - Two32
  {
    if u < Two31 then u else u - Two32
  }

  /** The bit pattern of a 32-bit signed value. */
  function FromInt32(v: int): (u: nat)
    requires -Two31 <= v < Two31
    ensures u < Two32
  {
    if v >= 0 then v else v + Two32
  }

  /** An `int32_t` read. */
  function ReadI32(mem: Memory, a: int): (v: int)
    ensures -Two31 <= v < Two31
  {
    ToInt32(ReadU32(mem, a))
  }

  /** A tag stored as a 32-bit pattern reads back as the signed value. */
  lemma ReadI32Stored(mem: Memory, a: int, v: int)
    requires -Two31 <= v < Two31
    ensures ReadI32(mem[a := FromInt32(v)], a) == v
  {
  }
}
