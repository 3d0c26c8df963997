/** The two facts about the running system that a target profile consults:
    the target's ELF machine type and the dumper's own pointer width. */
module Platform {

  /** ELF `e_machine` values of 32-bit ARM and of AArch64. */
  const EM_ARM: int := 40
  const EM_AARCH64: int := 183

  /** The profile supports exactly these two machine types. */
  predicate ArchSupported(machine: int)
  {
    machine == EM_AARCH64 || machine == EM_ARM
  }

  /** Width of `uintptr_t` in the dumper's build (`__LP64__` or not). */
  datatype Width = Bits32 | Bits64

  function PtrBytes(w: Width): nat
  {
    if w.Bits64? then 8 else 4
  }
}
