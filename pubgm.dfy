/** The PUBG Mobile target profile (Unreal Engine 4.18): where GUObjectArray
    and GNames live on 32-bit ARM and on AArch64 builds of the game. */
module PUBGM {
  import opened Wrappers
  import opened Platform
  import opened RemoteMemory
  import opened Patterns
  import opened Resolver
  import opened Indirection

  /** GUObjectArray on ARM: PC + the literal-pool word + 4 (`R2 = 4`), else the `.bss` hit. */
  const ObjectsArm: seq<Recipe> := [LiteralPool(ArmObjectsCode, 4), Direct(ArmObjectsBss)]

  /** GUObjectArray on AArch64: page base + ADRP delta + ADD immediate. */
  const ObjectsA64: Recipe := PageAdd(A64ObjectsCode)

  /** The encoded GNames address on ARM: PC + the literal-pool word + 0x30 (`R2`) + 4,
      else the `.bss` hit. */
  const NamesArm: seq<Recipe> := [LiteralPool(ArmNamesCode, 0x30 + 4), Direct(ArmNamesBss)]

  /** The encoded GNames address on AArch64: page base + ADRP delta + ADD
      immediate + LDRB offset - 4. */
  const NamesA64: Recipe := PageAddLoad(A64NamesCode, -4)

  /** A decoder result PUBGM.h refuses: decoding failed or gave 0. */
  predicate Refused(o: Option<int>)
  {
    o.None? || o.value == 0
  }

  /** The address of GUObjectArray, or None where PUBGM.h returns 0. */
  function GetGUObjectArrayPtr(env: Env, machine: int): (r: Option<int>)
    ensures !ArchSupported(machine) ==> r == None
    ensures machine == EM_ARM ==>
      var insn := env.find(ArmObjectsCode);
      r == if insn != 0
           then Some(insn + 8 + ReadWord(env, insn + 8 + env.ldrLiteral(ReadWord(env, insn))) + 4)
           else NonZero(env.find(ArmObjectsBss))
    ensures machine == EM_AARCH64 ==>
      var insn := env.find(A64ObjectsCode);
      var adrpWord := ReadInsn(env, insn);
      var addWord := ReadInsn(env, insn + 4);
      var failed := insn == 0 || adrpWord == 0 || addWord == 0
                    || Refused(env.adrImm(adrpWord)) || env.addSubImm(addWord) == 0;
      && (failed ==> r == None)
      && (!failed ==> r == NonZero(env.pageOffset(insn) + env.adrImm(adrpWord).value + env.addSubImm(addWord)))
  {
    if machine == EM_ARM then
      FirstSuccessOfTwo(env, ObjectsArm[0], ObjectsArm[1]);
      FirstSuccess(env, ObjectsArm)
    else if machine == EM_AARCH64 then Run(env, ObjectsA64)
    else None
  }

  /** The encoded GNames address `enc_names`, or None where PUBGM.h returns 0
      before reading the chain (an early return, or `enc_names == 0`). */
  function EncNames(env: Env, machine: int): (r: Option<int>)
    ensures r.Some? ==> r.value != 0
    ensures !ArchSupported(machine) ==> r == None
    ensures machine == EM_ARM ==>
      var insn := env.find(ArmNamesCode);
      r == if insn != 0
           then Some(insn + 8 + ReadWord(env, insn + 8 + env.ldrLiteral(ReadWord(env, insn))) + 0x30 + 4)
           else NonZero(env.find(ArmNamesBss))
    ensures machine == EM_AARCH64 ==>
      var insn := env.find(A64NamesCode);
      var adrpWord := ReadInsn(env, insn);
      var addWord := ReadInsn(env, insn + 4);
      var ldrWord := ReadInsn(env, insn + 8);
      var failed := insn == 0 || adrpWord == 0 || addWord == 0 || ldrWord == 0
                    || Refused(env.adrImm(adrpWord)) || env.addSubImm(addWord) == 0
                    || Refused(env.ldrStrUimm(ldrWord));
      && (failed ==> r == None)
      && (!failed ==> r == NonZero(env.pageOffset(insn) + env.adrImm(adrpWord).value + env.addSubImm(addWord)
                                   + env.ldrStrUimm(ldrWord).value - 4))
  {
    var found :=
      if machine == EM_ARM then
        FirstSuccessOfTwo(env, NamesArm[0], NamesArm[1]);
        FirstSuccess(env, NamesArm)
      else if machine == EM_AARCH64 then Run(env, NamesA64)
      else None;
    NonZeroResult(found)
  }

  /** The GNames address: the encoded address, then the pointer chain. A final
      read of 0 is the failure value. `fetches` counts the remote reads of the
      chain; none happens when there is no encoded address. */
  method GetNamesPtr(env: Env, machine: int) returns (r: Option<int>, ghost fetches: nat)
    ensures !ArchSupported(machine) ==> r == None
    ensures EncNames(env, machine).None? ==> r == None
    ensures EncNames(env, machine).Some? ==> r == NonZeroResult(Chain(env.mem, EncNames(env, machine).value))
    ensures EncNames(env, machine).None? ==> fetches == 0
    ensures EncNames(env, machine).Some? ==>
      var encNames := EncNames(env, machine).value;
      fetches == if Chain(env.mem, encNames).Some? then ChainIndex(ReadI32(env.mem, encNames)) + 2 else 1
  {
    var encNames := EncNames(env, machine);
    if encNames.None? {
      return None, 0;
    }
    var chain;
    chain, fetches := ResolveChain(env.mem, encNames.value);
    r := NonZeroResult(chain);
  }

  /** The supported machine types are exactly those for which some process
      image lets GUObjectArray resolve. */
  lemma ArchSupportedExactly(machine: int)
    ensures ArchSupported(machine) <==> exists env :: GetGUObjectArrayPtr(env, machine).Some?
  {
    if ArchSupported(machine) {
      var hit := 0x1000;
      var env := Env(map[hit := 1, hit + 4 := 1],
                     q => hit, w => 1, w => Some(1), w => 1, w => Some(1), a => a);
      assert ReadInsn(env, hit) == 1 && ReadInsn(env, hit + 4) == 1;
      assert GetGUObjectArrayPtr(env, machine).Some?;
    }
  }
}
