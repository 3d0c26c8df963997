/** Turning a scan hit into an absolute address. The scanner, the instruction
    decoders and the page-base macro are external code; they are the fields
    of `Env`, each with the calling convention PUBGM.h relies on.
    `findPattern` and `decode_addsub_imm` return their value directly, and
    PUBGM.h tests that value against 0; `decode_ldr_literal` also returns its
    value directly, and PUBGM.h uses it unchecked.
    `decode_adr_imm` and `decode_ldrstr_uimm` report success as a `bool` and
    write the value through a pointer; their fields return None for `false`. */
module Resolver {
  import opened Wrappers
  import opened RemoteMemory
  import opened Patterns

  datatype Env = Env(
    mem: Memory,                             // the target process's memory
    find: ScanQuery -> nat,                  // findPattern: the hit, or 0
    ldrLiteral: nat -> int,                  // KittyArm::decode_ldr_literal
    adrImm: nat -> Option<int>,              // KittyArm64::decode_adr_imm
    addSubImm: nat -> int,                   // KittyArm64::decode_addsub_imm
    ldrStrUimm: nat -> Option<int>,          // KittyArm64::decode_ldrstr_uimm
    pageOffset: nat -> nat)                  // INSN_PAGE_OFFSET

  /** A pointer-sized read, as `vm_rpm_ptr(p, &x, sizeof(uintptr_t))` into a zeroed `x`. */
  function ReadWord(env: Env, a: int): nat
  {
    RemoteMemory.ReadPtr(env.mem, a)
  }

  /** A 32-bit instruction word read into a zeroed `uint32_t`. */
  function ReadInsn(env: Env, a: int): nat
  {
    ReadU32(env.mem, a)
  }

  /** How a profile turns a hit into an address. */
  datatype Recipe =
    | LiteralPool(query: ScanQuery, bias: int)
      // 32-bit ARM `ldr rX, [pc, #imm]`: PC (hit + 8) plus the word in the
      // literal pool, plus a bias
    | Direct(query: ScanQuery)
      // the hit itself
    | PageAdd(query: ScanQuery)
      // AArch64 `adrp; add`: page base + page delta + 12-bit immediate, unless 0
    | PageAddLoad(query: ScanQuery, bias: int)
      // AArch64 `adrp; add; ldrb`: as PageAdd, plus the load's offset and a bias

  function Run(env: Env, r: Recipe): Option<int>
  {
    match r
    case LiteralPool(q, bias) =>
      var insn := env.find(q);
      if insn == 0 then None
      else
        var pc := insn + 8;
        var r1 := ReadWord(env, pc + env.ldrLiteral(ReadWord(env, insn)));
        Some(pc + r1 + bias)
    case Direct(q) =>
      NonZero(env.find(q))
    case PageAdd(q) =>
      var insn := env.find(q);
      if insn == 0 then None
      else
        var adrpWord, addWord := ReadInsn(env, insn), ReadInsn(env, insn + 4);
        if adrpWord == 0 || addWord == 0 then None
        else
          (match NonZeroResult(env.adrImm(adrpWord))
           case None => None
           case Some(pcRel) =>
             var add := env.addSubImm(addWord);
             if add == 0 then None else NonZero(env.pageOffset(insn) + pcRel + add))
    case PageAddLoad(q, bias) =>
      var insn := env.find(q);
      if insn == 0 then None
      else
        var adrpWord, addWord, ldrWord := ReadInsn(env, insn), ReadInsn(env, insn + 4), ReadInsn(env, insn + 8);
        if adrpWord == 0 || addWord == 0 || ldrWord == 0 then None
        else
          match NonZeroResult(env.adrImm(adrpWord))
          case None => None
          case Some(pcRel) =>
            var add := env.addSubImm(addWord);
            if add == 0 then None
            else
              match NonZeroResult(env.ldrStrUimm(ldrWord))
              case None => None
              case Some(ldr) => NonZero(env.pageOffset(insn) + pcRel + add + ldr + bias)
  }

  /** Ordered fallback: the first recipe that yields an address wins. */
  function FirstSuccess(env: Env, rs: seq<Recipe>): (r: Option<int>)
    ensures r.None? <==> forall i :: 0 <= i < |rs| ==> Run(env, rs[i]).None?
    ensures r.Some? ==> exists i :: 0 <= i < |rs| && Run(env, rs[i]) == r
                                  && forall j :: 0 <= j < i ==> Run(env, rs[j]).None?
    decreases |rs|
  {
    if rs == [] then None
    else
      match Run(env, rs[0])
      case Some(a) => Some(a)
      case None =>
        var rest := FirstSuccess(env, rs[1..]);
        assert forall i :: 1 <= i < |rs| ==> rs[i] == rs[1..][i - 1];
        rest
  }

  /** With two strategies, the second is the answer exactly when the first fails. */
  lemma FirstSuccessOfTwo(env: Env, first: Recipe, second: Recipe)
    ensures FirstSuccess(env, [first, second]) == if Run(env, first).Some? then Run(env, first) else Run(env, second)
  {
  }

  /** Once a recipe succeeds, the recipes after it are never consulted: the
      result is the same whatever they would have produced. */
  lemma {:induction false} FirstSuccessIgnoresLater(env: Env, rs: seq<Recipe>, k: nat, tail: seq<Recipe>)
    requires k < |rs| && Run(env, rs[k]).Some?
    ensures FirstSuccess(env, rs[..k + 1] + tail) == FirstSuccess(env, rs)
    decreases k
  {
    if k > 0 && Run(env, rs[0]).None? {
      assert (rs[..k + 1] + tail)[1..] == rs[1..][..k] + tail;
      FirstSuccessIgnoresLater(env, rs[1..], k - 1, tail);
    }
  }
}
