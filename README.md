# PUBG Mobile target profile of AndUE4Dumper, modelled in Dafny

AndUE4Dumper dumps the Unreal Engine 4 object and name tables of a running
Android game. A target profile tells it where those tables are in one game.
The PUBG Mobile profile (`PUBGM.h`) does three things:

- **GUObjectArray.** It finds the address with a byte-signature scan. The
  instructions at the hit are decoded and the address is composed from them:
  on 32-bit ARM from a PC-relative literal load, on AArch64 from an
  ADRP/ADD pair. If the ARM code signature is missing, it falls back to a
  signature in `.bss`.
- **GNames.** The same kind of recipe, followed by an LDRB offset on AArch64,
  yields an *encoded* address. A 32-bit tag stored there selects how many
  pointer hops lead from `enc_names + 8` to the real GNames. `GetNamesPtr` walks
  these hops in a 16-entry scratch array.
- **Layout tables.** `GetOffsets` returns the engine's field offsets, one
  table for 64-bit builds and one for 32-bit builds.

Modules, one per component:

- `Wrappers`: `Option` and the sentinel-0 convention.
- `Platform`: ELF machine type and pointer width.
- `RemoteMemory`: the remote read primitive.
- `Patterns`: the six signatures.
- `Resolver`: external collaborators, address recipes, ordered fallback.
- `Indirection`: the pointer chain, an imperative method over an `array`.
- `PUBGM`: the two entry points.
- `Offsets`: the two layout records.

External code that this model does not include is passed in through the
function-valued fields of `Resolver.Env`: the scanner `findPattern`, the
`KittyArm`/`KittyArm64` decoders and `INSN_PAGE_OFFSET`. Each field keeps the
calling convention `PUBGM.h` relies on. `findPattern` and `decode_addsub_imm`
return their value directly, and `PUBGM.h` tests that value against 0 (lines
58, 72, 87, 109, 130, 159, 178, and 188 for the `.bss` hit found at 148).
`decode_ldr_literal` also returns its value directly, and `PUBGM.h` adds it to
the PC unchecked. These three fields are plain functions. `decode_adr_imm` and
`decode_ldrstr_uimm` return a success flag and write their value into a
zero-initialised local, so their fields return an `Option`, with `None` for
`false`. A profile result of `None` stands for the 0 that `PUBGM.h` returns
as its failure value.

Two behaviours of the code that are easy to misread:

- A faulting read during the pointer chain does not stop the walk. It reads
  as 0 and the walk goes on. This is an assumption about the templated reads
  `vm_rpm_ptr<T>(addr)`; see "## Left out".
- The GNames `.bss` signature is 33 bytes long. Its mask is derived from the
  hex text, so the two cannot disagree.

The code does not check the chain bound 1 ≤ `in` ≤ 16. The model enforces
it and fails outside it; see Findings.

## Model

| member | source | states |
|---|---|---|
| `PUBGM.ArchSupportedExactly` | AndUE4Dumper/source/src/Core/GameProfiles/Games/PUBGM.h:13-18 | the supported machines are exactly ARM and AArch64: for every other `e_machine` GUObjectArray never resolves, and for each of the two some process image makes it resolve |
| `PUBGM.GetGUObjectArrayPtr` | AndUE4Dumper/source/src/Core/GameProfiles/Games/PUBGM.h:47-116 | ARM, code hit at `insn`: result is `(insn+8) + R1 + 4`, where R1 is the word at `insn+8 + decode_ldr_literal(word at insn)`. ARM, code miss: result is the `.bss` hit, or none if that also misses. AArch64: none when the scan misses, either instruction word is 0, ADRP decoding fails or gives 0, or the ADD immediate is 0; otherwise `page + adrp + add`, or none when that sum is 0. Any other machine: none |
| `PUBGM.EncNames` | AndUE4Dumper/source/src/Core/GameProfiles/Games/PUBGM.h:118-192 | the encoded GNames address is never 0. ARM, code hit: `(insn+8) + R1 + 0x30 + 4`. ARM, code miss: the second `.bss` match minus 0xF. AArch64: none when the scan misses, any of the three words is 0, or any decode fails or gives 0; otherwise `page + adrp + add + ldrb - 4`, unless that is 0. Unsupported machine: none |
| `PUBGM.GetNamesPtr` | AndUE4Dumper/source/src/Core/GameProfiles/Games/PUBGM.h:118-208 | no encoded address means no result and zero chain reads; otherwise the result is the chain resolved from the encoded address, with a final read of 0 counting as failure, after `in0+2` reads, or after one read when the tag is out of range |
| `Patterns.AllSignaturesWellFormed` | AndUE4Dumper/source/src/Core/GameProfiles/Games/PUBGM.h:55-155 | each of the six signatures has exactly one 'x'/'?' mask character per byte: 12, 14, 23, 12, 33 and 11 bytes |
| `Patterns.ExactMaskMatchesOnlySignature` | AndUE4Dumper/source/src/Core/GameProfiles/Games/PUBGM.h:56 | a mask of `hex.length() / 2` 'x' characters is well formed, and the only window it matches is the signature itself |
| `Patterns.WildcardsMatchAnything` | AndUE4Dumper/source/src/Core/GameProfiles/Games/PUBGM.h:82-83 | two memory windows that agree on the 'x' positions either both match or both fail: bytes under '?' do not matter |
| `Resolver.FirstSuccess` | AndUE4Dumper/source/src/Core/GameProfiles/Games/PUBGM.h:57-77 | ordered fallback: none exactly when every strategy fails; otherwise the result is that of a strategy all of whose predecessors failed |
| `Resolver.FirstSuccessOfTwo` | AndUE4Dumper/source/src/Core/GameProfiles/Games/PUBGM.h:129-149 | with a primary and an alternative, the alternative gives the answer exactly when the primary fails |
| `Resolver.FirstSuccessIgnoresLater` | AndUE4Dumper/source/src/Core/GameProfiles/Games/PUBGM.h:58-68 | once a strategy succeeds, replacing all later strategies does not change the result: the `.bss` scan is not consulted after a code hit |
| `RemoteMemory.ReadU32` | AndUE4Dumper/source/src/Core/GameProfiles/Games/PUBGM.h:98-100 | an instruction-word read is below 2^32 and equals the stored value when that fits in 32 bits |
| `RemoteMemory.ReadI32` | AndUE4Dumper/source/src/Core/GameProfiles/Games/PUBGM.h:198 | the tag read is an `int32_t`: its value lies in [-2^31, 2^31) |
| `RemoteMemory.ReadI32Stored` | AndUE4Dumper/source/src/Core/GameProfiles/Games/PUBGM.h:198 | a 32-bit value stored as its two's-complement bit pattern reads back unchanged |
| `Indirection.TruncDiv` | AndUE4Dumper/source/src/Core/GameProfiles/Games/PUBGM.h:198 | C++ division: the quotient is truncated toward zero, so it has the sign of the dividend and the remainder is smaller than the divisor |
| `Indirection.TruncationBelowBias` | AndUE4Dumper/source/src/Core/GameProfiles/Games/PUBGM.h:198 | for tag 99, `(tag-100)/3` is 0 in C++ but -1 under Euclidean division |
| `Indirection.ChainIndexInScratch` | AndUE4Dumper/source/src/Core/GameProfiles/Games/PUBGM.h:195-199 | `in = (tag-100)/3` lies in 1..16, the range in which `out[in-1]` and `out[in-2]` stay inside `out[16]`, exactly when 103 ≤ tag ≤ 150 |
| `Indirection.DerefShift` | AndUE4Dumper/source/src/Core/GameProfiles/Games/PUBGM.h:199-205 | k+1 hops from an address equal one read followed by k hops |
| `Indirection.ChainFromSeed` | AndUE4Dumper/source/src/Core/GameProfiles/Games/PUBGM.h:199-207 | a resolved chain is the pointer at `enc_names + 8` (that is, `out[in-1]`) followed by `in` more hops |
| `Indirection.ShortestChain` | AndUE4Dumper/source/src/Core/GameProfiles/Games/PUBGM.h:198-207 | tag 103 (`in` = 1) skips the loop: the result is the value behind the pointer at `enc_names + 8` |
| `Indirection.ResolveChain` | AndUE4Dumper/source/src/Core/GameProfiles/Games/PUBGM.h:194-207 | the loop leaves the `in0+1`-th hop from `enc_names + 8` as the result. It performs `in0+2` remote reads. A tag outside the scratch range fails after reading only the tag |
| `Indirection.UncheckedSlotEscapes` | AndUE4Dumper/source/src/Core/GameProfiles/Games/PUBGM.h:196-199 | the unchecked first write `out[in-1]` lands inside `out[0..16)` exactly for tags 103..150; tag 100 writes `out[-1]` and tag 151 writes `out[16]` |
| `Offsets.GetOffsets` | AndUE4Dumper/source/src/Core/GameProfiles/Games/PUBGM.h:390-394 | the 64-bit table is chosen exactly for 64-bit pointers and the 32-bit one otherwise. In both, `NumParams = EFunctionFlags + 4`, `ParamSize = NumParams + 2`, and `Func = EFunctionFlags + 0x28` on 64-bit or `+ 0x1C` on 32-bit |
| `Offsets.DerivedUFunctionOffsets` | AndUE4Dumper/source/src/Core/GameProfiles/Games/PUBGM.h:268-274 | UFunction is (0x88, 0x8C, 0x8E, 0xB0) on 64-bit and (0x58, 0x5C, 0x5E, 0x74) on 32-bit (lines 357-363) |
| `Offsets.BaseClassSizes` | AndUE4Dumper/source/src/Core/GameProfiles/Games/PUBGM.h:246-386 | in both the 64-bit table (lines 246-297) and the 32-bit table (lines 334-386), these offsets differ by exactly one pointer: UObject's Outer pointer to UField's Next, Next to UStruct's SuperStruct, SuperStruct to Children. SuperStruct and UProperty's ArrayDim both sit at `sizeof(UField)` |

## Left out

- The byte-pattern scan. Region filtering, windowed matching, step and skip all belong to `findPattern`, which is not part of this model. It is the abstract `Env.find`, queried with the region class, bytes, mask, step and skip. Calls that pass no skip are modelled with skip 0. `Patterns.Compile` and `Patterns.Matches` state what a mask means, but `Env.find` is not required to follow them.
- The instruction decoders. `KittyArm::decode_ldr_literal`, the `KittyArm64` decoders and `INSN_PAGE_OFFSET` are not part of this model. They are abstract fields of `Env`, and their bit layouts are not modelled.
- Faults in templated reads. The explicit-destination reads (lines 60, 62, 65, 98-100, 166-169) write into locals initialised to 0, so a fault leaves 0. The templated reads `vm_rpm_ptr<T>(addr)` at lines 198, 199, 203 and 207 have no destination in `PUBGM.h`; what they return on a fault is decided by `PMemory`, which is not part of this model. A faulting templated read is taken to return 0.
- Remote memory is a map from address to the pointer-sized value stored there. A 32-bit read takes its low four bytes. Overlapping reads at neighbouring addresses are not required to agree byte by byte, and byte-level reads are not modelled.
- Hex text. Each signature is its byte list, with the hex text of `PUBGM.h` in a comment. Parsing the text (two digits per byte, optional spaces) is part of `findPattern`.
- `uintptr_t` wrap-around. Addresses are unbounded integers. As a result, the ARM code-hit formulas of `GetGUObjectArrayPtr` and `EncNames` are never 0, and the check `enc_names == 0` cannot fail on that path. Under 32- or 64-bit wrap-around it could.
- Overflow of `int32_t`. `tag - 100` is undefined for tags within 100 of `INT_MIN`. The model computes it exactly, and every such tag lies outside the chain range.
- Logging. The `LOGE` calls are not modelled. Neither are `GetAppName`, `GetAppIDs`, the constant `IsUsingFNamePool` (false) or the explanatory comments; none of them affects an address.
- `GetBaseInfo()` and the ELF header. The machine type and the pointer width are parameters. The `IGameProfile` base class is not part of this model.
- The `static_assert` that each table has the size of `UE_Offsets`. It concerns C++ layout.

## Findings

| source | as written | input that shows it | evidently intended | confidence | as-written member | corrected member |
|---|---|---|---|---|---|---|
| AndUE4Dumper/source/src/Core/GameProfiles/Games/PUBGM.h:195-199 | `in` comes from the remote tag and is used for the write `out[in - 1]` into `uintptr_t out[16]` with no bound check | tag 100 gives `in` = 0, a write to `out[-1]`; tag 151 gives `in` = 17, a write to `out[16]` | fail the GNames lookup when `in` is outside 1..16 | medium, not executed | `Indirection.UncheckedSlotEscapes` | `Indirection.ResolveChain` |
