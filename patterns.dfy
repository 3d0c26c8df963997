/** The byte signatures the profile searches for. A signature is a sequence
    of pattern bytes (PUBGM.h writes them as hex text, two digits per byte,
    optionally separated by spaces) plus a mask with one 'x' (exact byte) or
    '?' (any byte) per pattern byte. The scanner itself is external. */
module Patterns {
  import opened Wrappers

  type Byte = b: int | 0 <= b < 0x100

  /** `PATTERN_MAP_TYPE`: which class of mapped region the scan covers. */
  datatype RegionClass = MapRxp | MapBss

  /** One call of the scanner: the address of the `skip`th match (0-based), plus `step`. */
  datatype ScanQuery = ScanQuery(region: RegionClass, bytes: seq<Byte>, mask: string, step: int, skip: nat)

  function Repeat(c: char, n: nat): (s: string)
    ensures |s| == n
    ensures forall i :: 0 <= i < n ==> s[i] == c
  {
    if n == 0 then [] else [c] + Repeat(c, n - 1)
  }

  /** `std::string mask(hex.length() / 2, 'x')`: every byte of the signature exact. */
  function ExactMask(bytes: seq<Byte>): string
  {
    Repeat('x', |bytes|)
  }

  /** One mask character per pattern byte, each 'x' or '?'. */
  predicate WellFormed(q: ScanQuery)
  {
    && |q.mask| == |q.bytes|
    && forall i :: 0 <= i < |q.mask| ==> q.mask[i] == 'x' || q.mask[i] == '?'
  }

  /* `Compile` and `Matches` state the mask convention that `findPattern`
     implements. The scanner is external (`Resolver.Env.find`) and is not
     constrained by them; they document what a signature and its mask mean. */

  /** A compiled pattern entry: an exact byte, or None for a wildcard. */
  function Compile(q: ScanQuery): seq<Option<Byte>>
    requires WellFormed(q)
  {
    seq(|q.bytes|, i requires 0 <= i < |q.bytes| => if q.mask[i] == '?' then None else Some(q.bytes[i]))
  }

  /** A window of memory bytes matches when every exact entry equals its byte. */
  predicate Matches(cells: seq<Option<Byte>>, window: seq<Byte>)
  {
    |window| == |cells| && forall i :: 0 <= i < |cells| && cells[i].Some? ==> window[i] == cells[i].value
  }

  /** Wildcard positions place no demand on the window. */
  lemma WildcardsMatchAnything(q: ScanQuery, w1: seq<Byte>, w2: seq<Byte>)
    requires WellFormed(q) && |w1| == |w2| == |q.bytes|
    requires forall i :: 0 <= i < |w1| && q.mask[i] == 'x' ==> w1[i] == w2[i]
    ensures Matches(Compile(q), w1) <==> Matches(Compile(q), w2)
  {
  }

  /** A mask of `hex.length() / 2` 'x' characters makes the scan exact: the
      only window that matches is the signature itself. */
  lemma ExactMaskMatchesOnlySignature(q: ScanQuery, w: seq<Byte>)
    requires q.mask == ExactMask(q.bytes)
    ensures WellFormed(q)
    ensures Matches(Compile(q), w) <==> w == q.bytes
  {
  }

  /** Hex "BC109FE501108FE0082091E5". GUObjectArray, ARM:
      `ldr r1, [pc, #0xbc]; add r1, pc, r1; ldr r2, [r1, #8]`. */
  const ArmObjectsBytes: seq<Byte> := [0xBC, 0x10, 0x9F, 0xE5, 0x01, 0x10, 0x8F, 0xE0, 0x08, 0x20, 0x91, 0xE5]
  const ArmObjectsCode: ScanQuery := ScanQuery(MapRxp, ArmObjectsBytes, ExactMask(ArmObjectsBytes), 0, 0)

  /** Hex "010000000100F049020000000000", mask "xx??xxxxxxxxxx": GUObjectArray,
      ARM alternative, raw data in `.bss`, reported two bytes before the match. */
  const ArmObjectsBss: ScanQuery :=
    ScanQuery(MapBss, [0x01, 0x00, 0x00, 0x00, 0x01, 0x00, 0xF0, 0x49, 0x02, 0x00, 0x00, 0x00, 0x00, 0x00],
              "xx??xxxxxxxxxx", -2, 0)

  /** Hex "12 40 B9 00 3E 40 B9 00 00 00 6B 00 00 00 54 00 00 00 00 00 00 00 91":
      GUObjectArray, AArch64; the ADRP/ADD pair sits 0xF bytes after the match. */
  const A64ObjectsCode: ScanQuery :=
    ScanQuery(MapRxp, [0x12, 0x40, 0xB9, 0x00, 0x3E, 0x40, 0xB9, 0x00, 0x00, 0x00, 0x6B, 0x00,
                       0x00, 0x00, 0x54, 0x00, 0x00, 0x00, 0x00, 0x00, 0x00, 0x00, 0x91],
              "xxx?xxx???x???x???????x", 0xF, 0)

  /** Hex "E0019FE500008FE0307090E5". GNames, ARM:
      `ldr r0, [pc, #0x1e0]; add r0, pc, r0; ldr r7, [r0, #0x30]`. */
  const ArmNamesBytes: seq<Byte> := [0xE0, 0x01, 0x9F, 0xE5, 0x00, 0x00, 0x8F, 0xE0, 0x30, 0x70, 0x90, 0xE5]
  const ArmNamesCode: ScanQuery := ScanQuery(MapRxp, ArmNamesBytes, ExactMask(ArmNamesBytes), 0, 0)

  /** Hex "00E432D8B00D4F891FB77ECFACA24AFD362843C6E1534D2CA2868E6CA38CBD1764":
      GNames, ARM alternative, 0xF bytes before the second match in `.bss`. */
  const ArmNamesBssBytes: seq<Byte> :=
    [0x00, 0xE4, 0x32, 0xD8, 0xB0, 0x0D, 0x4F, 0x89, 0x1F, 0xB7, 0x7E, 0xCF, 0xAC, 0xA2, 0x4A, 0xFD,
     0x36, 0x28, 0x43, 0xC6, 0xE1, 0x53, 0x4D, 0x2C, 0xA2, 0x86, 0x8E, 0x6C, 0xA3, 0x8C, 0xBD, 0x17, 0x64]
  const ArmNamesBss: ScanQuery := ScanQuery(MapBss, ArmNamesBssBytes, ExactMask(ArmNamesBssBytes), -0xF, 1)

  /** Hex "81 80 52 00 00 00 00 00 03 1F 2A", mask "xxx?????xxx": GNames, AArch64;
      the ADRP/ADD/LDRB triple sits 0x17 bytes after the match. */
  const A64NamesCode: ScanQuery :=
    ScanQuery(MapRxp, [0x81, 0x80, 0x52, 0x00, 0x00, 0x00, 0x00, 0x00, 0x03, 0x1F, 0x2A], "xxx?????xxx", 0x17, 0)

  lemma WellFormedArmObjectsBss()
    ensures WellFormed(ArmObjectsBss) && |ArmObjectsBss.bytes| == 14
  {
  }

  lemma WellFormedA64ObjectsCode()
    ensures WellFormed(A64ObjectsCode) && |A64ObjectsCode.bytes| == 23
  {
  }

  lemma WellFormedA64NamesCode()
    ensures WellFormed(A64NamesCode) && |A64NamesCode.bytes| == 11
  {
  }

  /** Every signature of the profile has exactly one mask character per byte. */
  lemma AllSignaturesWellFormed()
    ensures WellFormed(ArmObjectsCode) && |ArmObjectsCode.bytes| == 12
    ensures WellFormed(ArmObjectsBss) && |ArmObjectsBss.bytes| == 14
    ensures WellFormed(A64ObjectsCode) && |A64ObjectsCode.bytes| == 23
    ensures WellFormed(ArmNamesCode) && |ArmNamesCode.bytes| == 12
    ensures WellFormed(ArmNamesBss) && |ArmNamesBss.bytes| == 33
    ensures WellFormed(A64NamesCode) && |A64NamesCode.bytes| == 11
  {
    ExactMaskMatchesOnlySignature(ArmObjectsCode, ArmObjectsCode.bytes);
    ExactMaskMatchesOnlySignature(ArmNamesCode, ArmNamesCode.bytes);
    ExactMaskMatchesOnlySignature(ArmNamesBss, ArmNamesBss.bytes);
    WellFormedArmObjectsBss();
    WellFormedA64ObjectsCode();
    WellFormedA64NamesCode();
  }
}
