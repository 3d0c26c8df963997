/** The GNames pointer-chain de-obfuscation: a 32-bit tag at the encoded
    address selects how many times the pointer stored 8 bytes further on must
    be dereferenced before it reaches the real GNames address. */
module Indirection {
  import opened Wrappers
  import opened RemoteMemory

  /** `uintptr_t out[16]`: the scratch table PUBGM.h fills. */
  const ScratchSize: nat := 16
  /** `in = (tag - 100) / 3`. */
  const TagBias: int := 100
  const TagScale: int := 3
  /** The first pointer of the chain sits at `enc_names + 8`. */
  const SeedOffset: int := 8

  /** C++ integer division: the quotient is truncated toward zero. */
  function TruncDiv(a: int, b: int): (q: int)
    requires b > 0
    ensures a >= 0 ==> q >= 0 && q * b <= a < q * b + b
    ensures a < 0 ==> q <= 0 && q * b - b < a <= q * b
  {
    if a >= 0 then a / b else -((-a) / b)
  }

  /** The chain length `in` that a tag encodes. */
  function ChainIndex(tag: int): int
  {
    TruncDiv(tag - TagBias, TagScale)
  }

  predicate InScratch(index: int)
  {
    1 <= index <= ScratchSize
  }

  /** The writes `out[in - 1]` and `out[in - 2]` stay inside the table
      exactly for the tags 103 .. 150. */
  lemma ChainIndexInScratch(tag: int)
    ensures InScratch(ChainIndex(tag)) <==> 103 <= tag <= 150
  {
  }

  /** Truncation matters just below the bias: a C++ compiler gives 0 where
      Dafny's Euclidean division gives -1. */
  lemma TruncationBelowBias()
    ensures ChainIndex(99) == 0 && (99 - TagBias) / TagScale == -1
  {
  }

  /** `k` successive pointer reads starting from address `a`. */
  function Deref(mem: Memory, a: int, k: nat): int
    decreases k
  {
    if k == 0 then a else ReadPtr(mem, Deref(mem, a, k - 1))
  }

  /** Dereferencing k + 1 times is reading once and then dereferencing k times. */
  lemma {:induction false} DerefShift(mem: Memory, a: int, k: nat)
    ensures Deref(mem, a, k + 1) == Deref(mem, ReadPtr(mem, a), k)
    decreases k
  {
    if k > 0 {
      DerefShift(mem, a, k - 1);
    }
  }

  /** What the chain resolves to: `in + 1` reads starting at `enc_names + 8`,
      or None when the tag puts `in` outside the scratch table. */
  function Chain(mem: Memory, encNames: int): Option<int>
  {
    var index := ChainIndex(ReadI32(mem, encNames));
    if InScratch(index) then Some(Deref(mem, encNames + SeedOffset, index + 1)) else None
  }

  /** The chain yields the pointer at `enc_names + 8`, dereferenced `in` more times. */
  lemma ChainFromSeed(mem: Memory, encNames: int)
    requires Chain(mem, encNames).Some?
    ensures Chain(mem, encNames).value
         == Deref(mem, ReadPtr(mem, encNames + SeedOffset), ChainIndex(ReadI32(mem, encNames)))
  {
    DerefShift(mem, encNames + SeedOffset, ChainIndex(ReadI32(mem, encNames)));
  }

  /** The shortest chain: tag 103 encodes one extra hop, so the result is the
      value behind the pointer stored at `enc_names + 8`. */
  lemma ShortestChain(mem: Memory, encNames: int, link: nat, head: nat)
    requires encNames in mem && mem[encNames] == 103
    requires encNames + SeedOffset in mem && mem[encNames + SeedOffset] == link
    requires link in mem && mem[link] == head
    ensures Chain(mem, encNames) == Some(head)
  {
    assert ReadU32(mem, encNames) == 103;
    assert ChainIndex(ReadI32(mem, encNames)) == 1;
    assert Deref(mem, encNames + SeedOffset, 1) == link;
  }

  /** The loop of `GetNamesPtr` in PUBGM.h, with the bound it leaves unchecked made explicit.
      `fetches` counts the remote reads performed. */
  method ResolveChain(mem: Memory, encNames: int) returns (r: Option<int>, ghost fetches: nat)
    ensures r == Chain(mem, encNames)
    ensures r.Some? ==> fetches == ChainIndex(ReadI32(mem, encNames)) + 2
    ensures r.None? ==> fetches == 1
  {
    var index := ChainIndex(ReadI32(mem, encNames));
    fetches := 1;
    if !(1 <= index <= ScratchSize) {
      return None, fetches;
    }
    ghost var start := index;
    var out := new int[ScratchSize];
    out[index - 1] := ReadPtr(mem, encNames + SeedOffset);
    fetches := fetches + 1;
    while index - 2 >= 0
      invariant 1 <= index <= start
      invariant forall j :: index - 1 <= j < start ==> out[j] == Deref(mem, encNames + SeedOffset, start - j)
      invariant fetches == start - index + 2
      decreases index
    {
      out[index - 2] := ReadPtr(mem, out[index - 1]);
      index := index - 1;
      fetches := fetches + 1;
    }
    r := Some(ReadPtr(mem, out[0]));
    fetches := fetches + 1;
  }

  /** `out[in - 1]`: the first slot PUBGM.h writes, computed without a bound check. */
  function FirstSlotAsWritten(tag: int): int
  {
    ChainIndex(tag) - 1
  }

  /** The unchecked slot leaves `out[0 .. 16)` for tags outside 103 .. 150:
      tag 100 writes `out[-1]`, tag 151 writes `out[16]`. */
  lemma UncheckedSlotEscapes(tag: int)
    ensures FirstSlotAsWritten(100) == -1 && FirstSlotAsWritten(151) == ScratchSize
    ensures 0 <= FirstSlotAsWritten(tag) < ScratchSize <==> 103 <= tag <= 150
  {
    ChainIndexInScratch(tag);
  }
}
