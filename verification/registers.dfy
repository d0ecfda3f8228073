/**
  The memory-mapped GPIO register window that every backend manipulates.

  Each backend maps one 4096-byte page of physical memory and addresses it as
  32-bit words, so a register file here is a sequence of 1024 words indexed by
  word offset. A word is written out as its 32 bits, least significant first:
  bit `i` of a word `w` is `w[i]`, which is what `(w >> i) & 1` reads in C.
  The masks the C++ code builds with shifts (`1 << b`, `7 << (k * 3)`, `~m`)
  are built here from their bits, and the three access patterns the code uses
  are pure transformers: `*(map + off) |= mask`, `*(map + off) &= mask` and
  `*(map + off) = value`. What the SoC does with a written word is not
  modelled; only the word values the code computes.
*/
module Registers {

  /** Bits in one register word (`uint32_t`). */
  const WordBits: nat := 32

  /** 32-bit words in one 4096-byte mapping. */
  const PageWords: nat := 1024

  /** A 32-bit word, bit `i` at index `i`. */
  type Word = w: seq<bool> | |w| == WordBits witness seq(32, _ => false)

  type RegFile = seq<Word>

  predicate IsPage(rf: RegFile) {
    |rf| == PageWords
  }

  /** The all-zero word. */
  function Zero(): (r: Word)
    ensures forall i :: 0 <= i < WordBits ==> !r[i]
  {
    seq(WordBits, _ => false)
  }

  /** `1 << b`: the word whose only set bit is `b`. */
  function Bit(b: nat): (r: Word)
    requires b < WordBits
    ensures r[b]
    ensures forall i :: 0 <= i < WordBits && i != b ==> !r[i]
  {
    seq(WordBits, i => i == b)
  }

  /** `((1 << n) - 1) << lo`: bits `lo` .. `lo + n - 1` set, the rest clear. */
  function Ones(lo: nat, n: nat): (r: Word)
    requires lo + n <= WordBits
    ensures forall i :: 0 <= i < WordBits ==> (r[i] <==> lo <= i < lo + n)
  {
    seq(WordBits, i => lo <= i < lo + n)
  }

  /** `~m`. */
  function Not(m: Word): (r: Word)
    ensures forall i :: 0 <= i < WordBits ==> (r[i] <==> !m[i])
  {
    seq(WordBits, i requires 0 <= i < WordBits => !m[i])
  }

  /** `a | b`. */
  function Or(a: Word, b: Word): (r: Word)
    ensures forall i :: 0 <= i < WordBits ==> (r[i] <==> a[i] || b[i])
  {
    seq(WordBits, i requires 0 <= i < WordBits => a[i] || b[i])
  }

  /** `a & b`. */
  function And(a: Word, b: Word): (r: Word)
    ensures forall i :: 0 <= i < WordBits ==> (r[i] <==> a[i] && b[i])
  {
    seq(WordBits, i requires 0 <= i < WordBits => a[i] && b[i])
  }

  /** Every word other than those at the offsets in `offs` is the same in both files. */
  predicate SameOutside(before: RegFile, after: RegFile, offs: set<nat>) {
    && |after| == |before|
    && forall k :: 0 <= k < |before| && k !in offs ==> after[k] == before[k]
  }

  /** `*(map + off) |= mask`: the bits of `mask` become 1, every other bit and word is kept. */
  function OrWord(rf: RegFile, off: nat, mask: Word): (r: RegFile)
    requires off < |rf|
    ensures SameOutside(rf, r, {off})
    ensures forall i :: 0 <= i < WordBits ==> r[off][i] == (mask[i] || rf[off][i])
  {
    rf[off := Or(rf[off], mask)]
  }

  /** `*(map + off) &= mask`: the bits outside `mask` become 0, the bits inside are kept. */
  function AndWord(rf: RegFile, off: nat, mask: Word): (r: RegFile)
    requires off < |rf|
    ensures SameOutside(rf, r, {off})
    ensures forall i :: 0 <= i < WordBits ==> r[off][i] == (mask[i] && rf[off][i])
  {
    rf[off := And(rf[off], mask)]
  }

  /** `*(map + off) = value`: a blind store that does not read the old word. */
  function WriteWord(rf: RegFile, off: nat, value: Word): (r: RegFile)
    requires off < |rf|
    ensures SameOutside(rf, r, {off})
    ensures r[off] == value
  {
    rf[off := value]
  }

  /** `*(map + off) |= 1 << b`: bit `b` of word `off` becomes 1 and nothing else changes. */
  function SetBit(rf: RegFile, off: nat, b: nat): (r: RegFile)
    requires off < |rf| && b < WordBits
    ensures Forced(rf, r, {(off, b)}, true)
  {
    OrWord(rf, off, Bit(b))
  }

  /** `*(map + off) &= ~(1 << b)`: bit `b` of word `off` becomes 0 and nothing else changes. */
  function ClearBit(rf: RegFile, off: nat, b: nat): (r: RegFile)
    requires off < |rf| && b < WordBits
    ensures Forced(rf, r, {(off, b)}, false)
  {
    AndWord(rf, off, Not(Bit(b)))
  }

  /**
    `after` is `before` with every bit named in `bits`, as a (word offset, bit)
    pair, forced to `v`, and every other bit of every word kept.
  */
  predicate Forced(before: RegFile, after: RegFile, bits: set<(nat, nat)>, v: bool) {
    && |after| == |before|
    && forall w, i :: 0 <= w < |before| && 0 <= i < WordBits ==>
         after[w][i] == if (w, i) in bits then v else before[w][i]
  }

  /** Forcing two sets of bits to the same value one after the other forces their union. */
  lemma ForcedUnion(a: RegFile, b: RegFile, c: RegFile, s: set<(nat, nat)>, t: set<(nat, nat)>, v: bool)
    requires Forced(a, b, s, v) && Forced(b, c, t, v)
    ensures Forced(a, c, s + t, v)
  {
  }

  /** Forcing the same bits twice: the second value wins. */
  lemma ForcedTwice(a: RegFile, b: RegFile, c: RegFile, bits: set<(nat, nat)>, v: bool, u: bool)
    requires Forced(a, b, bits, v) && Forced(b, c, bits, u)
    ensures Forced(a, c, bits, u)
  {
  }

  /** Two files that agree bit by bit are equal. */
  lemma FilesEqual(a: RegFile, b: RegFile)
    requires |a| == |b|
    requires forall w, i :: 0 <= w < |a| && 0 <= i < WordBits ==> a[w][i] == b[w][i]
    ensures a == b
  {
    forall w | 0 <= w < |a|
      ensures a[w] == b[w]
    {
      assert forall i :: 0 <= i < WordBits ==> a[w][i] == b[w][i];
    }
  }

  /** Forcing bits is deterministic: the result is fixed by the starting file, the bits and the value. */
  lemma ForcedUnique(a: RegFile, b: RegFile, c: RegFile, bits: set<(nat, nat)>, v: bool)
    requires Forced(a, b, bits, v) && Forced(a, c, bits, v)
    ensures b == c
  {
    forall w, i | 0 <= w < |a| && 0 <= i < WordBits
      ensures b[w][i] == c[w][i]
    {
      assert b[w][i] == if (w, i) in bits then v else a[w][i];
    }
    FilesEqual(b, c);
  }
}
