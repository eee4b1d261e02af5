/** 32-bit words and the word-addressed SRAM of the LPC17xx, as the context switch
    sees them through its `stmdb`/`ldmia` block transfers. */
module Words {

  const WORD_MODULUS: int := 0x1_0000_0000

  /** An unsigned 32-bit value: a register, a stack pointer or a memory word. */
  type Word = x: int | 0 <= x < 0x1_0000_0000

  /** Number of words a block transfer may move without its addresses wrapping onto
      themselves (the whole 4 GiB address space holds 2^30 words). */
  const MAX_BLOCK: int := 0x4000_0000

  /** Truncation of an unsigned 32-bit sum or difference, as the processor's adder does it. */
  function Wrap(x: int): (w: Word)
    ensures 0 <= x < WORD_MODULUS ==> w == x
    ensures WORD_MODULUS <= x < 2 * WORD_MODULUS ==> w == x - WORD_MODULUS
    ensures -WORD_MODULUS <= x < 0 ==> w == x + WORD_MODULUS
  {
    x % WORD_MODULUS
  }

  /** Memory: the word stored at each (byte) address that has been written. */
  type Memory = map<Word, Word>

  /** The word at address `a`; SRAM that was never written reads as 0 in this model. */
  function Read(m: Memory, a: Word): Word
  {
    if a in m then m[a] else 0
  }

  /** Address of the `k`-th word of a block that starts at `base`. */
  function WordAddr(base: Word, k: int): Word
  {
    Wrap(base + 4 * k)
  }

  /** Distinct words of one block sit at distinct addresses, even when the block wraps. */
  lemma WordAddrInjective(base: Word, i: int, j: int)
    requires 0 <= i < j < MAX_BLOCK
    ensures WordAddr(base, i) != WordAddr(base, j)
  {
  }

  /** A block of words that does not wrap lies at `base`, `base + 4`, ... */
  lemma WordAddrNoWrap(base: Word, k: int)
    requires 0 <= k && base + 4 * k < WORD_MODULUS
    ensures WordAddr(base, k) == base + 4 * k
  {
  }

  /** Word `j` of the block that starts at word `i` of `base` is word `i + j` of `base`. */
  lemma WordAddrShift(base: Word, i: int, j: int)
    requires 0 <= i < MAX_BLOCK && 0 <= j < MAX_BLOCK
    ensures WordAddr(WordAddr(base, i), j) == WordAddr(base, i + j)
  {
  }

  /** `STMxx` over the register list `vs`: `vs[k]` goes to the `k`-th word from `base`
      (the lowest-numbered register to the lowest address). */
  function StoreWords(m: Memory, base: Word, vs: seq<Word>): Memory
    decreases |vs|
  {
    if vs == [] then m
    else StoreWords(m, base, vs[..|vs| - 1])[WordAddr(base, |vs| - 1) := vs[|vs| - 1]]
  }

  /** `LDMxx` of `n` registers: the `k`-th register gets the `k`-th word from `base`. */
  function LoadWords(m: Memory, base: Word, n: nat): (vs: seq<Word>)
    ensures |vs| == n
    ensures forall k :: 0 <= k < n ==> vs[k] == Read(m, WordAddr(base, k))
  {
    seq(n, k requires 0 <= k < n => Read(m, WordAddr(base, k)))
  }

  /** After a block store, each word of the block holds its register. */
  lemma {:induction false} StoreWordsAt(m: Memory, base: Word, vs: seq<Word>, k: int)
    requires 0 <= k < |vs| <= MAX_BLOCK
    ensures Read(StoreWords(m, base, vs), WordAddr(base, k)) == vs[k]
  {
    var last := |vs| - 1;
    if k < last {
      WordAddrInjective(base, k, last);
      StoreWordsAt(m, base, vs[..last], k);
    }
  }

  /** A block store changes no address outside the block. */
  lemma {:induction false} StoreWordsElsewhere(m: Memory, base: Word, vs: seq<Word>, x: Word)
    requires forall k :: 0 <= k < |vs| ==> x != WordAddr(base, k)
    ensures Read(StoreWords(m, base, vs), x) == Read(m, x)
  {
    if vs != [] {
      StoreWordsElsewhere(m, base, vs[..|vs| - 1], x);
    }
  }

  /** The same, for a block that does not wrap: addresses below `base` or at or above
      `base + 4 * |vs|` are untouched. */
  lemma StoreWordsOutside(m: Memory, base: Word, vs: seq<Word>, x: Word)
    requires base + 4 * |vs| <= WORD_MODULUS
    requires x < base || base + 4 * |vs| <= x
    ensures Read(StoreWords(m, base, vs), x) == Read(m, x)
  {
    forall k | 0 <= k < |vs| ensures x != WordAddr(base, k) {
      WordAddrNoWrap(base, k);
    }
    StoreWordsElsewhere(m, base, vs, x);
  }

  /** Loading back the block just stored gives the stored registers in order. */
  lemma LoadAfterStore(m: Memory, base: Word, vs: seq<Word>)
    requires |vs| <= MAX_BLOCK
    ensures LoadWords(StoreWords(m, base, vs), base, |vs|) == vs
  {
    forall k | 0 <= k < |vs| ensures LoadWords(StoreWords(m, base, vs), base, |vs|)[k] == vs[k] {
      StoreWordsAt(m, base, vs, k);
    }
  }

  /** Two memories that agree on the words of a block load the same registers from it. */
  lemma LoadWordsAgree(m: Memory, m': Memory, base: Word, n: nat)
    requires forall k :: 0 <= k < n ==> Read(m, WordAddr(base, k)) == Read(m', WordAddr(base, k))
    ensures LoadWords(m, base, n) == LoadWords(m', base, n)
  {
  }
}
