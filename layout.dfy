/** Where the scheduler puts the thread stacks, and the initial `thread_stack` frame it
    writes for a thread that has not run yet (`fill_thread_stack_memory`). */
module Layout {
  import opened Words
  import opened Frames

  const MIDDLE_SRAM_ADDRESS: Word := 0x1000_8000
  /** Stack bytes reserved for each thread (2 KiB). */
  const THREAD_MEM_SIZE: Word := 0x800
  /** Stack base of the first thread: the 2 KiB at the top of the local SRAM stay for MSP. */
  const FIRST_THREAD_STACK_POINTER: Word := MIDDLE_SRAM_ADDRESS - THREAD_MEM_SIZE
  /** xPSR of a fresh thread: only the Thumb execution bit (bit 24) set. */
  const DEFAULT_PSR: Word := 0x0100_0000
  /** Capacity of the thread table. */
  const MAX_NO_THREADS: nat := 2
  /** Saved stack pointer value that marks a free slot of the thread table. */
  const EMPTY_THREAD: Word := 0

  /** `sizeof(thread_stack)`: the packed 16-word frame, software half then hardware half. */
  const THREAD_STACK_WORDS: nat := 16
  const THREAD_STACK_BYTES: nat := 64

  /** Word offsets of the `thread_stack` fields: r4..r11 are words 0..7, then come the
      hardware-stacked r0, r1, r2, r3, r12, LR, PC and xPSR. */
  const R0_WORD: nat := 8
  const LR_WORD: nat := 13
  const PC_WORD: nat := 14
  const XPSR_WORD: nat := 15

  /** Top of the stack of the thread created when `count` threads exist (32-bit arithmetic,
      as `FRIST_THREAD_STACK_POINTER - (max_threads * THREAD_MEM_SIZE)`). */
  function StackBase(count: Word): Word
  {
    Wrap(FIRST_THREAD_STACK_POINTER - count * THREAD_MEM_SIZE)
  }

  /** Saved stack pointer of a fresh thread: the start of its frame, 64 bytes below its base. */
  function InitialSp(count: Word): Word
  {
    Wrap(StackBase(count) - THREAD_STACK_BYTES)
  }

  /** Address `x` lies in the 2 KiB stack region of the thread in slot `slot`. */
  predicate InRegion(slot: Word, x: int)
  {
    StackBase(slot) - THREAD_MEM_SIZE <= x < StackBase(slot)
  }

  /** Every slot's region lies inside SRAM below the main stack, its initial frame lies at
      the top of it, and the saved pointer it starts with is never taken for a free slot. */
  lemma InitialFrameInRegion(slot: Word)
    requires slot < MAX_NO_THREADS
    ensures StackBase(slot) == FIRST_THREAD_STACK_POINTER - slot * THREAD_MEM_SIZE
    ensures InitialSp(slot) + THREAD_STACK_BYTES == StackBase(slot)
    ensures InRegion(slot, InitialSp(slot))
    ensures InitialSp(slot) != EMPTY_THREAD
  {
  }

  /** The saved pointer a fresh thread starts with is never taken for a free slot. */
  lemma InitialSpNotEmpty(slot: Word)
    requires slot < MAX_NO_THREADS
    ensures InitialSp(slot) != EMPTY_THREAD
  {
    InitialFrameInRegion(slot);
  }

  /** The stack regions of two different slots do not overlap. */
  lemma RegionsDisjoint(i: Word, j: Word, x: int)
    requires i < MAX_NO_THREADS && j < MAX_NO_THREADS
    requires InRegion(i, x) && InRegion(j, x)
    ensures i == j
  {
  }

  /** What `fill_thread_stack_memory` writes through the `thread_stack` overlay at `sp`:
      PC, then LR, then xPSR, then r0. */
  function BuildFrame(m: Memory, sp: Word, entry: Word, arg: Word, exitHandler: Word): Memory
  {
    m[WordAddr(sp, PC_WORD) := entry]
     [WordAddr(sp, LR_WORD) := exitHandler]
     [WordAddr(sp, XPSR_WORD) := DEFAULT_PSR]
     [WordAddr(sp, R0_WORD) := arg]
  }

  /** Building a frame touches only the 16 words of the frame. */
  lemma BuildFrameElsewhere(m: Memory, sp: Word, entry: Word, arg: Word, exitHandler: Word, x: Word)
    requires forall k :: 0 <= k < THREAD_STACK_WORDS ==> x != WordAddr(sp, k)
    ensures Read(BuildFrame(m, sp, entry, arg, exitHandler), x) == Read(m, x)
  {
    assert x != WordAddr(sp, PC_WORD) && x != WordAddr(sp, LR_WORD);
    assert x != WordAddr(sp, XPSR_WORD) && x != WordAddr(sp, R0_WORD);
  }

  /** The frame agrees with the switch: a fresh thread switched in by PendSV_Handler's
      restore and then by exception return starts at `entry` with `arg` in r0, returns to
      the exit handler, runs in Thumb state, and has its PSP at the frame's top. Its r4..r11
      are whatever the frame's first eight words held. */
  lemma {:induction false} FreshThreadStart(m: Memory, sp: Word, entry: Word, arg: Word, exitHandler: Word)
    ensures var m' := BuildFrame(m, sp, entry, arg, exitHandler);
      var (regs, hwSp) := RestoreRegisters(m', sp);
      var (f, psp) := Unstack(m', hwSp);
      && regs == LoadWords(m, sp, FRAME_WORDS)
      && f.r0 == arg && f.lr == exitHandler && f.pc == entry && f.xpsr == DEFAULT_PSR
      && psp == Wrap(sp + THREAD_STACK_BYTES)
  {
    var m' := BuildFrame(m, sp, entry, arg, exitHandler);
    var (regs, hwSp) := RestoreRegisters(m', sp);
    forall k | 0 <= k < FRAME_WORDS ensures Read(m', WordAddr(sp, k)) == Read(m, WordAddr(sp, k)) {
      forall j | FRAME_WORDS <= j < THREAD_STACK_WORDS ensures WordAddr(sp, k) != WordAddr(sp, j) {
        WordAddrInjective(sp, k, j);
      }
      assert WordAddr(sp, k) != WordAddr(sp, PC_WORD) && WordAddr(sp, k) != WordAddr(sp, LR_WORD);
      assert WordAddr(sp, k) != WordAddr(sp, XPSR_WORD) && WordAddr(sp, k) != WordAddr(sp, R0_WORD);
    }
    assert hwSp == WordAddr(sp, FRAME_WORDS);
    var ws := LoadWords(m', hwSp, FRAME_WORDS);
    WordAddrShift(sp, FRAME_WORDS, 0);
    WordAddrShift(sp, FRAME_WORDS, LR_WORD - FRAME_WORDS);
    WordAddrShift(sp, FRAME_WORDS, PC_WORD - FRAME_WORDS);
    WordAddrShift(sp, FRAME_WORDS, XPSR_WORD - FRAME_WORDS);
    WordAddrInjective(sp, R0_WORD, LR_WORD);
    WordAddrInjective(sp, R0_WORD, PC_WORD);
    WordAddrInjective(sp, R0_WORD, XPSR_WORD);
    WordAddrInjective(sp, LR_WORD, PC_WORD);
    WordAddrInjective(sp, LR_WORD, XPSR_WORD);
    WordAddrInjective(sp, PC_WORD, XPSR_WORD);
    assert ws[0] == arg && ws[5] == exitHandler && ws[6] == entry && ws[7] == DEFAULT_PSR;
  }
}
