/** The two halves of a suspended thread's context on its own stack: the eight words
    the Cortex-M3 itself pushes on exception entry and pops on exception return
    (section B1.5.6 and B1.5.8 of the ARMv7-M Architecture Reference Manual), and the
    eight callee-saved registers r4-r11 that PendSV_Handler pushes and pops. */
module Frames {
  import opened Words

  /** Size of each half, in words and in bytes. */
  const FRAME_WORDS: nat := 8
  const FRAME_BYTES: nat := 32

  /** EXC_RETURN value that returns to Thread mode and takes the stack from PSP. */
  const EXC_RETURN_THREAD_PSP: Word := 0xFFFF_FFFD

  /** The hardware-stacked registers, in the order they sit in memory from the lowest
      address up. */
  datatype ExceptionFrame = ExceptionFrame(
    r0: Word, r1: Word, r2: Word, r3: Word, r12: Word, lr: Word, pc: Word, xpsr: Word)

  function FrameWords(f: ExceptionFrame): (ws: seq<Word>)
    ensures |ws| == FRAME_WORDS
  {
    [f.r0, f.r1, f.r2, f.r3, f.r12, f.lr, f.pc, f.xpsr]
  }

  /** Exception entry: the processor pushes the frame below PSP and lowers PSP by 32. */
  function Stacking(m: Memory, psp: Word, f: ExceptionFrame): (Memory, Word)
  {
    var sp := Wrap(psp - FRAME_BYTES);
    (StoreWords(m, sp, FrameWords(f)), sp)
  }

  /** Exception return to Thread mode on PSP: the processor reads eight words at PSP
      into r0, r1, r2, r3, r12, LR, PC, xPSR and raises PSP by 32. */
  function Unstack(m: Memory, psp: Word): (r: (ExceptionFrame, Word))
    ensures FrameWords(r.0) == LoadWords(m, psp, FRAME_WORDS)
  {
    var ws := LoadWords(m, psp, FRAME_WORDS);
    (ExceptionFrame(ws[0], ws[1], ws[2], ws[3], ws[4], ws[5], ws[6], ws[7]), Wrap(psp + FRAME_BYTES))
  }

  /** Exception return undoes exception entry: the interrupted thread gets back all eight
      hardware-stacked registers and its PSP. */
  lemma UnstackAfterStacking(m: Memory, psp: Word, f: ExceptionFrame)
    ensures var (m', sp) := Stacking(m, psp, f); Unstack(m', sp) == (f, psp)
  {
    var (m', sp) := Stacking(m, psp, f);
    LoadAfterStore(m, sp, FrameWords(f));
  }

  /** The software half of a switch-out (`mrs r0, psp; stmdb r0!, {r4-r11}`): r4..r11 go
      to the eight words below PSP, r4 lowest; the result is the memory and the new
      stack pointer that PendSV_Handler stores into the outgoing slot. */
  function SaveRegisters(m: Memory, psp: Word, regs: seq<Word>): (Memory, Word)
  {
    var sp := Wrap(psp - FRAME_BYTES);
    (StoreWords(m, sp, regs), sp)
  }

  /** The software half of a switch-in (`ldmia r0!, {r4-r11}; msr psp, r0`): r4..r11 come
      from the eight words at the saved stack pointer and PSP becomes that pointer + 32. */
  function RestoreRegisters(m: Memory, sp: Word): (r: (seq<Word>, Word))
    ensures |r.0| == FRAME_WORDS
  {
    (LoadWords(m, sp, FRAME_WORDS), Wrap(sp + FRAME_BYTES))
  }

  /** Push and pop agree on the register order: restoring from the pointer a save
      produced gives back r4..r11 and the PSP the thread had. */
  lemma RestoreAfterSave(m: Memory, psp: Word, regs: seq<Word>)
    requires |regs| == FRAME_WORDS
    ensures var (m', sp) := SaveRegisters(m, psp, regs); RestoreRegisters(m', sp) == (regs, psp)
  {
    var (m', sp) := SaveRegisters(m, psp, regs);
    LoadAfterStore(m, sp, regs);
  }

  /** Everything about a thread that is not in memory: its PSP while it runs, its
      callee-saved registers r4..r11 and the registers the hardware stacks. */
  datatype ThreadContext = ThreadContext(psp: Word, saved: seq<Word>, stacked: ExceptionFrame)

  /** A thread being switched out: exception entry, then PendSV's save. Returns the memory
      and the stack pointer PendSV stores in the thread's slot. */
  function Suspend(m: Memory, c: ThreadContext): (Memory, Word)
  {
    var (m1, sp1) := Stacking(m, c.psp, c.stacked);
    SaveRegisters(m1, sp1, c.saved)
  }

  /** A thread being switched in from its saved stack pointer: PendSV's restore, then
      exception return. */
  function Resume(m: Memory, sp: Word): ThreadContext
  {
    var (regs, sp1) := RestoreRegisters(m, sp);
    var (f, psp) := Unstack(m, sp1);
    ThreadContext(psp, regs, f)
  }

  /** Context round trip: a thread switched out and later switched back in gets back its
      PSP, r4..r11 and the hardware-stacked registers exactly, whatever else happened to
      memory meanwhile, as long as the 16 words of its saved context were left alone. */
  lemma {:induction false} ResumeAfterSuspend(m: Memory, c: ThreadContext, later: Memory)
    requires |c.saved| == FRAME_WORDS
    requires var (m', sp) := Suspend(m, c);
      forall k :: 0 <= k < 2 * FRAME_WORDS ==> Read(later, WordAddr(sp, k)) == Read(m', WordAddr(sp, k))
    ensures var (_, sp) := Suspend(m, c); Resume(later, sp) == c
  {
    var (m1, sp1) := Stacking(m, c.psp, c.stacked);
    var (m2, sp2) := SaveRegisters(m1, sp1, c.saved);
    assert (m2, sp2) == Suspend(m, c);
    // the software half is intact in `later`
    LoadWordsAgree(later, m2, sp2, FRAME_WORDS);
    RestoreAfterSave(m1, sp1, c.saved);
    assert Wrap(sp2 + FRAME_BYTES) == sp1;
    // the hardware half is intact in `later`, and the software save did not touch it
    forall k | 0 <= k < FRAME_WORDS
      ensures Read(later, WordAddr(sp1, k)) == Read(m1, WordAddr(sp1, k))
    {
      var x := WordAddr(sp1, k);
      assert x == WordAddr(sp2, k + FRAME_WORDS);
      assert Read(later, x) == Read(m2, x);
      forall j | 0 <= j < FRAME_WORDS ensures x != WordAddr(sp2, j) {
        WordAddrInjective(sp2, j, k + FRAME_WORDS);
      }
      StoreWordsElsewhere(m1, sp2, c.saved, x);
    }
    LoadWordsAgree(later, m1, sp1, FRAME_WORDS);
    UnstackAfterStacking(m, c.psp, c.stacked);
  }
}
