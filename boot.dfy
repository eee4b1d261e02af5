/** `main`'s scheduling part: two `new_thread` calls (`thread1` with 10, `thread2` with 3),
    the `svc 0` that starts the first thread, and then ticks. Each thread's stack lives in
    its own 2 KiB region; the memory reasoning is about which region each step touches. */
module Boot {
  import opened Words
  import opened Frames
  import opened Layout
  import opened RoundRobin
  import opened Kernel

  /** Memory `m'` holds what `m` holds everywhere in the stack region of slot `slot`. */
  ghost predicate Keeps(m: Memory, m': Memory, slot: Word)
  {
    forall x: Word :: InRegion(slot, x) ==> Read(m', x) == Read(m, x)
  }

  /** A thread context whose PSP leaves room, inside the stack region of `slot`, for the
      16 words a switch-out pushes below it. */
  predicate ContextIn(c: ThreadContext, slot: Word)
  {
    StackBase(slot) - THREAD_MEM_SIZE + THREAD_STACK_BYTES <= c.psp <= StackBase(slot)
  }

  lemma KeepsTrans(m1: Memory, m2: Memory, m3: Memory, slot: Word)
    requires Keeps(m1, m2, slot) && Keeps(m2, m3, slot)
    ensures Keeps(m1, m3, slot)
  {
  }

  /** The bases of the two stack regions, as numbers. */
  lemma StackBases()
    ensures StackBase(0) == 0x1000_7800 && StackBase(1) == 0x1000_7000
    ensures InitialSp(0) == 0x1000_77C0 && InitialSp(1) == 0x1000_6FC0
  {
    InitialFrameInRegion(0);
    InitialFrameInRegion(1);
  }

  /** A switch-out of a thread whose stack is in one region leaves the other region alone. */
  lemma SuspendKeeps(m: Memory, c: ThreadContext, here: Word, other: Word)
    requires here < MAX_NO_THREADS && other < MAX_NO_THREADS && here != other
    requires ContextIn(c, here) && |c.saved| == FRAME_WORDS
    ensures Keeps(m, Suspend(m, c).0, other)
  {
    StackBases();
    var (m1, sp1) := Stacking(m, c.psp, c.stacked);
    var (m2, sp2) := SaveRegisters(m1, sp1, c.saved);
    assert sp1 == c.psp - FRAME_BYTES && sp2 == c.psp - 2 * FRAME_BYTES;
    forall x: Word | InRegion(other, x) ensures Read(m2, x) == Read(m, x) {
      StoreWordsOutside(m, sp1, FrameWords(c.stacked), x);
      StoreWordsOutside(m1, sp2, c.saved, x);
    }
  }

  /** A thread's own stores, all inside its region, leave the other region alone. */
  lemma WritesKeep(m: Memory, w: Memory, here: Word, other: Word)
    requires here < MAX_NO_THREADS && other < MAX_NO_THREADS && here != other
    requires forall x :: x in w ==> InRegion(here, x)
    ensures Keeps(m, m + w, other)
  {
    forall x: Word | InRegion(other, x) ensures Read(m + w, x) == Read(m, x) {
      StackBases();
    }
  }

  /** The very first save, below the boot PSP, leaves both thread regions alone when that
      PSP lies above them. */
  lemma BootSaveKeeps(m: Memory, psp: Word, regs: seq<Word>, slot: Word)
    requires slot < MAX_NO_THREADS && FIRST_THREAD_STACK_POINTER + FRAME_BYTES <= psp
    requires |regs| == FRAME_WORDS
    ensures Keeps(m, SaveRegisters(m, psp, regs).0, slot)
  {
    StackBases();
    var sp := Wrap(psp - FRAME_BYTES);
    forall x: Word | InRegion(slot, x) ensures Read(StoreWords(m, sp, regs), x) == Read(m, x) {
      StoreWordsOutside(m, sp, regs, x);
    }
  }

  /** Building one slot's initial frame leaves the other slot's region alone. */
  lemma BuildFrameKeeps(m: Memory, slot: Word, other: Word, entry: Word, arg: Word, exitHandler: Word)
    requires slot < MAX_NO_THREADS && other < MAX_NO_THREADS && slot != other
    ensures Keeps(m, BuildFrame(m, InitialSp(slot), entry, arg, exitHandler), other)
  {
    StackBases();
  }

  /** A context saved inside a region is read back the same from any memory that kept
      the region. */
  lemma ResumeKept(m: Memory, m': Memory, sp: Word, slot: Word)
    requires slot < MAX_NO_THREADS && Keeps(m, m', slot)
    requires StackBase(slot) - THREAD_MEM_SIZE <= sp && sp + THREAD_STACK_BYTES <= StackBase(slot)
    ensures Resume(m', sp) == Resume(m, sp)
  {
    StackBases();
    forall k | 0 <= k < FRAME_WORDS ensures Read(m', WordAddr(sp, k)) == Read(m, WordAddr(sp, k)) {
      assert InRegion(slot, WordAddr(sp, k));
    }
    LoadWordsAgree(m', m, sp, FRAME_WORDS);
    var hw := Wrap(sp + FRAME_BYTES);
    forall k | 0 <= k < FRAME_WORDS ensures Read(m', WordAddr(hw, k)) == Read(m, WordAddr(hw, k)) {
      assert InRegion(slot, WordAddr(hw, k));
    }
    LoadWordsAgree(m', m, hw, FRAME_WORDS);
  }

  /** The frame `new_thread` builds for slot `slot` starts the thread at `entry` with `arg`
      in r0, `del_thread` in LR, the Thumb bit in xPSR and PSP at the slot's stack base. */
  predicate FreshStart(c: ThreadContext, slot: Word, entry: Word, arg: Word, exitHandler: Word)
  {
    && c.stacked.pc == entry && c.stacked.r0 == arg && c.stacked.lr == exitHandler
    && c.stacked.xpsr == DEFAULT_PSR && c.psp == StackBase(slot)
  }

  lemma FreshResume(m: Memory, slot: Word, entry: Word, arg: Word, exitHandler: Word)
    requires slot < MAX_NO_THREADS
    ensures FreshStart(Resume(BuildFrame(m, InitialSp(slot), entry, arg, exitHandler), InitialSp(slot)),
                       slot, entry, arg, exitHandler)
  {
    StackBases();
    FreshThreadStart(m, InitialSp(slot), entry, arg, exitHandler);
  }

  /** Building slot 1's frame gives a fresh start of its thread and leaves what slot 0's
      saved pointer leads to as it was. */
  lemma SecondFrame(m: Memory, m': Memory, entry: Word, exitHandler: Word)
    requires m' == BuildFrame(m, InitialSp(1), entry, 3, exitHandler)
    ensures FreshStart(Resume(m', InitialSp(1)), 1, entry, 3, exitHandler)
    ensures Resume(m', InitialSp(0)) == Resume(m, InitialSp(0))
  {
    FreshResume(m, 1, entry, 3, exitHandler);
    BuildFrameKeeps(m, 1, 0, entry, 3, exitHandler);
    ResumeKept(m, m', InitialSp(0), 0);
  }

  /** `main`'s `new_thread(thread1, 10)` on a fresh system: slot 0 is taken and its saved
      pointer leads to a fresh start of `thread1`. */
  method CreateFirst(sys: System, thread1: Word)
    requires sys.Valid() && sys.maxThreads == 0 && sys.barn[..] == [EMPTY_THREAD, EMPTY_THREAD]
    requires thread1 != NULL
    modifies sys`mem, sys`maxThreads, sys`tickIntEnabled, sys.barn
    ensures sys.Valid() && sys.maxThreads == 1 && sys.barn[..] == [InitialSp(0), EMPTY_THREAD]
    ensures FreshStart(Resume(sys.mem, InitialSp(0)), 0, thread1, 10, sys.delThread)
  {
    sys.NewThread(thread1, 10);
    FreshResume(old(sys.mem), 0, thread1, 10, sys.delThread);
  }

  /** `main`'s `new_thread(thread2, 3)`: slot 1 is taken and its saved pointer leads to a
      fresh start of `thread2`; slot 0's fresh frame, in the other region, is undisturbed. */
  method CreateSecond(sys: System, thread1: Word, thread2: Word)
    requires sys.Valid() && sys.maxThreads == 1 && sys.barn[..] == [InitialSp(0), EMPTY_THREAD]
    requires FreshStart(Resume(sys.mem, InitialSp(0)), 0, thread1, 10, sys.delThread)
    requires thread2 != NULL
    modifies sys`mem, sys`maxThreads, sys`tickIntEnabled, sys.barn
    ensures sys.Valid() && sys.maxThreads == 2 && sys.barn[..] == [InitialSp(0), InitialSp(1)]
    ensures FreshStart(Resume(sys.mem, InitialSp(0)), 0, thread1, 10, sys.delThread)
    ensures FreshStart(Resume(sys.mem, InitialSp(1)), 1, thread2, 3, sys.delThread)
  {
    sys.NewThread(thread2, 3);
    SecondFrame(old(sys.mem), sys.mem, thread2, sys.delThread);
  }

  /** `main`'s two `new_thread` calls on a fresh system: both slots are taken, in order,
      and each slot's saved pointer leads to a fresh start of its thread. */
  method CreateThreads(delThread: Word, bootPsp: Word, bootRegs: seq<Word>, ram: Memory, thread1: Word, thread2: Word)
    returns (sys: System)
    requires |bootRegs| == FRAME_WORDS
    requires thread1 != NULL && thread2 != NULL
    ensures fresh(sys) && fresh(sys.barn) && sys.Valid() && sys.delThread == delThread
    ensures sys.maxThreads == 2 && sys.threadIdx == 0 && !sys.skipFirst && sys.previousSp == MainFuncSp
    ensures sys.barn[..] == [InitialSp(0), InitialSp(1)]
    ensures FreshStart(Resume(sys.mem, InitialSp(0)), 0, thread1, 10, delThread)
    ensures FreshStart(Resume(sys.mem, InitialSp(1)), 1, thread2, 3, delThread)
    ensures sys.psp == bootPsp && sys.regs == bootRegs
  {
    sys := new System(delThread, bootPsp, bootRegs, ram);
    CreateFirst(sys, thread1);
    CreateSecond(sys, thread1, thread2);
  }

  /** The PendSV that `main`'s `svc 0` pends: the boot r4..r11 go below the boot PSP,
      which lies above both thread regions, into the dummy `main_func_sp`, and the
      registers are loaded from slot 0; both fresh frames survive the save. */
  method FirstSwitch(sys: System, thread1: Word, thread2: Word)
    requires sys.Valid() && sys.maxThreads == 2 && sys.threadIdx == 0 && sys.pendSvPending
    requires sys.previousSp == MainFuncSp && sys.nextSp == BarnSlot(0)
    requires sys.barn[..] == [InitialSp(0), InitialSp(1)]
    requires FIRST_THREAD_STACK_POINTER + FRAME_BYTES <= sys.psp
    requires FreshStart(Resume(sys.mem, InitialSp(0)), 0, thread1, 10, sys.delThread)
    requires FreshStart(Resume(sys.mem, InitialSp(1)), 1, thread2, 3, sys.delThread)
    modifies sys`mem, sys`psp, sys`regs, sys`mainFuncSp, sys`pendSvPending, sys.barn
    ensures sys.Valid() && sys.barn[..] == [InitialSp(0), InitialSp(1)]
    ensures (sys.regs, sys.psp) == RestoreRegisters(sys.mem, InitialSp(0))
    ensures FreshStart(Resume(sys.mem, InitialSp(0)), 0, thread1, 10, sys.delThread)
    ensures FreshStart(Resume(sys.mem, InitialSp(1)), 1, thread2, 3, sys.delThread)
  {
    var excReturn := sys.PendSvHandler();
    ghost var saved := SaveRegisters(old(sys.mem), old(sys.psp), old(sys.regs)).0;
    assert sys.mem == saved;
    assert Resume(saved, InitialSp(0)) == Resume(old(sys.mem), InitialSp(0)) by {
      BootSaveKeeps(old(sys.mem), old(sys.psp), old(sys.regs), 0);
      ResumeKept(old(sys.mem), saved, InitialSp(0), 0);
    }
    assert Resume(saved, InitialSp(1)) == Resume(old(sys.mem), InitialSp(1)) by {
      BootSaveKeeps(old(sys.mem), old(sys.psp), old(sys.regs), 1);
      ResumeKept(old(sys.mem), saved, InitialSp(1), 1);
    }
  }

  /** `main` up to the first thread running: the two `new_thread` calls, the first switch,
      and the exception return that starts `thread1` from its fresh frame. `thread2`'s
      fresh frame waits in slot 1. */
  method Start(delThread: Word, bootPsp: Word, bootRegs: seq<Word>, ram: Memory, thread1: Word, thread2: Word)
    returns (sys: System, first: ThreadContext)
    requires |bootRegs| == FRAME_WORDS && FIRST_THREAD_STACK_POINTER + FRAME_BYTES <= bootPsp
    requires thread1 != NULL && thread2 != NULL
    ensures fresh(sys) && fresh(sys.barn) && sys.Valid()
    ensures sys.maxThreads == 2 && sys.threadIdx == 0
    ensures sys.barn[1] == InitialSp(1)
    ensures FreshStart(Resume(sys.mem, InitialSp(1)), 1, thread2, 3, delThread)
    ensures first == ThreadContext(sys.psp, sys.regs, first.stacked)
    ensures FreshStart(first, 0, thread1, 10, delThread)
  {
    sys := CreateThreads(delThread, bootPsp, bootRegs, ram, thread1, thread2);
    sys.SvcHandler();
    FirstSwitch(sys, thread1, thread2);
    var f := sys.ExceptionReturn();
    first := ThreadContext(sys.psp, sys.regs, f);
    assert first == Resume(sys.mem, InitialSp(0));
  }

  /** A thread that runs inside its own region and is then switched out leaves the other
      region as it was. */
  lemma PreemptionKeeps(m: Memory, writes: Memory, run: ThreadContext, here: Word, other: Word)
    requires here < MAX_NO_THREADS && other < MAX_NO_THREADS && here != other
    requires |run.saved| == FRAME_WORDS && ContextIn(run, here) && (forall x :: x in writes ==> InRegion(here, x))
    ensures Keeps(m, Suspend(m + writes, run).0, other)
  {
    WritesKeep(m, writes, here, other);
    SuspendKeeps(m + writes, run, here, other);
    KeepsTrans(m, m + writes, Suspend(m + writes, run).0, other);
  }

  /** A tick while the thread in slot `here` runs, and the PendSV it pends: r4..r11 go
      below PSP and the slot keeps the new SP; the other slot's thread is loaded. */
  method TickSwitch(sys: System, here: Word)
    requires sys.Valid() && sys.maxThreads == 2 && sys.threadIdx == here && here < MAX_NO_THREADS
    requires Wrap(sys.psp - FRAME_BYTES) != EMPTY_THREAD
    modifies sys`mem, sys`psp, sys`regs, sys`previousSp, sys`threadIdx, sys`nextSp, sys`pendSvPending
    modifies sys`mainFuncSp, sys.barn
    ensures sys.Valid() && sys.maxThreads == 2 && sys.threadIdx == 1 - here
    ensures (sys.mem, sys.barn[here]) == SaveRegisters(old(sys.mem), old(sys.psp), old(sys.regs))
    ensures sys.barn[1 - here] == old(sys.barn[1 - here])
    ensures (sys.regs, sys.psp) == RestoreRegisters(sys.mem, sys.barn[1 - here])
  {
    sys.SysTickHandler();
    var excReturn := sys.PendSvHandler();
  }

  /** The thread in slot `here` runs, storing `writes` inside its region and leaving its
      registers as `run`; then a tick switches it out and the other thread in. Its
      context is saved in its own region and its slot holds the saved SP; the other
      region is untouched; the incoming thread gets what its slot's SP points at. */
  method RunUntilTick(sys: System, run: ThreadContext, writes: Memory, here: Word) returns (next: ThreadContext)
    requires sys.Valid() && sys.maxThreads == 2 && sys.threadIdx == here && here < MAX_NO_THREADS
    requires |run.saved| == FRAME_WORDS && ContextIn(run, here) && (forall x :: x in writes ==> InRegion(here, x))
    modifies sys`mem, sys`psp, sys`regs, sys`previousSp, sys`threadIdx, sys`nextSp, sys`pendSvPending
    modifies sys`mainFuncSp, sys.barn
    ensures sys.Valid() && sys.maxThreads == 2 && sys.threadIdx == 1 - here
    ensures (sys.mem, sys.barn[here]) == Suspend(old(sys.mem) + writes, run)
    ensures sys.barn[1 - here] == old(sys.barn[1 - here])
    ensures Keeps(old(sys.mem), sys.mem, 1 - here)
    ensures next == Resume(sys.mem, sys.barn[1 - here])
    ensures next == ThreadContext(sys.psp, sys.regs, next.stacked)
  {
    ghost var m0 := sys.mem + writes;
    sys.ThreadPreempted(run, writes);
    assert Wrap(sys.psp - FRAME_BYTES) != EMPTY_THREAD by {
      StackBases();
    }
    TickSwitch(sys, here);
    var f := sys.ExceptionReturn();
    next := ThreadContext(sys.psp, sys.regs, f);
    PreemptionKeeps(old(sys.mem), writes, run, here, 1 - here);
  }

  /** `main` from its first `new_thread` call on, followed by two ticks. The boot PSP lies
      above the thread stacks; each thread's own stores and its PSP stay inside its stack
      region. Then the first switch starts `thread1` from its fresh frame, the first tick
      starts `thread2` from its fresh frame, and the second tick resumes `thread1` exactly
      where it was preempted: same r4..r11, same PSP, same hardware-stacked registers. */
  method BootAndTwoTicks(delThread: Word, bootPsp: Word, bootRegs: seq<Word>, ram: Memory,
                         thread1: Word, thread2: Word,
                         run1: ThreadContext, writes1: Memory, run2: ThreadContext, writes2: Memory)
    returns (first: ThreadContext, second: ThreadContext, third: ThreadContext)
    requires |bootRegs| == FRAME_WORDS && FIRST_THREAD_STACK_POINTER + FRAME_BYTES <= bootPsp
    requires thread1 != NULL && thread2 != NULL
    requires |run1.saved| == FRAME_WORDS && ContextIn(run1, 0) && (forall x :: x in writes1 ==> InRegion(0, x))
    requires |run2.saved| == FRAME_WORDS && ContextIn(run2, 1) && (forall x :: x in writes2 ==> InRegion(1, x))
    ensures FreshStart(first, 0, thread1, 10, delThread)
    ensures FreshStart(second, 1, thread2, 3, delThread)
    ensures third == run1
  {
    StackBases();
    var sys;
    sys, first := Start(delThread, bootPsp, bootRegs, ram, thread1, thread2);
    ghost var mC := sys.mem;
    second := RunUntilTick(sys, run1, writes1, 0);
    ghost var mD := sys.mem;
    ghost var saved1 := sys.barn[0];
    assert FreshStart(second, 1, thread2, 3, delThread) by {
      ResumeKept(mC, mD, InitialSp(1), 1);
    }
    third := RunUntilTick(sys, run2, writes2, 1);
    assert third == run1 by {
      assert saved1 == sys.barn[0];
      assert saved1 == run1.psp - THREAD_STACK_BYTES;
      ResumeKept(mD, sys.mem, saved1, 0);
      ResumeAfterSuspend(mC + writes1, run1, mD);
    }
  }
}
