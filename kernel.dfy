/** The scheduler of multi-threading-LPC17xx: its global state (`thread_idx`,
    `max_threads`, `os_thread_barn`, `main_func_sp`, `previous_sp`, `next_sp`,
    SVC_Handler's `skip_first`), the bits of the SysTick and SCB registers it sets, and
    the processor state the context switch moves (PSP, r4..r11, SRAM). Each interrupt
    handler is one atomic method. */
module Kernel {
  import opened Words
  import opened Frames
  import opened Layout
  import opened RoundRobin

  /** A null function pointer. */
  const NULL: Word := 0

  /** What `previous_sp` and `next_sp` point at: nothing yet, the dummy `main_func_sp`,
      or the `SP` field of `os_thread_barn[i]`. */
  datatype SpRef = Null | MainFuncSp | BarnSlot(i: nat)

  /** Index of the first free slot in a thread table, or the table's size when every slot
      is taken: what the scan in `new_thread` finds. */
  function FirstEmpty(slots: seq<Word>): (i: nat)
    ensures i <= |slots|
    ensures i < |slots| ==> slots[i] == EMPTY_THREAD
    ensures forall j :: 0 <= j < i ==> slots[j] != EMPTY_THREAD
  {
    if slots == [] then 0
    else if slots[0] == EMPTY_THREAD then 0
    else 1 + FirstEmpty(slots[1..])
  }

  /** A scan that stops at slot `n`, having passed only occupied slots, found the first
      free slot. */
  lemma {:induction false} FirstEmptyIs(slots: seq<Word>, n: nat)
    requires n <= |slots|
    requires forall j :: 0 <= j < n ==> slots[j] != EMPTY_THREAD
    requires n < |slots| ==> slots[n] == EMPTY_THREAD
    ensures FirstEmpty(slots) == n
  {
    if slots != [] && slots[0] != EMPTY_THREAD {
      FirstEmptyIs(slots[1..], n - 1);
    }
  }

  /** `stmdb r0!, {r4-r11}` with r0 = `base + 32`: the registers go to the eight words
      from `base` up, r4 lowest. */
  method PushRegisters(m: Memory, base: Word, live: seq<Word>) returns (m': Memory)
    requires |live| == FRAME_WORDS
    ensures m' == StoreWords(m, base, live)
  {
    m' := m;
    for k := 0 to FRAME_WORDS
      invariant m' == StoreWords(m, base, live[..k])
    {
      assert live[..k + 1][..k] == live[..k];
      m' := m'[WordAddr(base, k) := live[k]];
    }
    assert live[..FRAME_WORDS] == live;
  }

  /** `ldmia r0!, {r4-r11}` with r0 = `base`: the registers come from the eight words
      from `base` up, r4 lowest. */
  method PopRegisters(m: Memory, base: Word) returns (popped: seq<Word>)
    ensures popped == LoadWords(m, base, FRAME_WORDS)
  {
    popped := [];
    for k := 0 to FRAME_WORDS
      invariant popped == LoadWords(m, base, k)
    {
      popped := popped + [Read(m, WordAddr(base, k))];
    }
  }

  /** A table whose threads sit in its first `count` slots and only there: a slot is
      taken exactly when its index is below `count`. */
  ghost predicate Occupancy(slots: seq<Word>, count: int)
  {
    forall i :: 0 <= i < |slots| ==> (slots[i] != EMPTY_THREAD <==> i < count)
  }

  /** When the taken slots are exactly the first `count`, the scan finds slot `count`. */
  lemma FirstEmptyOfPrefix(slots: seq<Word>, count: nat)
    requires count <= |slots| && Occupancy(slots, count)
    ensures FirstEmpty(slots) == count
  {
    FirstEmptyIs(slots, count);
  }

  /** `r` names a cell that exists: the dummy `main_func_sp`, or the SP of slot 0 or of a
      taken slot. */
  predicate Names(r: SpRef, count: Word)
  {
    r.MainFuncSp? || (r.BarnSlot? && r.i < MAX_NO_THREADS && (r.i == 0 || r.i < count))
  }

  /** The scheduler's invariant, over the values of its globals. The table holds its
      threads in its first `max_threads` slots and only there (a free slot's SP is 0, so a
      saved SP is never 0); the cursor is inside the table; `previous_sp` names a cell and
      `next_sp` is unset or names a slot; a pending switch knows where to switch to. */
  ghost predicate Scheduler(slots: seq<Word>, count: Word, idx: Word, prev: SpRef, next: SpRef, pending: bool)
  {
    && |slots| == MAX_NO_THREADS && count <= MAX_NO_THREADS
    && Occupancy(slots, count)
    && (idx == 0 || idx < count)
    && Names(prev, count)
    && (next.Null? || (next.BarnSlot? && Names(next, count)))
    && (pending ==> next.BarnSlot?)
  }

  /** `new_thread` keeps the invariant: a nonzero SP in the first free slot and one more
      thread. */
  lemma SchedulerAdd(slots: seq<Word>, count: Word, idx: Word, prev: SpRef, next: SpRef, pending: bool, sp: Word)
    requires Scheduler(slots, count, idx, prev, next, pending)
    requires count < MAX_NO_THREADS && sp != EMPTY_THREAD
    ensures Scheduler(slots[count := sp], count + 1, idx, prev, next, pending)
  {
    assert Occupancy(slots[count := sp], count + 1);
  }

  /** `SysTick_Handler` (and `SVC_Handler` after its first call) keep the invariant: the
      cursor's slot becomes `previous_sp`, the advanced cursor's slot `next_sp`. */
  lemma SchedulerTick(slots: seq<Word>, count: Word, idx: Word, prev: SpRef, next: SpRef, pending: bool)
    requires Scheduler(slots, count, idx, prev, next, pending)
    ensures var idx' := NextIdx(idx, count);
      Scheduler(slots, count, idx', BarnSlot(idx), BarnSlot(idx'), true)
  {
  }

  /** The first `SVC_Handler` call keeps the invariant: only `next_sp` is set. */
  lemma SchedulerFirstSvc(slots: seq<Word>, count: Word, idx: Word, prev: SpRef, next: SpRef, pending: bool)
    requires Scheduler(slots, count, idx, prev, next, pending)
    ensures Scheduler(slots, count, idx, prev, BarnSlot(idx), true)
  {
  }

  /** Taking `PendSV_Handler` keeps the invariant: the pending switch is cleared. */
  lemma SchedulerTaken(slots: seq<Word>, count: Word, idx: Word, prev: SpRef, next: SpRef)
    requires Scheduler(slots, count, idx, prev, next, true)
    ensures Scheduler(slots, count, idx, prev, next, false) && next.BarnSlot?
  {
  }

  /** Saving the outgoing context keeps the invariant: the cell `previous_sp` names gets
      the saved SP, which is not 0 when that cell is a slot, and a thread exists. */
  lemma SchedulerSave(slots: seq<Word>, count: Word, idx: Word, prev: SpRef, next: SpRef, pending: bool, sp: Word)
    requires Scheduler(slots, count, idx, prev, next, pending)
    requires 0 < count && (prev.BarnSlot? ==> sp != EMPTY_THREAD)
    ensures prev.BarnSlot? ==> Scheduler(slots[prev.i := sp], count, idx, prev, next, pending)
  {
    if prev.BarnSlot? {
      assert Occupancy(slots[prev.i := sp], count);
    }
  }

  class System {
    /** Address of `del_thread`, fixed when the program is linked. */
    const delThread: Word

    var threadIdx: Word
    var maxThreads: Word
    /** `os_thread_barn[i].SP` for each slot `i`. */
    var barn: array<Word>
    var mainFuncSp: Word
    var previousSp: SpRef
    var nextSp: SpRef
    var skipFirst: bool

    /** TICKINT bit of SysTick->CTRL: whether the tick may interrupt. */
    var tickIntEnabled: bool
    /** PENDSVSET state of SCB->ICSR: a context switch is pending. */
    var pendSvPending: bool
    var mem: Memory
    var psp: Word
    /** r4..r11 of the thread whose context is in the processor. */
    var regs: seq<Word>

    /** The scheduler's invariant on the globals, and r4..r11 are eight registers. */
    ghost predicate Valid()
      reads this`barn, barn, this`regs, this`maxThreads, this`threadIdx
      reads this`previousSp, this`nextSp, this`pendSvPending
    {
      && barn.Length == MAX_NO_THREADS && |regs| == FRAME_WORDS
      && Scheduler(barn[..], maxThreads, threadIdx, previousSp, nextSp, pendSvPending)
    }

    /** The word a stack-pointer reference names. */
    function SpAt(r: SpRef): Word
      reads this`mainFuncSp, this`barn, barn
      requires r.MainFuncSp? || (r.BarnSlot? && r.i < barn.Length)
    {
      if r.MainFuncSp? then mainFuncSp else barn[r.i]
    }

    /** Reset: the statics are zero except `previous_sp = &main_func_sp`; SysTick's
        interrupt is off and nothing is pending. The PSP, r4..r11 and the SRAM contents
        the processor starts with are parameters. */
    constructor (delThread: Word, bootPsp: Word, bootRegs: seq<Word>, ram: Memory)
      requires |bootRegs| == FRAME_WORDS
      ensures Valid() && fresh(barn)
      ensures this.delThread == delThread
      ensures threadIdx == 0 && maxThreads == 0 && barn[..] == [EMPTY_THREAD, EMPTY_THREAD]
      ensures mainFuncSp == 0 && previousSp == MainFuncSp && nextSp == Null && !skipFirst
      ensures !tickIntEnabled && !pendSvPending
      ensures mem == ram && psp == bootPsp && regs == bootRegs
    {
      this.delThread := delThread;
      threadIdx, maxThreads := 0, 0;
      barn := new Word[MAX_NO_THREADS](_ => EMPTY_THREAD);
      mainFuncSp := 0;
      previousSp, nextSp := MainFuncSp, Null;
      skipFirst := false;
      tickIntEnabled, pendSvPending := false, false;
      mem, psp, regs := ram, bootPsp, bootRegs;
    }

    /** `fill_thread_stack_memory`: lays the initial frame of the thread that will be number
        `max_threads` below its stack base and stores the frame's address as the slot's SP. */
    method FillThreadStackMemory(slot: nat, entry: Word, arg: Word)
      requires slot < barn.Length
      modifies this`mem, barn
      ensures mem == BuildFrame(old(mem), InitialSp(maxThreads), entry, arg, delThread)
      ensures barn[..] == old(barn[..])[slot := InitialSp(maxThreads)]
    {
      var sp := StackBase(maxThreads);
      var frame := Wrap(sp - THREAD_STACK_BYTES);
      mem := mem[WordAddr(frame, PC_WORD) := entry];
      mem := mem[WordAddr(frame, LR_WORD) := delThread];
      mem := mem[WordAddr(frame, XPSR_WORD) := DEFAULT_PSR];
      mem := mem[WordAddr(frame, R0_WORD) := arg];
      barn[slot] := frame;
    }

    /** The scan of `new_thread`: the index of the first free slot, or the table's size
        when every slot is taken. */
    method FindFreeSlot() returns (slot: nat)
      ensures slot == FirstEmpty(barn[..])
    {
      slot := 0;
      while slot < barn.Length && barn[slot] != EMPTY_THREAD
        invariant slot <= barn.Length
        invariant forall j :: 0 <= j < slot ==> barn[j] != EMPTY_THREAD
      {
        slot := slot + 1;
      }
      FirstEmptyIs(barn[..], slot);
    }

    /** `new_thread`. A null entry changes nothing. Otherwise the tick interrupt is turned
        off and the table scanned for its first free slot; if there is none, the method
        returns with the tick interrupt still off and nothing else changed. If there is
        one, it is slot `max_threads`: its frame is built, `max_threads` grows by one and
        the tick interrupt is turned back on. */
    method NewThread(entry: Word, arg: Word)
      requires Valid()
      modifies this`mem, this`maxThreads, this`tickIntEnabled, barn
      ensures Valid()
      ensures entry == NULL ==>
        && maxThreads == old(maxThreads) && barn[..] == old(barn[..])
        && mem == old(mem) && tickIntEnabled == old(tickIntEnabled)
      ensures entry != NULL ==> FirstEmpty(old(barn[..])) == old(maxThreads)
      ensures entry != NULL && old(maxThreads) == MAX_NO_THREADS ==>
        && maxThreads == old(maxThreads) && barn[..] == old(barn[..])
        && mem == old(mem) && !tickIntEnabled
      ensures entry != NULL && old(maxThreads) < MAX_NO_THREADS ==>
        && barn[..] == old(barn[..])[old(maxThreads) := InitialSp(old(maxThreads))]
        && maxThreads == old(maxThreads) + 1
        && mem == BuildFrame(old(mem), InitialSp(old(maxThreads)), entry, arg, delThread)
        && tickIntEnabled
    {
      if entry == NULL {
        return;
      }
      tickIntEnabled := false;
      FirstEmptyOfPrefix(barn[..], maxThreads);
      var slot := FindFreeSlot();
      if slot == MAX_NO_THREADS {
        return;
      }
      InitialSpNotEmpty(maxThreads);
      FillThreadStackMemory(slot, entry, arg);
      maxThreads, tickIntEnabled := maxThreads + 1, true;
      SchedulerAdd(old(barn[..]), old(maxThreads), threadIdx, previousSp, nextSp, pendSvPending, InitialSp(old(maxThreads)));
      assert barn[..] == old(barn[..])[old(maxThreads) := InitialSp(old(maxThreads))];
    }

    /** `SVC_Handler`. The first call only sets `skip_first`: the cursor stays and
        `previous_sp` keeps pointing at the dummy `main_func_sp`. Every later call
        records the current slot as the one to save and advances the cursor. Either
        way `next_sp` names the cursor's slot and a switch is pended. */
    method SvcHandler()
      requires Valid()
      modifies this`previousSp, this`threadIdx, this`nextSp, this`skipFirst, this`pendSvPending
      ensures Valid()
      ensures !old(skipFirst) ==> previousSp == old(previousSp) && threadIdx == old(threadIdx)
      ensures old(skipFirst) ==>
        previousSp == BarnSlot(old(threadIdx)) && threadIdx == NextIdx(old(threadIdx), maxThreads)
      ensures skipFirst
      ensures nextSp == BarnSlot(threadIdx) && pendSvPending
    {
      if skipFirst {
        SchedulerTick(barn[..], maxThreads, threadIdx, previousSp, nextSp, pendSvPending);
        previousSp := BarnSlot(threadIdx);
        threadIdx := Wrap(threadIdx + 1);
        if threadIdx >= maxThreads {
          threadIdx := 0;
        }
      } else {
        SchedulerFirstSvc(barn[..], maxThreads, threadIdx, previousSp, nextSp, pendSvPending);
        skipFirst := true;
      }
      nextSp := BarnSlot(threadIdx);
      pendSvPending := true;
    }

    /** `SysTick_Handler`: the slot at the cursor becomes the one to save, the cursor
        advances round robin, its new slot becomes the one to load, and a switch is pended.
        No stack pointer or register is touched here. */
    method SysTickHandler()
      requires Valid()
      modifies this`previousSp, this`threadIdx, this`nextSp, this`pendSvPending
      ensures Valid()
      ensures previousSp == BarnSlot(old(threadIdx))
      ensures threadIdx == NextIdx(old(threadIdx), maxThreads)
      ensures nextSp == BarnSlot(threadIdx) && pendSvPending
    {
      SchedulerTick(barn[..], maxThreads, threadIdx, previousSp, nextSp, pendSvPending);
      previousSp := BarnSlot(threadIdx);
      threadIdx := Wrap(threadIdx + 1);
      if threadIdx >= maxThreads {
        threadIdx := 0;
      }
      nextSp := BarnSlot(threadIdx);
      pendSvPending := true;
    }

    /** First half of `PendSV_Handler` (`mrs r0, psp; stmdb r0!, {r4-r11}`, then `str r0`
        through `previous_sp`): r4..r11 are pushed below PSP, r4 lowest, and the lowered
        PSP, which is returned, is stored in the cell `previous_sp` names. No other memory
        or cell changes. */
    method SaveContext() returns (sp: Word)
      requires Valid() && 0 < maxThreads
      requires previousSp.BarnSlot? ==> Wrap(psp - FRAME_BYTES) != EMPTY_THREAD
      modifies this`mem, this`mainFuncSp, barn
      ensures Valid()
      ensures (mem, sp) == SaveRegisters(old(mem), old(psp), old(regs))
      ensures previousSp.MainFuncSp? ==> mainFuncSp == sp && barn[..] == old(barn[..])
      ensures previousSp.BarnSlot? ==>
        mainFuncSp == old(mainFuncSp) && barn[..] == old(barn[..])[previousSp.i := sp]
    {
      sp := Wrap(psp - FRAME_BYTES);
      SchedulerSave(barn[..], maxThreads, threadIdx, previousSp, nextSp, pendSvPending, sp);
      mem := PushRegisters(mem, sp, regs);
      if previousSp.MainFuncSp? {
        mainFuncSp := sp;
      } else {
        barn[previousSp.i] := sp;
      }
    }

    /** Second half of `PendSV_Handler` (`ldr r0` through `next_sp`, then
        `ldmia r0!, {r4-r11}; msr psp, r0`): r4..r11 are popped from the stack pointer in the
        cell `next_sp` names and PSP is set past them. */
    method LoadContext()
      requires Valid() && nextSp.BarnSlot?
      modifies this`regs, this`psp
      ensures Valid()
      ensures (regs, psp) == RestoreRegisters(mem, SpAt(nextSp))
    {
      var sp := SpAt(nextSp);
      regs := PopRegisters(mem, sp);
      psp := Wrap(sp + FRAME_BYTES);
    }

    /** `PendSV_Handler`, taken because a switch was pended (taking it clears the pending
        state): the outgoing thread's r4..r11 are saved below its PSP and the lowered PSP
        in the cell `previous_sp` names; the incoming thread's r4..r11 and PSP come from
        the cell `next_sp` names. The handler returns with EXC_RETURN "Thread mode, PSP".
        The saved pointer must not be 0 (a thread's PSP stays inside its own stack region,
        far above address 32), or its slot would read as free. */
    method PendSvHandler() returns (excReturn: Word)
      requires Valid() && pendSvPending && 0 < maxThreads
      requires previousSp.BarnSlot? ==> Wrap(psp - FRAME_BYTES) != EMPTY_THREAD
      modifies this`mem, this`psp, this`regs, this`mainFuncSp, this`pendSvPending, barn
      ensures Valid() && !pendSvPending
      ensures (mem, SpAt(previousSp)) == SaveRegisters(old(mem), old(psp), old(regs))
      ensures previousSp.MainFuncSp? ==> barn[..] == old(barn[..])
      ensures previousSp.BarnSlot? ==>
        mainFuncSp == old(mainFuncSp) && barn[..] == old(barn[..])[previousSp.i := SpAt(previousSp)]
      ensures (regs, psp) == RestoreRegisters(mem, SpAt(nextSp))
      ensures excReturn == EXC_RETURN_THREAD_PSP
    {
      SchedulerTaken(barn[..], maxThreads, threadIdx, previousSp, nextSp);
      pendSvPending := false;
      var saved := SaveContext();
      LoadContext();
      excReturn := EXC_RETURN_THREAD_PSP;
    }

    /** The processor's exception return to Thread mode on PSP (`bx` with the EXC_RETURN
        value PendSV_Handler loads): the hardware frame at PSP is popped into r0-r3, r12,
        LR, PC and xPSR, which the method returns, and PSP moves past it. */
    method ExceptionReturn() returns (f: ExceptionFrame)
      modifies this`psp
      ensures (f, psp) == Unstack(mem, old(psp))
    {
      var (popped, raised) := Unstack(mem, psp);
      f, psp := popped, raised;
    }

    /** What happens between two handlers while a thread runs: its body stores `writes` to
        memory and leaves r4..r11 and PSP as `c` gives them; then a tick arrives and the
        processor's exception entry stacks `c`'s hardware-frame registers below that PSP. */
    method ThreadPreempted(c: ThreadContext, writes: Memory)
      requires Valid() && |c.saved| == FRAME_WORDS
      modifies this`mem, this`psp, this`regs
      ensures Valid()
      ensures regs == c.saved
      ensures (mem, psp) == Stacking(old(mem) + writes, c.psp, c.stacked)
    {
      regs := c.saved;
      var (stacked, lowered) := Stacking(mem + writes, c.psp, c.stacked);
      mem, psp := stacked, lowered;
    }
  }
}
