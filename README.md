# multi-threading-LPC17xx scheduler, in Dafny

This is a model of the round-robin thread scheduler in `src/multi-threading-LPC17xx.c`. It runs on the
Cortex-M3 of an LPC17xx. The parts modelled are:

- **Thread table.** The table `os_thread_barn` has `MAX_NO_THREADS` = 2 slots. Each slot holds a saved
  stack pointer, and 0 (`kEmptyThread`) marks a free slot.
- **Thread creation.** `new_thread` scans the table for the first free slot. `fill_thread_stack_memory`
  then lays a fresh thread's initial `thread_stack` frame 64 bytes below its 2 KiB stack region's base.
- **Round-robin cursor.** `SysTick_Handler` moves the cursor `thread_idx`, and so does `SVC_Handler`
  after its one-shot first call. Each call pends a switch.
- **Context switch.** `PendSV_Handler` pushes r4..r11 below PSP and stores the lowered PSP through
  `previous_sp`. It then loads a saved SP through `next_sp`, pops r4..r11 and sets PSP. The processor's
  exception return then pops the hardware frame: r0-r3, r12, LR, PC and xPSR (section B1.5.8 of the
  ARMv7-M Architecture Reference Manual).

The model is imperative, like the code:

- The globals are fields of the class `Kernel.System`. The table is an `array`.
- SRAM is a map from 32-bit addresses to words. Its contents at reset are a parameter (`ram`). A word
  the program never wrote reads what `ram` holds there, and 0 where `ram` holds nothing.
- Each interrupt handler is one method that runs atomically.
- `previous_sp` and `next_sp` are the datatype `SpRef`: nothing, the dummy `main_func_sp`, or a slot.
- The `stmdb`/`ldmia` transfers are loops over eight registers (`PushRegisters`, `PopRegisters`).
  They are proved against the block functions `StoreWords` and `LoadWords`.

The project has these modules:

| module | file | contents |
|---|---|---|
| `Words` | `words.dfy` | 32-bit words, memory and block transfers |
| `Frames` | `frames.dfy` | the hardware frame, the save and restore halves of a switch, and the whole-context round trip |
| `Layout` | `layout.dfy` | the constants, the stack regions and the initial frame |
| `RoundRobin` | `round_robin.dfy` | the cursor and its fairness |
| `Kernel` | `kernel.dfy` | the globals and the handlers |
| `Boot` | `boot.dfy` | `main`: two creations, the first switch and then ticks, with every step's effect on the two stack regions |

Where the code may differ from what a reader expects, the model follows the code:

- **The first switch is not load-only.** `previous_sp` starts out pointing at `main_func_sp`
  (line 62), so the first `PendSV_Handler` also pushes the boot r4..r11 below whatever PSP the
  processor has. It then stores the lowered PSP in `main_func_sp`.
- **Four of the frame's sixteen words are written.** `fill_thread_stack_memory` writes PC, LR, xPSR
  and r0. r1, r2, r3, r12 and r4..r11 keep whatever SRAM held, and a fresh thread starts with those
  values.
- **The `thread_stack` word offsets follow the struct's declaration** (lines 35-55). r4..r11 are
  words 0..7, r0 is word 8, r12 is word 12, LR is word 13, PC is word 14 and xPSR is word 15.
- **A creation that finds no free slot leaves the tick interrupt off** (lines 261, 272-274). This is
  modelled as written. `main` never reaches that path.

## Model

| member | source | states |
|---|---|---|
| Words.Wrap | src/multi-threading-LPC17xx.c:235 | unsigned 32-bit subtraction and increment: a result in range is unchanged, one over or under range comes back by 2^32 |
| Words.StoreWordsAt | src/multi-threading-LPC17xx.c:171 | after a block store, the k-th word from the base holds the k-th register |
| Words.StoreWordsElsewhere | src/multi-threading-LPC17xx.c:171 | a block store changes no word outside the block |
| Words.StoreWordsOutside | src/multi-threading-LPC17xx.c:171 | an address below the block or past its end keeps its word |
| Words.LoadAfterStore | src/multi-threading-LPC17xx.c:171-184 | loading the block just stored gives back the stored registers |
| Frames.UnstackAfterStacking | src/multi-threading-LPC17xx.c:188-195 | exception return after exception entry gives the thread back all eight stacked registers and its PSP |
| Frames.RestoreAfterSave | src/multi-threading-LPC17xx.c:169-186 | restoring from the pointer a save produced gives back r4..r11 and the PSP |
| Frames.ResumeAfterSuspend | src/multi-threading-LPC17xx.c:169-186 | a thread switched out and later back in gets its PSP, r4..r11 and stacked registers back exactly, provided its 16 saved words were left alone |
| Layout.InitialFrameInRegion | src/multi-threading-LPC17xx.c:17-21 | slot s's base is 0x10007800 - s*0x800; its initial SP is base - 64, lies in its own region and is not 0 |
| Layout.InitialSpNotEmpty | src/multi-threading-LPC17xx.c:253 | the SP stored for a new thread is never taken for a free slot |
| Layout.RegionsDisjoint | src/multi-threading-LPC17xx.c:235 | the 0x800-byte regions of distinct slots share no address |
| Layout.BuildFrameElsewhere | src/multi-threading-LPC17xx.c:243-248 | the frame builder touches no word outside the 16-word frame |
| Layout.FreshThreadStart | src/multi-threading-LPC17xx.c:239-253 | a fresh frame, popped by PendSV and then by exception return, starts at the entry, with arg in r0, the exit handler in LR, only the Thumb bit in xPSR, and PSP at frame + 64 |
| RoundRobin.NextIdx | src/multi-threading-LPC17xx.c:147-150 | the advanced cursor stays inside the table; it wraps to 0 exactly after the last thread, otherwise it goes up by one |
| RoundRobin.ScheduleAt | src/multi-threading-LPC17xx.c:145-152 | the t-th slot switched in is where the cursor stands after t + 1 ticks |
| RoundRobin.AdvanceInCycle | src/multi-threading-LPC17xx.c:147-150 | within one cycle the cursor moves up by one per tick and wraps once |
| RoundRobin.FullCycleReturns | src/multi-threading-LPC17xx.c:145-152 | max_threads consecutive ticks bring the cursor back to its start |
| RoundRobin.CycleInCreationOrder | src/multi-threading-LPC17xx.c:145-152 | max_threads consecutive ticks switch in the slots after the cursor, then those up to it, in creation order |
| RoundRobin.CycleVisitsEachOnce | src/multi-threading-LPC17xx.c:145-152 | max_threads consecutive ticks switch in every thread exactly once and nothing else |
| RoundRobin.CyclesReturn | src/multi-threading-LPC17xx.c:145-152 | any number of whole cycles brings the cursor back to its start |
| RoundRobin.FairShareCycles | src/multi-threading-LPC17xx.c:145-152 | k whole cycles switch in every thread exactly k times and nothing else |
| RoundRobin.FairShare | src/multi-threading-LPC17xx.c:145-152 | k * max_threads consecutive ticks switch in every thread exactly k times and no other slot |
| Kernel.FirstEmpty | src/multi-threading-LPC17xx.c:265-270 | the scan's result is a free slot, or the table size, and every slot before it is taken |
| Kernel.FirstEmptyIs | src/multi-threading-LPC17xx.c:265-270 | a scan that passed only taken slots and stops at a free slot, or at the end, finds that index |
| Kernel.FirstEmptyOfPrefix | src/multi-threading-LPC17xx.c:265-278 | when exactly the first max_threads slots are taken, the scan finds slot max_threads |
| Kernel.PushRegisters | src/multi-threading-LPC17xx.c:169-171 | the stmdb loop stores r4..r11 at base .. base + 28, r4 lowest |
| Kernel.PopRegisters | src/multi-threading-LPC17xx.c:184 | the ldmia loop loads r4..r11 from base .. base + 28 |
| Kernel.SchedulerAdd | src/multi-threading-LPC17xx.c:253-278 | a nonzero SP in slot max_threads, with one more thread, keeps the table invariant |
| Kernel.SchedulerTick | src/multi-threading-LPC17xx.c:145-154 | a tick keeps the invariant: the cursor stays in the table, and previous_sp and next_sp name slots |
| Kernel.SchedulerFirstSvc | src/multi-threading-LPC17xx.c:132-136 | the first SVC keeps the invariant |
| Kernel.SchedulerTaken | src/multi-threading-LPC17xx.c:160 | taking the pended switch keeps the invariant, and next_sp names a slot |
| Kernel.SchedulerSave | src/multi-threading-LPC17xx.c:174-176 | storing a nonzero SP through previous_sp keeps the invariant |
| Kernel.System.constructor | src/multi-threading-LPC17xx.c:57-63 | all statics are zero, except that previous_sp points at main_func_sp; the table is empty and the invariant holds |
| Kernel.System.FillThreadStackMemory | src/multi-threading-LPC17xx.c:231-254 | writes PC, LR, xPSR and r0 of the frame at base(max_threads) - 64, stores that address in the given slot, and changes nothing else |
| Kernel.System.FindFreeSlot | src/multi-threading-LPC17xx.c:263-270 | the loop returns the first free slot, or 2 if every slot is taken |
| Kernel.System.NewThread | src/multi-threading-LPC17xx.c:256-281 | null entry: nothing changes. Table full: nothing changes and the tick interrupt is left off. Otherwise the first free slot is slot max_threads, which gets the fresh frame's SP; max_threads grows by 1 and the tick is on again. The invariant is kept |
| Kernel.System.SvcHandler | src/multi-threading-LPC17xx.c:120-139 | first call: only skip_first is set, the cursor and previous_sp stay. Later calls: exactly the tick step. Either way next_sp names the cursor's slot and a switch is pended |
| Kernel.System.SysTickHandler | src/multi-threading-LPC17xx.c:141-155 | previous_sp becomes the old cursor's slot, the cursor advances round robin, next_sp becomes the new cursor's slot, and a switch is pended; the invariant is kept |
| Kernel.System.SaveContext | src/multi-threading-LPC17xx.c:169-176 | r4..r11 go to psp-32 .. psp-4 and nowhere else; psp-32 is stored in the cell previous_sp names, and in no other cell |
| Kernel.System.LoadContext | src/multi-threading-LPC17xx.c:178-186 | r4..r11 come from X .. X+28, where X is the cell next_sp names, and PSP becomes X + 32 |
| Kernel.System.PendSvHandler | src/multi-threading-LPC17xx.c:160-197 | the save, then the load, clears the pending switch, keeps the invariant, and returns EXC_RETURN 0xFFFFFFFD |
| Kernel.System.ExceptionReturn | src/multi-threading-LPC17xx.c:188-195 | the hardware frame at PSP is popped and PSP moves past it |
| Kernel.System.ThreadPreempted | src/multi-threading-LPC17xx.c:170 | exception entry stacks the running thread's hardware-frame registers below its PSP |
| Boot.StackBases | src/multi-threading-LPC17xx.c:17-21 | the two stack bases are 0x10007800 and 0x10007000; the initial SPs are 0x100077C0 and 0x10006FC0 |
| Boot.SuspendKeeps | src/multi-threading-LPC17xx.c:169-176 | switching out a thread whose PSP lies in its own region leaves the other region's memory as it was |
| Boot.WritesKeep | src/multi-threading-LPC17xx.c:206-224 | a thread's stores inside its own region leave the other region's memory as it was |
| Boot.BootSaveKeeps | src/multi-threading-LPC17xx.c:62 | the first switch's save below a boot PSP above the thread stacks leaves both regions as they were |
| Boot.BuildFrameKeeps | src/multi-threading-LPC17xx.c:235-248 | building one slot's frame leaves the other slot's region as it was |
| Boot.ResumeKept | src/multi-threading-LPC17xx.c:178-186 | a context saved inside a region reads back the same from any memory that kept the region |
| Boot.FreshResume | src/multi-threading-LPC17xx.c:239-253 | switching in a slot's freshly built frame starts its thread at the entry with arg in r0, LR = del_thread, Thumb xPSR, and PSP at the slot's base |
| Boot.SecondFrame | src/multi-threading-LPC17xx.c:292 | building slot 1's frame gives a fresh start of its thread and leaves what slot 0's SP leads to unchanged |
| Boot.PreemptionKeeps | src/multi-threading-LPC17xx.c:141-176 | a thread that runs inside its own region and is then switched out leaves the other region as it was |
| Boot.CreateFirst | src/multi-threading-LPC17xx.c:291 | new_thread(thread1, 10) on the reset state takes slot 0, and slot 0's SP leads to a fresh start of thread1 |
| Boot.CreateSecond | src/multi-threading-LPC17xx.c:292 | new_thread(thread2, 3) takes slot 1, and both slots' SPs lead to fresh starts of their threads |
| Boot.CreateThreads | src/multi-threading-LPC17xx.c:291-292 | after both creations the table is [0x100077C0, 0x10006FC0], max_threads is 2, and both fresh frames are in place |
| Boot.FirstSwitch | src/multi-threading-LPC17xx.c:160-197 | the first PendSV saves the boot registers without disturbing either fresh frame, and loads slot 0 |
| Boot.Start | src/multi-threading-LPC17xx.c:283-298 | from reset to the first thread running: thread1 starts at its entry with arg 10, LR = del_thread and PSP at its stack base; thread2's fresh frame waits in slot 1 |
| Boot.TickSwitch | src/multi-threading-LPC17xx.c:141-197 | a tick and its PendSV save the running slot's registers into its own slot and load the other slot |
| Boot.RunUntilTick | src/multi-threading-LPC17xx.c:141-197 | a thread runs and is preempted: its context is saved in its region and its slot; the other region is untouched; the other thread gets what its slot's SP leads to |
| Boot.BootAndTwoTicks | src/multi-threading-LPC17xx.c:283-298 | boot and two ticks: thread1 starts fresh, then thread2 starts fresh, then thread1 resumes with exactly the PSP and registers it had when preempted |

## Left out

- The peripheral code, which has no scheduling logic: `led_pin_init`, `timer0_count_init`,
  `toggling_led`, `TIMER0_IRQHandler` and `HardFault_Handler`.
- Interrupt priorities, `SysTick_Config`, `__enable_irq` and the `cpsid i`/`cpsie i` masking. Each
  handler is one atomic step, and interrupts never nest.
- The bodies of `thread1`, `thread2`, `factorial` and `del_thread`. A running thread is modelled as
  any set of stores inside its own stack region plus any final register values. `del_thread` enters
  only as the address it places in LR.
- `src/irq-handlers.h`, which only declares functions.
- Kernel.System.SaveContext: requires at least one thread and a nonzero saved SP, for the same
  reasons as PendSvHandler below. Lines 169-176 run without either condition.
- Kernel.System.PendSvHandler: requires at least one thread and a nonzero saved SP. The code checks
  neither. With no thread, a tick would store an SP into an empty slot 0, and a saved SP of 0 would
  read as a free slot. In `main` neither happens, because the tick is armed only after both creations
  and each thread's PSP stays inside its stack region.
- Boot.Start: requires the boot PSP to lie at least 32 bytes above the first thread region, for the
  reason given under BootAndTwoTicks below.
- Boot.FirstSwitch: requires the boot PSP to lie at least 32 bytes above the first thread region, for
  the same reason.
- Boot.BootAndTwoTicks: requires the boot PSP to lie at least 32 bytes above the first thread region.
  `main` never sets PSP (the `__set_PSP` call is commented out), so nothing is stated about the
  region the boot registers go to.
- Boot.RunUntilTick: requires that a thread's stores and PSP stay inside its own 2 KiB region. A stack
  overflow into the other region is not modelled.
- Word alignment, the FPU context, and the rest of EXC_RETURN's meaning beyond "pop eight words from
  PSP". Memory is word-addressed and never faults.
- What SRAM holds at reset is not known to the model: it is the `ram` parameter, and an address
  `ram` does not hold reads as 0. A fresh thread's r1-r3, r12 and r4..r11 are whatever memory held.
