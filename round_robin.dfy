/** The round-robin cursor `thread_idx` that SysTick_Handler (and every SVC_Handler call
    after the first) advances over the `max_threads` occupied slots. */
module RoundRobin {
  import opened Words

  /** One advance of the cursor: `thread_idx++` in 32 bits, then back to 0 once it reaches
      `max_threads`. A cursor inside the table stays inside it and moves to the next slot,
      or from the last occupied slot back to the first. */
  function NextIdx(idx: Word, n: Word): (r: Word)
    ensures r < n || r == 0
    ensures idx < n ==> r < n && (r == 0 <==> idx + 1 == n) && (r != 0 ==> r == idx + 1)
  {
    var t := Wrap(idx + 1);
    if t >= n then 0 else t
  }

  /** The cursor after `k` ticks. */
  function Advance(idx: Word, n: Word, k: nat): Word
    decreases k
  {
    if k == 0 then idx else Advance(NextIdx(idx, n), n, k - 1)
  }

  /** The slots switched in by `k` consecutive ticks, one per tick. */
  function Schedule(idx: Word, n: Word, k: nat): (s: seq<Word>)
    ensures |s| == k
    decreases k
  {
    if k == 0 then [] else [NextIdx(idx, n)] + Schedule(NextIdx(idx, n), n, k - 1)
  }

  /** The slots `lo`, `lo + 1`, ..., `hi - 1`, in creation order. */
  function Range(lo: Word, hi: Word): (s: seq<Word>)
    requires lo <= hi
    ensures |s| == hi - lo
    ensures forall t :: 0 <= t < |s| ==> s[t] == lo + t
  {
    seq(hi - lo, t requires 0 <= t < hi - lo => lo + t)
  }

  /** The `t`-th slot of a schedule is where the cursor stands after `t + 1` ticks. */
  lemma {:induction false} ScheduleAt(idx: Word, n: Word, k: nat, t: nat)
    requires t < k
    ensures Schedule(idx, n, k)[t] == Advance(idx, n, t + 1)
    decreases k
  {
    if t > 0 {
      ScheduleAt(NextIdx(idx, n), n, k - 1, t - 1);
    }
  }

  /** Within one cycle the cursor moves up by one per tick and wraps to 0 once. */
  lemma {:induction false} AdvanceInCycle(idx: Word, n: Word, t: nat)
    requires idx < n && t <= n
    ensures Advance(idx, n, t) == if idx + t < n then idx + t else idx + t - n
    decreases t
  {
    if t > 0 {
      AdvanceInCycle(NextIdx(idx, n), n, t - 1);
    }
  }

  /** Ticks compose: `a` ticks followed by `b` ticks are `a + b` ticks. */
  lemma {:induction false} AdvanceSplit(idx: Word, n: Word, a: nat, b: nat)
    ensures Advance(idx, n, a + b) == Advance(Advance(idx, n, a), n, b)
    decreases a
  {
    if a > 0 {
      AdvanceSplit(NextIdx(idx, n), n, a - 1, b);
    }
  }

  /** A schedule of `a + b` ticks is the first `a` ticks' schedule followed by the
      schedule of the next `b` ticks. */
  lemma {:induction false} ScheduleSplit(idx: Word, n: Word, a: nat, b: nat)
    ensures Schedule(idx, n, a + b) == Schedule(idx, n, a) + Schedule(Advance(idx, n, a), n, b)
    decreases a
  {
    if a > 0 {
      ScheduleSplit(NextIdx(idx, n), n, a - 1, b);
    }
  }

  /** Any `n` consecutive ticks bring the cursor back to where it started. */
  lemma FullCycleReturns(idx: Word, n: Word)
    requires idx < n
    ensures Advance(idx, n, n) == idx
  {
    AdvanceInCycle(idx, n, n);
  }

  /** Any `n` consecutive ticks switch in the slots after the cursor and then those up to
      it, each slot once, in the order the threads were created. */
  lemma CycleInCreationOrder(idx: Word, n: Word)
    requires idx < n
    ensures Schedule(idx, n, n) == Range(idx + 1, n) + Range(0, idx + 1)
  {
    var s, r := Schedule(idx, n, n), Range(idx + 1, n) + Range(0, idx + 1);
    forall t | 0 <= t < n ensures s[t] == r[t] {
      ScheduleAt(idx, n, n, t);
      AdvanceInCycle(idx, n, t + 1);
    }
  }

  /** A range holds each of its slots once and nothing else. */
  lemma {:induction false} RangeCount(lo: Word, hi: Word, j: Word)
    requires lo <= hi
    ensures multiset(Range(lo, hi))[j] == if lo <= j < hi then 1 else 0
    decreases hi - lo
  {
    if lo < hi {
      RangeCount(lo, hi - 1, j);
      assert Range(lo, hi) == Range(lo, hi - 1) + [hi - 1];
    }
  }

  /** Round-robin fairness over one cycle: `n` consecutive ticks switch in every occupied
      slot exactly once and no other slot. */
  lemma CycleVisitsEachOnce(idx: Word, n: Word, j: Word)
    requires idx < n
    ensures multiset(Schedule(idx, n, n))[j] == if j < n then 1 else 0
  {
    CycleInCreationOrder(idx, n);
    RangeCount(idx + 1, n, j);
    RangeCount(0, idx + 1, j);
  }

  /** The number of ticks in `k` full cycles over `n` slots. */
  function Cycles(k: nat, n: Word): nat
  {
    if k == 0 then 0 else Cycles(k - 1, n) + n
  }

  /** `k` cycles of `n` ticks are `k * n` ticks. */
  lemma {:induction false} CyclesIsProduct(k: nat, n: Word)
    ensures Cycles(k, n) == k * n
  {
    if k > 0 {
      CyclesIsProduct(k - 1, n);
    }
  }

  /** Any number of full cycles of ticks brings the cursor back to where it started. */
  lemma {:induction false} CyclesReturn(idx: Word, n: Word, k: nat)
    requires idx < n
    ensures Advance(idx, n, Cycles(k, n)) == idx
  {
    if k > 0 {
      CyclesReturn(idx, n, k - 1);
      AdvanceSplit(idx, n, Cycles(k - 1, n), n);
      FullCycleReturns(idx, n);
    }
  }

  /** Occurrences in a concatenation add up. */
  lemma CountConcat(a: seq<Word>, b: seq<Word>, j: Word)
    ensures multiset(a + b)[j] == multiset(a)[j] + multiset(b)[j]
  {
    assert multiset(a + b) == multiset(a) + multiset(b);
  }

  /** The schedule of `k` cycles is that of `k - 1` cycles followed by one more cycle
      from the starting slot. */
  lemma ScheduleCycles(idx: Word, n: Word, k: nat)
    requires idx < n && k > 0
    ensures Schedule(idx, n, Cycles(k, n)) == Schedule(idx, n, Cycles(k - 1, n)) + Schedule(idx, n, n)
  {
    ScheduleSplit(idx, n, Cycles(k - 1, n), n);
    CyclesReturn(idx, n, k - 1);
  }

  /** Each full cycle switches in every occupied slot once more. */
  lemma {:induction false} FairShareCycles(idx: Word, n: Word, k: nat, j: Word)
    requires idx < n
    ensures multiset(Schedule(idx, n, Cycles(k, n)))[j] == if j < n then k else 0
  {
    if k > 0 {
      var earlier: seq<Word>, last: seq<Word> := Schedule(idx, n, Cycles(k - 1, n)), Schedule(idx, n, n);
      ScheduleCycles(idx, n, k);
      CountConcat(earlier, last, j);
      FairShareCycles(idx, n, k - 1, j);
      CycleVisitsEachOnce(idx, n, j);
      assert multiset(Schedule(idx, n, Cycles(k, n)))[j] == multiset(earlier)[j] + multiset(last)[j];
    }
  }

  /** Round-robin fairness over `k` cycles: `k * n` consecutive ticks switch in every
      occupied slot exactly `k` times and no other slot. */
  lemma FairShare(idx: Word, n: Word, k: nat, j: Word)
    requires idx < n
    ensures multiset(Schedule(idx, n, k * n))[j] == if j < n then k else 0
  {
    var steps := Cycles(k, n);
    FairShareCycles(idx, n, k, j);
    CyclesIsProduct(k, n);
    assert steps == k * n;
  }
}
