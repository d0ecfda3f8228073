/**
  The renderer loop of the monitor daemon (`PWM()`) and the deadline rule it
  shares with the sampler loop.

  Each pass of the loop takes the newest snapshot of bit planes if the lock is
  free, and idles when the snapshot is not complete yet. Otherwise it plays
  one cycle of `pwm_res` slots: slot `i` advances the deadline by the binary
  weighted period `250 * 2^i` microseconds, sends plane `(i + 1) mod pwm_res`,
  waits for the deadline and latches the plane. The plane latched in slot `i`
  therefore stays on the LEDs until the next slot's deadline, one period of
  the next slot later.

  Time is an integer number of microseconds: the clock readings are taken at
  microsecond granularity, so lateness below a microsecond, which the
  daemon's `high_resolution_clock` comparisons can see, is not modelled. The
  clock is an input: every
  deadline update reads it twice (once to compare, once to reset), and the
  two readings are passed in.
*/
module Renderer {
  import opened Common
  import opened Planes
  import opened Transmitter

  /** Hold time of the least significant plane (`pwm_lsb_period`), in microseconds. */
  const LsbPeriod: nat := 250

  /** `pwm_periods[i]`: each more significant plane is held twice as long. */
  function Period(i: nat): (p: nat)
    ensures p >= LsbPeriod
  {
    LsbPeriod * Pow2(i)
  }

  /** The least significant plane is held for `pwm_lsb_period`, and each further plane twice as long as the one before. */
  lemma PeriodsDouble(i: nat)
    ensures Period(0) == LsbPeriod
    ensures Period(i + 1) == 2 * Period(i)
  {
  }

  /** The two clock readings one deadline update takes. */
  datatype ClockReads = ClockReads(compared: int, restart: int)

  /** The readings come from a clock that did not go backwards between them. */
  predicate Monotone(r: ClockReads) {
    r.restart >= r.compared
  }

  /**
    `next += p; if (next < now()) next = now() + p;`: advance by one period,
    and if that is already in the past, restart one period from now rather
    than catching up.
  */
  function NextDeadline(prev: int, p: nat, r: ClockReads): (next: int)
    ensures Monotone(r) ==> next >= prev + p && next >= r.compared
    ensures prev + p >= r.compared ==> next == prev + p
    ensures prev + p < r.compared ==> next == r.restart + p
  {
    var next := prev + p;
    if next < r.compared then r.restart + p else next
  }

  /** With a clock that does not go backwards the deadline never moves back and is never in the past. */
  lemma NextDeadlineBounds(prev: int, p: nat, r: ClockReads)
    requires Monotone(r)
    ensures NextDeadline(prev, p, r) >= prev + p
    ensures NextDeadline(prev, p, r) >= r.compared
    ensures NextDeadline(prev, p, r) >= r.compared + p || NextDeadline(prev, p, r) == prev + p
  {
  }

  /** One transmitted slot of a cycle: which plane, its frame, and when it is latched. */
  datatype Slot = Slot(plane: nat, frame: Frame, deadline: int)

  /** The plane slot `i` of a cycle sends. */
  function SlotPlane(i: nat): (j: nat)
    ensures j < PwmRes
  {
    (i + 1) % PwmRes
  }

  /** The deadline slot `i` starts from: the cycle's starting deadline for slot 0, the previous slot's otherwise. */
  function StartOf(slots: seq<Slot>, next: int, i: nat): int
    requires i <= |slots|
  {
    if i == 0 then next else slots[i - 1].deadline
  }

  /** The deadlines of slots `0 .. n - 1`, each advanced from the one before by its slot's period. */
  predicate ChainedDeadlines(slots: seq<Slot>, next: int, clock: seq<ClockReads>, n: nat)
    requires n <= |slots| && n <= |clock|
  {
    forall i {:trigger StartOf(slots, next, i)} :: 0 <= i < n ==>
      slots[i].deadline == NextDeadline(StartOf(slots, next, i), Period(i), clock[i])
  }

  /** Appending a slot whose deadline follows the chain extends the chain by one. */
  lemma ChainedExtend(slots: seq<Slot>, next: int, clock: seq<ClockReads>, s: Slot)
    requires |slots| < |clock| && ChainedDeadlines(slots, next, clock, |slots|)
    requires s.deadline == NextDeadline(StartOf(slots, next, |slots|), Period(|slots|), clock[|slots|])
    ensures ChainedDeadlines(slots + [s], next, clock, |slots| + 1)
    ensures StartOf(slots + [s], next, |slots| + 1) == s.deadline
  {
    var t := slots + [s];
    forall k | 0 <= k < |slots| + 1
      ensures t[k].deadline == NextDeadline(StartOf(t, next, k), Period(k), clock[k])
    {
      assert StartOf(t, next, k) == StartOf(slots, next, k);
      if k < |slots| {
        assert t[k] == slots[k];
      }
    }
    assert ChainedDeadlines(t, next, clock, |slots| + 1);
  }

  /** Slots `0 .. n - 1` each play plane `SlotPlane(k)` of `kept`. */
  predicate PlaysPlanes(slots: seq<Slot>, kept: seq<Frame>, n: nat)
    requires n <= |slots| && |kept| >= PwmRes
  {
    forall k :: 0 <= k < n ==> slots[k].plane == SlotPlane(k) && slots[k].frame == kept[SlotPlane(k)]
  }

  /** The `for` loop of one cycle: send plane `(i + 1) mod pwm_res` of `kept` and latch it at the next deadline. */
  method PlayCycle(kept: seq<Frame>, next: int, clock: seq<ClockReads>) returns (slots: seq<Slot>, last: int)
    requires |kept| >= PwmRes && |clock| == PwmRes
    ensures |slots| == PwmRes
    ensures PlaysPlanes(slots, kept, PwmRes)
    ensures ChainedDeadlines(slots, next, clock, PwmRes)
    ensures last == slots[PwmRes - 1].deadline
  {
    slots := [];
    last := next;
    var i := 0;
    while i < PwmRes
      invariant 0 <= i <= PwmRes
      invariant |slots| == i
      invariant PlaysPlanes(slots, kept, i)
      invariant ChainedDeadlines(slots, next, clock, i)
      invariant last == StartOf(slots, next, i)
    {
      last := NextDeadline(last, Period(i), clock[i]);
      var s := Slot(SlotPlane(i), kept[SlotPlane(i)], last);
      ChainedExtend(slots, next, clock, s);
      slots := slots + [s];
      i := i + 1;
    }
  }

  /**
    One pass of the renderer loop. `copied` is the snapshot taken when the
    lock was free (`None` when it was taken); `clock` are the clock readings of
    the cycle's deadline updates. Returns the snapshot kept for the next pass,
    the slots played and the deadline reached; a snapshot with fewer than
    `pwm_res` planes plays nothing.
  */
  method PwmPass(local: seq<Frame>, copied: Option<seq<Frame>>, next: int, clock: seq<ClockReads>)
    returns (kept: seq<Frame>, slots: seq<Slot>, last: int)
    requires |clock| == PwmRes
    ensures kept == if copied.Some? then copied.value else local
    ensures |kept| < PwmRes ==> slots == [] && last == next
    ensures |kept| >= PwmRes ==> |slots| == PwmRes && PlaysPlanes(slots, kept, PwmRes)
    ensures |kept| >= PwmRes ==> ChainedDeadlines(slots, next, clock, PwmRes)
    ensures |kept| >= PwmRes ==> last == slots[PwmRes - 1].deadline
  {
    kept := if copied.Some? then copied.value else local;
    if |kept| < PwmRes {
      slots, last := [], next;
    } else {
      slots, last := PlayCycle(kept, next, clock);
    }
  }

  /** The slot of a cycle that plays plane `j`. */
  function SlotOf(j: nat): (i: nat)
    ensures i < PwmRes
  {
    (j + PwmRes - 1) % PwmRes
  }

  /** Slots and planes correspond one to one: `SlotOf` inverts `SlotPlane` both ways. */
  lemma SlotPlaneBijective(i: nat, j: nat)
    requires i < PwmRes && j < PwmRes
    ensures SlotPlane(SlotOf(j)) == j
    ensures SlotOf(SlotPlane(i)) == i
    ensures SlotPlane(i) == j <==> i == SlotOf(j)
  {
  }

  /** Every plane is played in some slot of a cycle, and in no other slot. */
  lemma CycleCoversPlanes(slots: seq<Slot>)
    requires |slots| == PwmRes && forall i :: 0 <= i < PwmRes ==> slots[i].plane == SlotPlane(i)
    ensures forall j :: 0 <= j < PwmRes ==> slots[SlotOf(j)].plane == j
    ensures forall i, j :: 0 <= i < PwmRes && 0 <= j < PwmRes && slots[i].plane == j ==> i == SlotOf(j)
  {
    forall j | 0 <= j < PwmRes
      ensures slots[SlotOf(j)].plane == j
    {
      SlotPlaneBijective(0, j);
    }
    forall i, j | 0 <= i < PwmRes && 0 <= j < PwmRes && slots[i].plane == j
      ensures i == SlotOf(j)
    {
      SlotPlaneBijective(i, j);
    }
  }

  /** No deadline of a cycle was reset: every update only added its period. */
  predicate OnTime(slots: seq<Slot>, next: int)
  {
    forall i {:trigger StartOf(slots, next, i)} :: 0 <= i < |slots| ==> slots[i].deadline == StartOf(slots, next, i) + Period(i)
  }

  /** In an on-time cycle, consecutive latches are one period of the later slot apart. */
  lemma OnTimeStep(slots: seq<Slot>, next: int, i: nat)
    requires OnTime(slots, next) && i < |slots|
    ensures slots[i].deadline - StartOf(slots, next, i) == Period(i)
  {
  }

  /**
    Hold times without catch-up: in two consecutive on-time cycles, the plane
    latched in slot `i` of the first stays on until the next latch, which
    comes exactly the period of that plane later.
  */
  lemma HoldTimes(first: seq<Slot>, second: seq<Slot>, next: int, i: nat)
    requires |first| == PwmRes && |second| == PwmRes && i < PwmRes
    requires forall k :: 0 <= k < PwmRes ==> first[k].plane == SlotPlane(k)
    requires OnTime(first, next) && OnTime(second, first[PwmRes - 1].deadline)
    ensures var nextLatch := if i + 1 < PwmRes then first[i + 1].deadline else second[0].deadline;
            nextLatch - first[i].deadline == Period(first[i].plane)
  {
    var p := first[i].plane;
    assert p == if i + 1 < PwmRes then i + 1 else 0 by {
      assert p == SlotPlane(i);
    }
    if i + 1 < PwmRes {
      OnTimeStep(first, next, i + 1);
    } else {
      OnTimeStep(second, first[PwmRes - 1].deadline, 0);
    }
  }

  /** An on-time cycle is one where no clock reading was later than the deadline it was compared with. */
  lemma OnTimeWhenNotLate(slots: seq<Slot>, next: int, clock: seq<ClockReads>)
    requires |slots| == PwmRes && |clock| == PwmRes
    requires ChainedDeadlines(slots, next, clock, PwmRes)
    requires forall i :: 0 <= i < PwmRes ==> clock[i].compared <= StartOf(slots, next, i) + Period(i)
    ensures OnTime(slots, next)
  {
  }

  /** The events of a cycle: each slot's frame sent and then latched. */
  function SlotEvents(slots: seq<Slot>): (t: seq<Event>)
    decreases |slots|
  {
    if |slots| == 0 then [] else SlotEvents(slots[..|slots| - 1]) + SendFrame16(slots[|slots| - 1].frame) + CommitFrame()
  }

  /** After a cycle the driver shows the frame of its last slot: plane 0 of the snapshot. */
  lemma CycleEndsOnLastSlot(d: Driver, slots: seq<Slot>)
    requires |slots| > 0
    ensures Run(d, SlotEvents(slots)).shown == slots[|slots| - 1].frame
  {
    SendAndCommitShowsAfter(d, SlotEvents(slots[..|slots| - 1]), slots[|slots| - 1].frame);
  }

  /** The last slot of a cycle plays plane 0. */
  lemma LastSlotIsPlaneZero()
    ensures SlotPlane(PwmRes - 1) == 0
  {
  }
}
