/**
  The sampler loop of the monitor daemon (the `while (!main_closing)` loop of
  `main`).

  Every refresh the loop feeds the cached CPU, RAM and temperature values to
  the smoothing filters. Only every `ref_div`-th refresh does it fetch new
  values. A negative temperature reading means the thermal zone is missing:
  it is kept in the cache, which stops any further temperature fetch, and 0
  is fed instead.

  What the fetchers would return at each refresh is an input, and so are the
  clock readings of each deadline update.
*/
module Sampler {
  import opened Renderer

  /** The refresh divider (`ref_div`). */
  const RefDiv: nat := 5

  /** The refresh rate in Hz (`refresh_rate`). */
  const RefreshRate: real := 10.0

  /** `refresh_period`: one second divided by the refresh rate, truncated to whole microseconds. */
  function RefreshPeriod(): (p: nat)
    ensures p == 100000
  {
    (1000000.0 / RefreshRate).Floor
  }

  /** The loop's cached values and its divider counter. */
  datatype State = State(cpuCache: real, ramCache: real, tempCache: real, divCounter: int)

  /** What `fetchCpu`, `fetchRam` and `fetchTemp` would return at one refresh. */
  datatype Reading = Reading(cpu: real, ram: real, temp: real)

  /** The three values one refresh feeds to the filters. */
  datatype Fed = Fed(cpu: real, ram: real, temp: real)

  /** The state before the first refresh: all caches and the counter 0. */
  function Initial(): (s: State)
    ensures s.divCounter == 0 && s.tempCache >= 0.0
  {
    State(0.0, 0.0, 0.0, 0)
  }

  /** The temperature sensor has been found missing. */
  predicate TempMissing(s: State) {
    s.tempCache < 0.0
  }

  /** The next refresh from `s` fetches: the incremented counter reaches `ref_div`. */
  predicate Fetches(s: State) {
    s.divCounter + 1 >= RefDiv
  }

  /**
    One refresh: increment the counter; when it reaches `ref_div`, fetch CPU
    and RAM, fetch the temperature unless it is already known to be missing,
    and reset the counter.
  */
  function Step(s: State, r: Reading): (n: State)
    ensures Fetches(s) ==> n.divCounter == 0 && n.cpuCache == r.cpu && n.ramCache == r.ram
    ensures Fetches(s) && !TempMissing(s) ==> n.tempCache == r.temp
    ensures !Fetches(s) ==> n == s.(divCounter := s.divCounter + 1)
    ensures TempMissing(s) ==> n.tempCache == s.tempCache
  {
    var counter := s.divCounter + 1;
    if counter >= RefDiv then
      State(r.cpu, r.ram, if s.tempCache >= 0.0 then r.temp else s.tempCache, 0)
    else
      s.(divCounter := counter)
  }

  /** The values fed to the filters after a refresh has reached state `s`; a missing sensor feeds 0. */
  function Feed(s: State): (f: Fed)
    ensures f.cpu == s.cpuCache && f.ram == s.ramCache
    ensures f.temp >= 0.0
    ensures TempMissing(s) <==> f.temp != s.tempCache
  {
    Fed(s.cpuCache, s.ramCache, if s.tempCache < 0.0 then 0.0 else s.tempCache)
  }

  /** The state after one refresh per reading, the first reading first. */
  function Run(s: State, rs: seq<Reading>): (r: State)
    ensures 0 <= s.divCounter < RefDiv ==> 0 <= r.divCounter < RefDiv
    ensures TempMissing(s) ==> r.tempCache == s.tempCache
    decreases |rs|
  {
    if |rs| == 0 then s else Step(Run(s, rs[..|rs| - 1]), rs[|rs| - 1])
  }

  /** From the initial state, the counter after `n` refreshes is `n mod ref_div`. */
  lemma {:induction false} CounterIsRefreshesMod(rs: seq<Reading>)
    ensures Run(Initial(), rs).divCounter == |rs| % RefDiv
    decreases |rs|
  {
    if |rs| > 0 {
      CounterIsRefreshesMod(rs[..|rs| - 1]);
    }
  }

  /** Refresh number `n + 1` fetches exactly when `n + 1` is a multiple of `ref_div`: refreshes 5, 10, 15, ... */
  lemma FetchSchedule(rs: seq<Reading>)
    ensures Fetches(Run(Initial(), rs)) <==> (|rs| + 1) % RefDiv == 0
  {
    CounterIsRefreshesMod(rs);
  }

  /** A refresh that does not fetch reads nothing: it feeds the same values whatever the fetchers would return. */
  lemma NoFetchIgnoresReadings(s: State, r1: Reading, r2: Reading)
    requires !Fetches(s)
    ensures Step(s, r1) == Step(s, r2)
    ensures Feed(Step(s, r1)) == Feed(s)
  {
  }

  /** A temperature fetch that returns a negative value marks the sensor missing. */
  lemma MissingSensorLatches(s: State, r: Reading)
    requires Fetches(s) && !TempMissing(s) && r.temp < 0.0
    ensures TempMissing(Step(s, r))
    ensures Feed(Step(s, r)).temp == 0.0
  {
  }

  /** Once the sensor is missing it stays missing, the cached value never changes, and 0 is fed. */
  lemma {:induction false} MissingSensorIsPermanent(s: State, rs: seq<Reading>)
    requires TempMissing(s)
    ensures Run(s, rs).tempCache == s.tempCache
    ensures Feed(Run(s, rs)).temp == 0.0
    decreases |rs|
  {
    if |rs| > 0 {
      MissingSensorIsPermanent(s, rs[..|rs| - 1]);
    }
  }

  /** Two runs that agree on the CPU and RAM readings. */
  predicate SameCpuRam(rs1: seq<Reading>, rs2: seq<Reading>) {
    |rs1| == |rs2| &&
    forall k :: 0 <= k < |rs1| ==> rs1[k].cpu == rs2[k].cpu && rs1[k].ram == rs2[k].ram
  }

  /**
    Once the sensor is missing, the temperature is never fetched again: what
    `fetchTemp` would return has no effect on any later state.
  */
  lemma {:induction false} MissingSensorNeverRead(s: State, rs1: seq<Reading>, rs2: seq<Reading>)
    requires TempMissing(s) && SameCpuRam(rs1, rs2)
    ensures Run(s, rs1) == Run(s, rs2)
    decreases |rs1|
  {
    if |rs1| > 0 {
      var n := |rs1| - 1;
      assert SameCpuRam(rs1[..n], rs2[..n]);
      MissingSensorNeverRead(s, rs1[..n], rs2[..n]);
      MissingSensorIsPermanent(s, rs1[..n]);
    }
  }

  /** The deadline refresh `k` advances from: `start` for the first refresh, the previous deadline otherwise. */
  function RefreshStart(deadlines: seq<int>, start: int, k: nat): int
    requires k <= |deadlines|
  {
    if k == 0 then start else deadlines[k - 1]
  }

  /** The refresh deadline of each of `n` refreshes, advanced from the one before by one refresh period. */
  predicate ChainedRefreshes(deadlines: seq<int>, start: int, clock: seq<ClockReads>, n: nat)
    requires n <= |deadlines| && n <= |clock|
  {
    forall k {:trigger RefreshStart(deadlines, start, k)} :: 0 <= k < n ==>
      deadlines[k] == NextDeadline(RefreshStart(deadlines, start, k), RefreshPeriod(), clock[k])
  }

  /** The values the sampler loop feeds at each of a sequence of refreshes, from the initial state. */
  method SampleFeeds(readings: seq<Reading>) returns (fed: seq<Fed>, final: State)
    ensures |fed| == |readings|
    ensures forall k :: 0 <= k < |readings| ==> fed[k] == Feed(Run(Initial(), readings[..k + 1]))
    ensures final == Run(Initial(), readings)
  {
    final := Initial();
    fed := [];
    var i := 0;
    while i < |readings|
      invariant 0 <= i <= |readings|
      invariant |fed| == i
      invariant final == Run(Initial(), readings[..i])
      invariant forall k :: 0 <= k < i ==> fed[k] == Feed(Run(Initial(), readings[..k + 1]))
    {
      assert readings[..i + 1][..i] == readings[..i];
      final := Step(final, readings[i]);
      fed := fed + [Feed(final)];
      i := i + 1;
    }
    assert readings[..i] == readings;
  }

  /** The deadline the sampler loop sleeps until after each refresh, starting from `start`. */
  method RefreshDeadlines(clock: seq<ClockReads>, start: int) returns (deadlines: seq<int>)
    ensures |deadlines| == |clock|
    ensures ChainedRefreshes(deadlines, start, clock, |clock|)
  {
    var last := start;
    deadlines := [];
    var i := 0;
    while i < |clock|
      invariant 0 <= i <= |clock|
      invariant |deadlines| == i
      invariant ChainedRefreshes(deadlines, start, clock, i)
      invariant last == RefreshStart(deadlines, start, i)
    {
      var prev := deadlines;
      last := NextDeadline(last, RefreshPeriod(), clock[i]);
      deadlines := deadlines + [last];
      assert forall k :: 0 <= k < i ==> deadlines[k] == prev[k] && RefreshStart(deadlines, start, k) == RefreshStart(prev, start, k);
      assert RefreshStart(deadlines, start, i) == RefreshStart(prev, start, i);
      i := i + 1;
    }
  }

  /** With a clock that never runs backwards, refresh `k` sleeps at least `k + 1` refresh periods after the start. */
  lemma {:induction false} RefreshesKeepPace(deadlines: seq<int>, start: int, clock: seq<ClockReads>, k: nat)
    requires |deadlines| == |clock| && k < |deadlines|
    requires ChainedRefreshes(deadlines, start, clock, |deadlines|)
    requires forall j :: 0 <= j < |clock| ==> Monotone(clock[j])
    ensures deadlines[k] >= start + (k + 1) * RefreshPeriod()
    ensures deadlines[k] >= clock[k].compared
    decreases k
  {
    var prev := RefreshStart(deadlines, start, k);
    assert deadlines[k] == NextDeadline(prev, RefreshPeriod(), clock[k]);
    NextDeadlineBounds(prev, RefreshPeriod(), clock[k]);
    if k > 0 {
      RefreshesKeepPace(deadlines, start, clock, k - 1);
    }
  }
}
