/**
 The cached system clock (src/base/app_utility.cpp).

 Every call to gettimeofday is answered by a fixed but arbitrary `source`, so
 that a statement about every `source` is a statement about every behaviour of
 the operating system.
 */
module Clock {
  import opened Base

  /** One answer of gettimeofday, in microseconds. */
  datatype Reading = Failed | Now(us: int)

  /** The two static caches, and the number of gettimeofday calls so far. */
  datatype ClockState = ClockState(cacheUs: int, startupUs: int, calls: nat)

  const SYS_TIME_RESOLUTION_US := 300 * 1000
  const JUMP_US := 1000 * SYS_TIME_RESOLUTION_US

  const COLD := ClockState(0, 0, 0)

  /** The clock after srs_update_system_time_ms got the answer `r`. */
  function Absorb(c: ClockState, r: Reading): ClockState {
    var d := c.(calls := c.calls + 1);
    if r.Failed? then
      d
    else if c.cacheUs <= 0 then
      d.(cacheUs := r.us, startupUs := r.us)
    else
      var diff := Max(0, r.us - c.cacheUs);
      d.(cacheUs := r.us, startupUs := if diff > JUMP_US then c.startupUs + diff else c.startupUs)
  }

  /** The clock after srs_get_system_time_ms, which refreshes only a cold cache. */
  function Warm(source: nat -> Reading, c: ClockState): ClockState {
    if c.cacheUs <= 0 then Absorb(c, source(c.calls)) else c
  }

  /** The clock after it has been read `n` times. */
  function WarmTimes(source: nat -> Reading, c: ClockState, n: nat): ClockState {
    if n == 0 then c else Warm(source, WarmTimes(source, c, n - 1))
  }

  /** The milliseconds that a clock in state `c` reports. */
  function Ms(c: ClockState): int {
    TruncDiv(c.cacheUs, 1000)
  }

  class SystemClock {
    const source: nat -> Reading
    var cacheUs: int
    var startupUs: int
    var calls: nat

    ghost function View(): ClockState
      reads this
    {
      ClockState(cacheUs, startupUs, calls)
    }

    constructor (source: nat -> Reading)
      ensures this.source == source && View() == COLD
    {
      this.source := source;
      cacheUs, startupUs, calls := 0, 0, 0;
    }

    /** srs_update_system_time_ms */
    method Update()
      modifies this
      ensures View() == Absorb(old(View()), source(old(calls)))
      ensures calls == old(calls) + 1
      ensures source(old(calls)).Failed? ==> cacheUs == old(cacheUs) && startupUs == old(startupUs)
      ensures source(old(calls)).Now? ==> cacheUs == source(old(calls)).us
    {
      var reading := source(calls);
      calls := calls + 1;
      if reading.Failed? {
        return;
      }
      if cacheUs <= 0 {
        cacheUs := reading.us;
        startupUs := reading.us;
        return;
      }
      var diff := reading.us - cacheUs;
      diff := Max(0, diff);
      if diff < 0 || diff > 1000 * SYS_TIME_RESOLUTION_US {
        startupUs := startupUs + diff;
      }
      cacheUs := reading.us;
    }

    /** srs_get_system_time_ms */
    method GetMs() returns (ms: int)
      modifies this
      ensures View() == Warm(source, old(View()))
      ensures ms == Ms(View())
      ensures old(cacheUs) > 0 ==> View() == old(View()) && ms == cacheUs / 1000
      ensures old(cacheUs) <= 0 && source(old(calls)).Failed? ==> cacheUs == old(cacheUs)
      ensures old(cacheUs) <= 0 && source(old(calls)).Now? && source(old(calls)).us > 0 ==>
                cacheUs == startupUs == source(old(calls)).us && ms == cacheUs / 1000
    {
      if cacheUs <= 0 {
        Update();
      }
      ms := TruncDiv(cacheUs, 1000);
    }
  }

  // ----- whole histories of readings

  /** The clock `c` after it was updated with the readings `rs`, oldest first. */
  function After(c: ClockState, rs: seq<Reading>): ClockState {
    if rs == [] then c else Absorb(After(c, rs[..|rs| - 1]), rs[|rs| - 1])
  }

  function Replay(rs: seq<Reading>): ClockState {
    After(COLD, rs)
  }

  /** The answers of gettimeofday to `n` calls, the first of which is call number `first`. */
  function Answers(source: nat -> Reading, first: nat, n: nat): seq<Reading> {
    seq(n, i requires 0 <= i < n => source(first + i))
  }

  lemma {:induction false} AfterCalls(c: ClockState, rs: seq<Reading>)
    ensures After(c, rs).calls == c.calls + |rs|
  {
    if rs != [] {
      AfterCalls(c, rs[..|rs| - 1]);
    }
  }

  lemma AfterOneMore(source: nat -> Reading, c: ClockState, n: nat)
    ensures var d := After(c, Answers(source, c.calls, n));
            d.calls == c.calls + n && Absorb(d, source(d.calls)) == After(c, Answers(source, c.calls, n + 1))
  {
    AfterCalls(c, Answers(source, c.calls, n));
    var rs := Answers(source, c.calls, n + 1);
    assert rs[..n] == Answers(source, c.calls, n) && rs[n] == source(c.calls + n);
  }

  /** The reported milliseconds are whole thousandths of the cached microseconds. */
  lemma MsIsThousandth(c: ClockState)
    requires c.cacheUs >= 0
    ensures Ms(c) == c.cacheUs / 1000
  {
  }

  /** The successful readings, oldest first. */
  function Successes(rs: seq<Reading>): seq<int> {
    if rs == [] then []
    else
      var before := Successes(rs[..|rs| - 1]);
      if rs[|rs| - 1].Failed? then before else before + [rs[|rs| - 1].us]
  }

  /** The sum of the steps between neighbouring readings that are not jumps, backward steps included. */
  function PlainSteps(us: seq<int>): int {
    if |us| <= 1 then 0
    else
      var step := us[|us| - 1] - us[|us| - 2];
      PlainSteps(us[..|us| - 1]) + if step > 300_000_000 then 0 else step
  }

  predicate Positive(rs: seq<Reading>) {
    forall r :: r in rs && r.Now? ==> r.us > 0
  }

  /** The clock after the successful readings `us`: its uptime, and the reading that it caches. */
  predicate Cached(c: ClockState, us: seq<int>) {
    && c.cacheUs - c.startupUs == PlainSteps(us)
    && if us == [] then c.cacheUs == 0 else c.cacheUs == us[|us| - 1] > 0
  }

  /** Cached time minus startup time is the run time with the forward jumps over 300 s taken out. */
  lemma {:induction false} UptimeIgnoresJumps(rs: seq<Reading>)
    requires Positive(rs)
    ensures Cached(Replay(rs), Successes(rs))
  {
    if rs != [] {
      var before, last := rs[..|rs| - 1], rs[|rs| - 1];
      assert last in rs && forall r :: r in before ==> r in rs;
      UptimeIgnoresJumps(before);
      UptimeStep(Replay(before), Successes(before), last);
    }
  }

  lemma UptimeStep(c: ClockState, us: seq<int>, r: Reading)
    requires Cached(c, us) && (r.Now? ==> r.us > 0)
    ensures Cached(Absorb(c, r), if r.Failed? then us else us + [r.us])
  {
    if r.Now? {
      PlainStepsOneMore(us, r.us);
    }
  }

  lemma PlainStepsOneMore(us: seq<int>, u: int)
    ensures PlainSteps(us + [u])
         == if us == [] then 0
            else PlainSteps(us) + if u - us[|us| - 1] > 300_000_000 then 0 else u - us[|us| - 1]
  {
    assert (us + [u])[..|us|] == us;
  }

  /** The startup time is only ever moved forward, however the readings jump. */
  lemma {:induction false} StartupNeverDecreases(rs: seq<Reading>, n: nat)
    requires Positive(rs) && n <= |rs|
    ensures Replay(rs[..n]).startupUs <= Replay(rs).startupUs
    decreases |rs| - n
  {
    if n == |rs| {
      assert rs[..n] == rs;
    } else {
      assert rs[..n + 1][..n] == rs[..n];
      UptimeIgnoresJumps(rs[..n]);
      assert rs[n] in rs;
      StartupZeroWhileCold(rs[..n]);
      StartupNeverDecreases(rs, n + 1);
    }
  }

  lemma {:induction false} StartupZeroWhileCold(rs: seq<Reading>)
    requires Positive(rs)
    ensures Replay(rs).cacheUs >= 0
    ensures Replay(rs).cacheUs == 0 ==> Replay(rs).startupUs == 0
  {
    UptimeIgnoresJumps(rs);
    if rs != [] {
      StartupZeroWhileCold(rs[..|rs| - 1]);
    }
  }
}
