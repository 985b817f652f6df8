/** The tick loop of SrsServer::do_cycle (src/base/app_server.cpp:273-330), which refreshes the clock. */
module Ticks {
  import opened Base
  import opened Clock

  const SRS_SYS_CYCLE_INTERVAL := 100
  const SRS_SYS_TIME_RESOLUTION_MS_TIMES := 3

  /** get_heartbeat_interval, in ms */
  const HEARTBEAT_INTERVAL := 9900

  /** How often the inner loop ticks when the heartbeat interval is `heartbeat`. */
  function Bound(heartbeat: int): int {
    Max(Max(0, SRS_SYS_TIME_RESOLUTION_MS_TIMES), Narrow32(TruncDiv(heartbeat, SRS_SYS_CYCLE_INTERVAL)))
  }

  /** One pass of the inner loop: which ticks refresh the clock. */
  function Pass(n: nat): seq<bool> {
    seq(n, i => i % SRS_SYS_TIME_RESOLUTION_MS_TIMES == 0)
  }

  /** All ticks of the passes that begin with the given heartbeat intervals. */
  function Log(hs: seq<int>): seq<bool> {
    if hs == [] then [] else Log(hs[..|hs| - 1]) + Pass(Bound(hs[|hs| - 1]))
  }

  /** How many of the ticks refreshed the clock. */
  function Refreshes(log: seq<bool>): nat {
    if log == [] then 0 else Refreshes(log[..|log| - 1]) + if log[|log| - 1] then 1 else 0
  }

  lemma {:induction false} RefreshesAreTrue(log: seq<bool>)
    ensures Refreshes(log) == multiset(log)[true]
  {
    if log != [] {
      RefreshesAreTrue(log[..|log| - 1]);
      assert log == log[..|log| - 1] + [log[|log| - 1]];
    }
  }

  /**
   do_cycle, for as many passes as there are heartbeat intervals; the source goes on for ever. `log` says
   of every tick whether it refreshed the clock: gettimeofday was called once for each that did, and the
   clock has absorbed all the answers.
   */
  method DoCycle(heartbeats: seq<int>, clock: SystemClock) returns (log: seq<bool>)
    modifies clock
    ensures log == Log(heartbeats)
    ensures clock.calls == old(clock.calls) + multiset(log)[true]
    ensures clock.View() == After(old(clock.View()), Answers(clock.source, old(clock.calls), Refreshes(log)))
  {
    log := [];
    var max := Max(0, SRS_SYS_TIME_RESOLUTION_MS_TIMES);
    var pass := 0;
    while pass < |heartbeats|
      invariant pass <= |heartbeats| && log == Log(heartbeats[..pass])
      invariant clock.View() == After(old(clock.View()), Answers(clock.source, old(clock.calls), Refreshes(log)))
    {
      var heartbeatMaxResolution := Narrow32(TruncDiv(heartbeats[pass], SRS_SYS_CYCLE_INTERVAL));
      log := OnePass(Max(max, heartbeatMaxResolution), log, clock, old(clock.View()));
      assert heartbeats[..pass + 1][..pass] == heartbeats[..pass];
      pass := pass + 1;
    }
    assert heartbeats[..pass] == heartbeats;
    AfterCalls(old(clock.View()), Answers(clock.source, old(clock.calls), Refreshes(log)));
    RefreshesAreTrue(log);
  }

  /** The inner loop */
  method OnePass(max: nat, before: seq<bool>, clock: SystemClock, ghost start: ClockState) returns (log: seq<bool>)
    requires clock.View() == After(start, Answers(clock.source, start.calls, Refreshes(before)))
    modifies clock
    ensures log == before + Pass(max)
    ensures clock.View() == After(start, Answers(clock.source, start.calls, Refreshes(log)))
  {
    log := before;
    ghost var k := Refreshes(before);
    var i := 0;
    while i < max
      invariant 0 <= i <= max && log == before + Pass(i) && k == Refreshes(log)
      invariant clock.View() == After(start, Answers(clock.source, start.calls, k))
    {
      var refresh := i % SRS_SYS_TIME_RESOLUTION_MS_TIMES == 0;
      RefreshesOneMore(log, refresh);
      PassOneMore(before, i);
      if refresh {
        AfterOneMore(clock.source, start, k);
        clock.Update();
        k := k + 1;
      }
      log := log + [refresh];
      i := i + 1;
    }
  }

  lemma RefreshesOneMore(log: seq<bool>, b: bool)
    ensures Refreshes(log + [b]) == Refreshes(log) + if b then 1 else 0
  {
    assert (log + [b])[..|log|] == log;
  }

  lemma PassOneMore(before: seq<bool>, n: nat)
    ensures before + Pass(n) + [n % SRS_SYS_TIME_RESOLUTION_MS_TIMES == 0] == before + Pass(n + 1)
  {
    assert Pass(n + 1)[..n] == Pass(n);
  }

  /** A pass ticks once per 100 ms of the interval, but never less than three times. */
  lemma BoundIs(h: int)
    requires 0 <= h < 100 * 0x8000_0000
    ensures Bound(h) == if h < 300 then 3 else h / 100
  {
  }

  function Sum(ns: seq<int>): int {
    if ns == [] then 0 else Sum(ns[..|ns| - 1]) + ns[|ns| - 1]
  }

  /** Every pass makes all its ticks. */
  lemma {:induction false} AllTicksAreLogged(hs: seq<int>)
    ensures |Log(hs)| == Sum(seq(|hs|, i requires 0 <= i < |hs| => Bound(hs[i])))
  {
    if hs != [] {
      var before := hs[..|hs| - 1];
      AllTicksAreLogged(before);
      var bounds := seq(|hs|, i requires 0 <= i < |hs| => Bound(hs[i]));
      assert bounds[..|bounds| - 1] == seq(|before|, i requires 0 <= i < |before| => Bound(before[i]));
    }
  }

  /** If every inner bound is a multiple of 3, exactly the global ticks divisible by 3 refresh. */
  lemma {:induction false} RegularTicks(hs: seq<int>, g: nat)
    requires forall i :: 0 <= i < |hs| ==> Bound(hs[i]) % 3 == 0
    requires g < |Log(hs)|
    ensures Log(hs)[g] <==> g % 3 == 0
  {
    var before := hs[..|hs| - 1];
    LogLength(before);
    if g < |Log(before)| {
      RegularTicks(before, g);
    } else {
      RegularPass(Log(before), Bound(hs[|hs| - 1]), g);
    }
  }

  lemma {:induction false} LogLength(hs: seq<int>)
    requires forall i :: 0 <= i < |hs| ==> Bound(hs[i]) % 3 == 0
    ensures |Log(hs)| % 3 == 0
  {
    if hs != [] {
      LogLength(hs[..|hs| - 1]);
      RegularPass(Log(hs[..|hs| - 1]), Bound(hs[|hs| - 1]), 0);
    }
  }

  lemma RegularPass(log: seq<bool>, n: nat, g: nat)
    requires |log| % 3 == 0
    ensures |log| <= g < |log| + n ==> ((log + Pass(n))[g] <==> g % 3 == 0)
    ensures n % 3 == 0 ==> |log + Pass(n)| % 3 == 0
  {
    assert (g - |log|) % 3 == g % 3;
  }

  function Repeat(h: int, n: nat): seq<int> {
    seq(n, _ => h)
  }

  ghost predicate Regular(h: int) {
    forall n: nat, g: nat :: g < |Log(Repeat(h, n))| ==> (Log(Repeat(h, n))[g] <==> g % 3 == 0)
  }

  /** With a constant heartbeat interval this happens exactly when its bound is a multiple of 3. */
  lemma {:induction false} RegularIff(h: int)
    ensures Regular(h) <==> Bound(h) % 3 == 0
  {
    if Bound(h) % 3 == 0 {
      forall n: nat, g: nat | g < |Log(Repeat(h, n))|
        ensures Log(Repeat(h, n))[g] <==> g % 3 == 0
      {
        RegularTicks(Repeat(h, n), g);
      }
    } else {
      // the first tick of the second pass refreshes
      assert Repeat(h, 2)[..1] == Repeat(h, 1) && Repeat(h, 1)[..0] == [];
      assert Log(Repeat(h, 1)) == Pass(Bound(h));
      assert Log(Repeat(h, 2))[Bound(h)];
    }
  }

  /** As configured, the bound is 99: the clock is refreshed on exactly every third tick. */
  lemma ConfiguredTicksAreRegular()
    ensures Bound(HEARTBEAT_INTERVAL) == 99 && Regular(HEARTBEAT_INTERVAL)
  {
    RegularIff(HEARTBEAT_INTERVAL);
  }

  /** Of any three ticks in a row one refreshes, and so does the first of all. */
  predicate Dense(log: seq<bool>) {
    && (forall g :: 0 <= g < |log| - 2 ==> log[g] || log[g + 1] || log[g + 2])
    && (log != [] ==> log[0])
  }

  lemma DensePass(log: seq<bool>, n: nat)
    requires Dense(log) && n >= 3
    ensures Dense(log + Pass(n))
  {
    var both := log + Pass(n);
    forall g | 0 <= g < |both| - 2
      ensures both[g] || both[g + 1] || both[g + 2]
    {
      if |log| <= g {
        var i := g - |log|;
        assert i % 3 == 0 || (i + 1) % 3 == 0 || (i + 2) % 3 == 0;
      } else if |log| <= g + 2 {
        assert both[|log|] == Pass(n)[0];
      }
    }
  }

  /** Whatever the intervals, the clock is never left alone for more than three ticks. */
  lemma {:induction false} RefreshAtLeastEveryThreeTicks(hs: seq<int>)
    ensures Dense(Log(hs))
  {
    if hs != [] {
      RefreshAtLeastEveryThreeTicks(hs[..|hs| - 1]);
      DensePass(Log(hs[..|hs| - 1]), Bound(hs[|hs| - 1]));
    }
  }

  // ----- what the server's clock then says

  lemma {:induction false} PassRefreshes(n: nat)
    ensures Refreshes(Pass(n)) == (n + 2) / 3
  {
    if n > 0 {
      PassRefreshes(n - 1);
      PassOneMore([], n - 1);
      assert [] + Pass(n - 1) == Pass(n - 1) && [] + Pass(n) == Pass(n);
      RefreshesOneMore(Pass(n - 1), (n - 1) % 3 == 0);
      ThirdsOneMore(n - 1);
    }
  }

  lemma ThirdsOneMore(n: nat)
    ensures (n + 3) / 3 == (n + 2) / 3 + if n % 3 == 0 then 1 else 0
  {
  }

  lemma {:induction false} RefreshesAppend(a: seq<bool>, b: seq<bool>)
    ensures Refreshes(a + b) == Refreshes(a) + Refreshes(b)
  {
    if b == [] {
      assert a + b == a;
    } else {
      RefreshesAppend(a, b[..|b| - 1]);
      assert (a + b)[..|a + b| - 1] == a + b[..|b| - 1];
    }
  }

  /** If every bound is a multiple of 3, gettimeofday is called for a third of the ticks. */
  lemma {:induction false} RegularRefreshes(hs: seq<int>)
    requires forall i :: 0 <= i < |hs| ==> Bound(hs[i]) % 3 == 0
    ensures 3 * Refreshes(Log(hs)) == |Log(hs)|
  {
    if hs != [] {
      var before, n := hs[..|hs| - 1], Bound(hs[|hs| - 1]);
      RegularRefreshes(before);
      assert 3 * Refreshes(Pass(n)) == n by {
        PassRefreshes(n);
      }
      RefreshesAppend(Log(before), Pass(n));
    }
  }

  /**
   The clock of a server that started cold, after any passes, on an operating system with positive times:
   its uptime is the sum of the plain steps between the readings at the refreshing ticks, and it caches
   the last of them.
   */
  lemma {:induction false} ServerUptime(hs: seq<int>, source: nat -> Reading)
    requires forall n: nat :: source(n).Now? ==> source(n).us > 0
    ensures var rs := Answers(source, 0, Refreshes(Log(hs)));
            Cached(After(COLD, rs), Successes(rs))
  {
    UptimeIgnoresJumps(Answers(source, 0, Refreshes(Log(hs))));
  }
}
