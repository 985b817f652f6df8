/**
 The sliding samples of SrsKbpsSlice::sample (src/base/app_kbps.cpp:36-82).

 The code keeps one baseline per window and overwrites it in place. Here that incremental
 form is compared with the whole history of observations.
 */
module Samples {
  import opened Base

  /** SrsKbpsSample: the baseline of a window and the rate of the last window that closed. */
  datatype Window = Window(bytes: int, time: int, kbps: int)

  /** What one call of sample() saw: the clock in ms and the total bytes. */
  datatype Obs = Obs(time: int, total: int)

  const FRESH := Window(0, 0, 0)

  const W30S := 30 * 1000
  const W1M := 60 * 1000
  const W5M := 300 * 1000
  const W60M := 3600 * 1000

  /** The rate between two observations, as it is computed and stored. */
  function Rate(bytes: int, total: int, duration: int): int
    requires duration > 0
  {
    Narrow32(TruncDiv((total - bytes) * 8, duration))
  }

  /** What one call of sample() does to the window of `width` ms. */
  function Observe(width: nat, w: Window, o: Obs): Window {
    Close(width, Restart(w, o), o)
  }

  /** A window without a live baseline begins at the observation. */
  function Restart(w: Window, o: Obs): Window {
    if w.time <= 0 then Window(o.total, o.time, 0) else w
  }

  /** A window older than its width closes, and the next one begins at the observation. */
  function Close(width: nat, w: Window, o: Obs): Window {
    if o.time - w.time > width then Window(o.total, o.time, Rate(w.bytes, o.total, o.time - w.time)) else w
  }

  function Replay(width: nat, h: seq<Obs>): Window {
    if h == [] then FRESH else Observe(width, Replay(width, h[..|h| - 1]), h[|h| - 1])
  }

  // ----- the history read declaratively

  /** Whether observation `b` ends the window that `a` began: too old, or begun on a dead clock. */
  predicate Ends(width: nat, a: Obs, b: Obs) {
    a.time <= 0 || b.time - a.time > width
  }

  /** `j` is the first observation after `i` that ends the window begun at `i`. */
  predicate IsNext(width: nat, h: seq<Obs>, i: nat, j: nat) {
    && i < j < |h|
    && Ends(width, h[i], h[j])
    && forall k :: i < k < j ==> !Ends(width, h[i], h[k])
  }

  predicate IsLast(width: nat, h: seq<Obs>, i: nat) {
    && i < |h|
    && forall k :: i < k < |h| ==> !Ends(width, h[i], h[k])
  }

  /** `ks` are the positions of the baselines in the history, from the first to the current one. */
  predicate Baselines(width: nat, h: seq<Obs>, ks: seq<nat>) {
    && ks != []
    && ks[0] == 0
    && (forall n :: 0 <= n < |ks| ==> ks[n] < |h|)
    && (forall n :: 0 <= n < |ks| - 1 ==> IsNext(width, h, ks[n], ks[n + 1]))
    && IsLast(width, h, ks[|ks| - 1])
  }

  /** The rate of the window between two neighbouring baselines; a dead clock yields none. */
  function WindowRate(a: Obs, b: Obs): int
    requires a.time > 0 ==> b.time > a.time
  {
    if a.time <= 0 then 0 else Rate(a.total, b.total, b.time - a.time)
  }

  /** The window that the history determines, given where its baselines are. */
  function Expected(width: nat, h: seq<Obs>, ks: seq<nat>): Window
    requires Baselines(width, h, ks)
  {
    var cur := h[ks[|ks| - 1]];
    Window(cur.total, cur.time,
           if |ks| == 1 then 0
           else
             assert IsNext(width, h, ks[|ks| - 2], ks[|ks| - 2 + 1]);
             WindowRate(h[ks[|ks| - 2]], cur))
  }

  /** The baselines, found by scanning the history once. */
  function Find(width: nat, h: seq<Obs>): (ks: seq<nat>)
    requires h != []
    ensures Baselines(width, h, ks)
  {
    if |h| == 1 then [0]
    else
      var ks := Find(width, h[..|h| - 1]);
      ExtendsHistory(width, h, ks);
      var cur := ks[|ks| - 1];
      if Ends(width, h[cur], h[|h| - 1]) then ks + [|h| - 1] else ks
  }

  lemma ExtendsHistory(width: nat, h: seq<Obs>, ks: seq<nat>)
    requires |h| > 1 && Baselines(width, h[..|h| - 1], ks)
    ensures forall n :: 0 <= n < |ks| - 1 ==> IsNext(width, h, ks[n], ks[n + 1])
    ensures ks[|ks| - 1] < |h| - 1
    ensures forall k :: ks[|ks| - 1] < k < |h| - 1 ==> !Ends(width, h[ks[|ks| - 1]], h[k])
  {
    forall n | 0 <= n < |ks| - 1
      ensures IsNext(width, h, ks[n], ks[n + 1])
    {
      assert IsNext(width, h[..|h| - 1], ks[n], ks[n + 1]);
    }
  }

  /** A history has only one list of baselines. */
  lemma {:induction false} BaselinesAreUnique(width: nat, h: seq<Obs>, ks: seq<nat>, js: seq<nat>, n: nat)
    requires Baselines(width, h, ks) && Baselines(width, h, js)
    requires n <= |ks| && n <= |js| && ks[..n] == js[..n]
    ensures ks == js
    decreases |ks| - n
  {
    if n == 0 {
      BaselinesAreUnique(width, h, ks, js, 1);
    } else {
      assert ks[n - 1] == ks[..n][n - 1] == js[n - 1];
      if n < |ks| {
        assert IsNext(width, h, ks[n - 1], ks[n - 1 + 1]);
      }
      if n < |js| {
        assert IsNext(width, h, js[n - 1], js[n - 1 + 1]);
      }
      if n < |ks| && n < |js| {
        assert ks[..n + 1] == ks[..n] + [ks[n]] && js[..n + 1] == js[..n] + [js[n]];
        BaselinesAreUnique(width, h, ks, js, n + 1);
      }
    }
  }

  /**
   The incremental window refines the history: its baseline is the last baseline of the
   history, and its rate is that of the last window that closed, or 0 before any did.
   */
  lemma {:induction false} IncrementalRefinesHistory(width: nat, h: seq<Obs>, ks: seq<nat>)
    requires h != [] && Baselines(width, h, ks)
    ensures Replay(width, h) == Expected(width, h, ks)
  {
    FoldMeetsFind(width, h);
    BaselinesAreUnique(width, h, ks, Find(width, h), 0);
  }

  lemma {:induction false} FoldMeetsFind(width: nat, h: seq<Obs>)
    requires h != []
    ensures Replay(width, h) == Expected(width, h, Find(width, h))
  {
    if |h| == 1 {
      FirstObservation(width, h);
    } else {
      var before := h[..|h| - 1];
      var ks := Find(width, before);
      assert Replay(width, before) == Expected(width, before, ks) by {
        FoldMeetsFind(width, before);
      }
      if Ends(width, h[ks[|ks| - 1]], h[|h| - 1]) {
        assert Find(width, h) == ks + [|h| - 1];
        WindowCloses(width, h, ks);
      } else {
        assert Find(width, h) == ks;
        WindowStaysOpen(width, h, ks);
      }
    }
  }

  lemma FirstObservation(width: nat, h: seq<Obs>)
    requires |h| == 1
    ensures Replay(width, h) == Window(h[0].total, h[0].time, 0)
    ensures Find(width, h) == [0]
  {
    assert h[..0] == [];
    assert Replay(width, h[..0]) == FRESH;
  }

  lemma WindowCloses(width: nat, h: seq<Obs>, ks: seq<nat>)
    requires |h| > 1 && Baselines(width, h[..|h| - 1], ks)
    requires Baselines(width, h, ks + [|h| - 1])
    requires Ends(width, h[ks[|ks| - 1]], h[|h| - 1])
    ensures Observe(width, Expected(width, h[..|h| - 1], ks), h[|h| - 1]) == Expected(width, h, ks + [|h| - 1])
  {
  }

  lemma WindowStaysOpen(width: nat, h: seq<Obs>, ks: seq<nat>)
    requires |h| > 1 && Baselines(width, h[..|h| - 1], ks) && Baselines(width, h, ks)
    requires !Ends(width, h[ks[|ks| - 1]], h[|h| - 1])
    ensures Observe(width, Expected(width, h[..|h| - 1], ks), h[|h| - 1]) == Expected(width, h, ks)
  {
  }

  // ----- the rates add up to the traffic

  /** Positive clock and totals that never fall: the histories of a connection with a running clock. */
  predicate Steady(h: seq<Obs>) {
    && (forall i :: 0 <= i < |h| ==> h[i].time > 0)
    && (forall i, j :: 0 <= i < j < |h| ==> h[i].total <= h[j].total)
  }

  /** Every closed window carried less than 2^31 bits per millisecond, so its rate fits an `int`. */
  predicate Fits(h: seq<Obs>, ks: seq<nat>)
    requires forall n :: 0 <= n < |ks| ==> ks[n] < |h|
  {
    forall n :: 0 <= n < |ks| - 1 ==>
      (h[ks[n + 1]].total - h[ks[n]].total) * 8 < 0x8000_0000 * (h[ks[n + 1]].time - h[ks[n]].time)
  }

  /** The sum over the windows before baseline `n` of (rate + extra) * duration. */
  function Integral(width: nat, h: seq<Obs>, ks: seq<nat>, n: nat, extra: int): int
    requires Baselines(width, h, ks) && n < |ks|
  {
    if n == 0 then 0
    else
      assert IsNext(width, h, ks[n - 1], ks[n - 1 + 1]);
      var a, b := h[ks[n - 1]], h[ks[n]];
      Integral(width, h, ks, n - 1, extra) + (WindowRate(a, b) + extra) * (b.time - a.time)
  }

  lemma RateBrackets(a: Obs, b: Obs)
    requires 0 < a.time < b.time && a.total <= b.total
    requires (b.total - a.total) * 8 < 0x8000_0000 * (b.time - a.time)
    ensures WindowRate(a, b) == TruncDiv((b.total - a.total) * 8, b.time - a.time)
    ensures WindowRate(a, b) * (b.time - a.time) <= 8 * (b.total - a.total)
    ensures 8 * (b.total - a.total) < (WindowRate(a, b) + 1) * (b.time - a.time)
  {
    var x, d := (b.total - a.total) * 8, b.time - a.time;
    TruncDivIsFloor(x, d);
    var q := TruncDiv(x, d);
    QuotientBelow(q, d, 0x8000_0000);
    assert Narrow32(q) == q;
  }

  /** The stored rate is the true quotient exactly when the window carried less than 2^31 bits per ms. */
  lemma RateIsExactIff(a: Obs, b: Obs)
    requires 0 < a.time < b.time && a.total <= b.total
    ensures WindowRate(a, b) == TruncDiv((b.total - a.total) * 8, b.time - a.time)
       <==> (b.total - a.total) * 8 < 0x8000_0000 * (b.time - a.time)
  {
    var x, d := (b.total - a.total) * 8, b.time - a.time;
    if x < 0x8000_0000 * d {
      RateBrackets(a, b);
    } else {
      TruncDivIsFloor(x, d);
      QuotientBelow(0x8000_0000 - 1, d, TruncDiv(x, d) + 1);
    }
  }

  lemma QuotientBelow(q: int, d: int, bound: int)
    requires d > 0 && q * d < bound * d
    ensures q < bound
  {
  }

  /** A window that closes lasted longer than its width, so the division is always defined. */
  lemma ClosedWindowExceedsWidth(width: nat, h: seq<Obs>, ks: seq<nat>, n: nat)
    requires Baselines(width, h, ks) && Steady(h) && 0 < n < |ks|
    ensures h[ks[n]].time - h[ks[n - 1]].time > width
  {
    assert IsNext(width, h, ks[n - 1], ks[n - 1 + 1]);
  }

  /** Reported rates integrate back to the traffic, up to the rounding of one unit per window. */
  lemma {:induction false} RatesIntegrateToTraffic(width: nat, h: seq<Obs>, ks: seq<nat>, n: nat)
    requires Baselines(width, h, ks) && Steady(h) && Fits(h, ks) && n < |ks|
    ensures Integral(width, h, ks, n, 0) <= 8 * (h[ks[n]].total - h[ks[0]].total)
    ensures n > 0 ==> 8 * (h[ks[n]].total - h[ks[0]].total) < Integral(width, h, ks, n, 1)
  {
    if n > 0 {
      assert IsNext(width, h, ks[n - 1], ks[n - 1 + 1]);
      RatesIntegrateToTraffic(width, h, ks, n - 1);
      RateBrackets(h[ks[n - 1]], h[ks[n]]);
    }
  }

  // ----- baselines and a clock that may go backwards

  /** The baseline time goes back only when it is not positive yet. */
  lemma BaselineGoesBackIff(width: nat, w: Window, o: Obs)
    ensures Observe(width, w, o).time < w.time <==> w.time <= 0 && o.time < w.time
    ensures o.time > 0 ==> Observe(width, w, o).time > 0 && o.time - Observe(width, w, o).time <= width
  {
  }

  /**
   With a positive clock, even one that goes backwards, baseline times never decrease and no
   window is left older than its width.
   */
  lemma {:induction false} BaselineTimesNeverDecrease(width: nat, h: seq<Obs>, n: nat)
    requires forall i :: 0 <= i < |h| ==> h[i].time > 0
    requires n <= |h|
    ensures 0 <= Replay(width, h[..n]).time <= Replay(width, h).time
    ensures h != [] ==> Replay(width, h).time > 0 && h[|h| - 1].time - Replay(width, h).time <= width
  {
    if h != [] {
      var before := h[..|h| - 1];
      if n == |h| {
        assert h[..n] == h;
        BaselineTimesNeverDecrease(width, before, 0);
      } else {
        assert h[..n] == before[..n];
        BaselineTimesNeverDecrease(width, before, n);
      }
      BaselineGoesBackIff(width, Replay(width, before), h[|h| - 1]);
    } else {
      assert h[..n] == h;
    }
  }
}
