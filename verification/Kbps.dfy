/**
 The rate accountant (src/base/app_kbps.h, src/base/app_kbps.cpp): SrsKbpsSlice and SrsKbps.

 The classes keep the fields of the source and update them in place. Each method is tied to a
 function on the values of those fields; the laws are stated about these functions.
 */
module Kbps {
  import opened Base
  import opened Clock
  import opened Socket
  import A = Accounts
  import opened Samples

  /** The value of a slice: its byte account, its start time and its four windows. */
  datatype SliceState = SliceState(
    acct: A.Acct, starttime: int,
    w30s: Window, w1m: Window, w5m: Window, w60m: Window)

  datatype KbpsState = KbpsState(input: SliceState, output: SliceState)

  type Source = nat -> Reading

  /** SrsKbpsSlice::sample at time `now` */
  function SampleSlice(s: SliceState, now: int): SliceState {
    var o := Obs(now, A.Total(s.acct));
    s.(w30s := Observe(W30S, s.w30s, o), w1m := Observe(W1M, s.w1m, o),
       w5m := Observe(W5M, s.w5m, o), w60m := Observe(W60M, s.w60m, o))
  }

  /** The half of set_io that concerns one slice, and the clock it leaves behind. */
  function SetIoSlice(s: SliceState, reading: Option<int>, source: Source, c: ClockState): (SliceState, ClockState) {
    var c1 := if s.starttime == 0 then Warm(source, c) else c;
    var t := s.(starttime := if s.starttime == 0 then Ms(c1) else s.starttime,
                acct := A.SetIo(s.acct, reading));
    var c2 := Warm(source, c1);
    (SampleSlice(t, Ms(c2)), c2)
  }

  function SetIoBoth(k: KbpsState, inn: Option<int>, out: Option<int>, source: Source, c: ClockState)
    : (KbpsState, ClockState)
  {
    var (input, c1) := SetIoSlice(k.input, inn, source, c);
    var (output, c2) := SetIoSlice(k.output, out, source, c1);
    (KbpsState(input, output), c2)
  }

  /** SrsKbps::sample when the streams count `inn` and `out` bytes */
  function SampleBoth(k: KbpsState, inn: int, out: int, source: Source, c: ClockState): (KbpsState, ClockState) {
    var c1 := Warm(source, c);
    var c2 := Warm(source, c1);
    (KbpsState(SampleSlice(k.input.(acct := A.Sample(k.input.acct, inn)), Ms(c1)),
               SampleSlice(k.output.(acct := A.Sample(k.output.acct, out)), Ms(c2))), c2)
  }

  /** `bytes` over `duration` ms in kbps, as the getters return it. */
  function Average(bytes: int, duration: int): int {
    if duration <= 0 then 0 else Narrow32(TruncDiv(bytes * 8, duration))
  }

  /** get_send_kbps at time `now`: its duration is taken from the start time of the input slice, as in the source. */
  function SendKbps(k: KbpsState, now: int): int {
    Average(A.Total(k.output.acct), now - k.input.starttime)
  }

  /** get_recv_kbps, which reads the other start time */
  function RecvKbps(k: KbpsState, now: int): int {
    Average(A.Total(k.input.acct), now - k.output.starttime)
  }

  const NEW_SLICE := SliceState(A.EMPTY, 0, FRESH, FRESH, FRESH, FRESH)

  const NEW_KBPS := KbpsState(NEW_SLICE, NEW_SLICE)

  class KbpsSlice {
    var io: StSocket?
    var bytes: int
    var starttime: int
    var ioBytesBase: int
    var lastBytes: int
    var sample30s: Window
    var sample1m: Window
    var sample5m: Window
    var sample60m: Window
    var deltaBytes: int

    ghost function Account(): A.Acct
      reads this
    {
      A.Acct(io != null, bytes, ioBytesBase, lastBytes, deltaBytes)
    }

    ghost function View(): SliceState
      reads this
    {
      SliceState(Account(), starttime, sample30s, sample1m, sample5m, sample60m)
    }

    constructor ()
      ensures View() == NEW_SLICE
    {
      io := null;
      lastBytes, ioBytesBase, starttime, bytes, deltaBytes := 0, 0, 0, 0, 0;
      sample30s, sample1m, sample5m, sample60m := FRESH, FRESH, FRESH, FRESH;
    }

    function GetTotalBytes(): int
      reads this
    {
      bytes + lastBytes - ioBytesBase
    }

    /** What set_io does to one of its two slices; `counter` is what the new io counts. */
    method BeginSession(next: StSocket?, counter: int, clock: SystemClock)
      requires next == null ==> counter == 0
      modifies this, clock
      ensures (View(), clock.View())
           == SetIoSlice(old(View()), if next == null then None else Some(counter), clock.source, old(clock.View()))
      ensures io == next
    {
      if starttime == 0 {
        starttime := clock.GetMs();
      }
      // save the bytes of the old session
      if io != null {
        bytes := bytes + lastBytes - ioBytesBase;
      }
      io := next;
      lastBytes, ioBytesBase := counter, counter;
      Sample(clock);
    }

    method Sample(clock: SystemClock)
      modifies this, clock
      ensures clock.View() == Warm(clock.source, old(clock.View()))
      ensures View() == SampleSlice(old(View()), Ms(clock.View()))
      ensures io == old(io)
    {
      var now := clock.GetMs();
      var total := GetTotalBytes();
      RestartWindows(now, total);
      CloseWindows(now, total);
    }

    /** The first half of sample(): begin the windows that have no live baseline. */
    method RestartWindows(now: int, total: int)
      modifies `sample30s, `sample1m, `sample5m, `sample60m
      ensures var o := Obs(now, total);
              && sample30s == Restart(old(sample30s), o)
              && sample1m == Restart(old(sample1m), o)
              && sample5m == Restart(old(sample5m), o)
              && sample60m == Restart(old(sample60m), o)
    {
      if sample30s.time <= 0 {
        sample30s := Window(total, now, 0);
      }
      if sample1m.time <= 0 {
        sample1m := Window(total, now, 0);
      }
      if sample5m.time <= 0 {
        sample5m := Window(total, now, 0);
      }
      if sample60m.time <= 0 {
        sample60m := Window(total, now, 0);
      }
    }

    /** The second half of sample(): close the windows that are older than their width. */
    method CloseWindows(now: int, total: int)
      modifies `sample30s, `sample1m, `sample5m, `sample60m
      ensures var o := Obs(now, total);
              && sample30s == Close(W30S, old(sample30s), o)
              && sample1m == Close(W1M, old(sample1m), o)
              && sample5m == Close(W5M, old(sample5m), o)
              && sample60m == Close(W60M, old(sample60m), o)
    {
      if now - sample30s.time > 30 * 1000 {
        sample30s := Window(total, now, Rate(sample30s.bytes, total, now - sample30s.time));
      }
      if now - sample1m.time > 60 * 1000 {
        sample1m := Window(total, now, Rate(sample1m.bytes, total, now - sample1m.time));
      }
      if now - sample5m.time > 300 * 1000 {
        sample5m := Window(total, now, Rate(sample5m.bytes, total, now - sample5m.time));
      }
      if now - sample60m.time > 3600 * 1000 {
        sample60m := Window(total, now, Rate(sample60m.bytes, total, now - sample60m.time));
      }
    }
  }

  /** What a stream counts, if there is a stream. */
  ghost function RecvReading(s: StSocket?): Option<int>
    reads s
  {
    if s == null then None else Some(s.recvBytes)
  }

  ghost function SendReading(s: StSocket?): Option<int>
    reads s
  {
    if s == null then None else Some(s.sendBytes)
  }

  /** IKbpsDelta: the rates of an object, or those of an SrsBaseConn, whose deltas are always 0. */
  datatype IKbpsDelta = Rates(kbps: SrsKbps) | Silent {
    ghost function Slices(): set<object> {
      if Rates? then {kbps.input, kbps.output} else {}
    }
  }

  /** An account that add_delta reads its own delta from. */
  function AddedToItself(a: A.Acct): A.Acct {
    A.Add(A.Report(a), A.Unreported(a))
  }

  class SrsKbps {
    const input: KbpsSlice
    const output: KbpsSlice

    ghost predicate Valid() {
      input != output
    }

    ghost function View(): KbpsState
      reads input, output
    {
      KbpsState(input.View(), output.View())
    }

    constructor ()
      ensures Valid() && fresh(input) && fresh(output)
      ensures View() == NEW_KBPS
    {
      input := new KbpsSlice();
      output := new KbpsSlice();
    }

    method SetIo(inn: StSocket?, out: StSocket?, clock: SystemClock)
      requires Valid()
      modifies input, output, clock
      ensures (View(), clock.View())
           == SetIoBoth(old(View()), RecvReading(inn), SendReading(out), clock.source, old(clock.View()))
      ensures input.io == inn && output.io == out
      ensures inn != null ==> input.lastBytes == input.ioBytesBase == inn.recvBytes
      ensures out != null ==> output.lastBytes == output.ioBytesBase == out.sendBytes
      ensures old(clock.cacheUs) >= 1000 ==>
                && input.starttime
                   == (if old(input.starttime) == 0 then old(clock.cacheUs) / 1000 else old(input.starttime))
                && output.starttime
                   == (if old(output.starttime) == 0 then old(clock.cacheUs) / 1000 else old(output.starttime))
    {
      input.BeginSession(inn, if inn == null then 0 else inn.recvBytes, clock);
      output.BeginSession(out, if out == null then 0 else out.sendBytes, clock);
    }

    /** The readings that sample() would take now; a missing stream is never read. */
    ghost function Counters(): (int, int)
      reads input, output, input.io, output.io
    {
      (if input.io == null then 0 else input.io.recvBytes, if output.io == null then 0 else output.io.sendBytes)
    }

    method Sample(clock: SystemClock)
      requires Valid()
      modifies input, output, clock
      ensures (View(), clock.View())
           == SampleBoth(old(View()), old(Counters()).0, old(Counters()).1, clock.source, old(clock.View()))
      ensures input.io == old(input.io) && output.io == old(output.io)
      ensures input.lastBytes == if input.io == null then old(input.lastBytes) else input.io.recvBytes
      ensures output.lastBytes == if output.io == null then old(output.lastBytes) else output.io.sendBytes
    {
      if output.io != null {
        output.lastBytes := output.io.sendBytes;
      }
      if input.io != null {
        input.lastBytes := input.io.recvBytes;
      }
      input.Sample(clock);
      output.Sample(clock);
    }

    method GetSendBytesDelta() returns (delta: int)
      requires Valid()
      modifies output
      ensures delta == A.Unreported(old(output.Account()))
      ensures output.View() == old(output.View()).(acct := A.Report(old(output.Account())))
      ensures output.io == old(output.io)
    {
      delta := output.GetTotalBytes() - output.deltaBytes;
      output.deltaBytes := output.GetTotalBytes();
    }

    method GetRecvBytesDelta() returns (delta: int)
      requires Valid()
      modifies input
      ensures delta == A.Unreported(old(input.Account()))
      ensures input.View() == old(input.View()).(acct := A.Report(old(input.Account())))
      ensures input.io == old(input.io)
    {
      delta := input.GetTotalBytes() - input.deltaBytes;
      input.deltaBytes := input.GetTotalBytes();
    }

    /** add_delta. The source of the delta may be the object itself. */
    method AddDelta(delta: IKbpsDelta)
      requires Valid() && (delta.Rates? ==> delta.kbps.Valid())
      requires delta.Rates? ==> delta.kbps == this || {input, output} !! {delta.kbps.input, delta.kbps.output}
      modifies input, output, delta.Slices()
      ensures delta.Silent? ==> input.View() == old(input.View()) && output.View() == old(output.View())
      ensures delta.Rates? && delta.kbps == this ==>
                && input.View() == old(input.View()).(acct := AddedToItself(old(input.Account())))
                && output.View() == old(output.View()).(acct := AddedToItself(old(output.Account())))
      ensures delta.Rates? && delta.kbps != this ==>
                && input.View()
                   == old(input.View()).(
                        acct := A.Add(old(input.Account()), A.Unreported(old(delta.kbps.input.Account()))))
                && output.View()
                   == old(output.View()).(
                        acct := A.Add(old(output.Account()), A.Unreported(old(delta.kbps.output.Account()))))
                && delta.kbps.input.View()
                   == old(delta.kbps.input.View()).(acct := A.Report(old(delta.kbps.input.Account())))
                && delta.kbps.output.View()
                   == old(delta.kbps.output.View()).(acct := A.Report(old(delta.kbps.output.Account())))
                && delta.kbps.input.io == old(delta.kbps.input.io) && delta.kbps.output.io == old(delta.kbps.output.io)
      ensures input.io == old(input.io) && output.io == old(output.io)
    {
      var recv := 0;
      if delta.Rates? {
        recv := delta.kbps.GetRecvBytesDelta();
      }
      input.lastBytes := input.lastBytes + recv;
      var send := 0;
      if delta.Rates? {
        send := delta.kbps.GetSendBytesDelta();
      }
      output.lastBytes := output.lastBytes + send;
    }

    method GetSendKbps(clock: SystemClock) returns (kbps: int)
      requires Valid()
      modifies clock
      ensures clock.View() == Warm(clock.source, old(clock.View()))
      ensures kbps == SendKbps(View(), Ms(clock.View()))
    {
      var now := clock.GetMs();
      var duration := now - input.starttime;
      if duration <= 0 {
        return 0;
      }
      var bytes := output.GetTotalBytes();
      kbps := Narrow32(TruncDiv(bytes * 8, duration));
    }

    method GetRecvKbps(clock: SystemClock) returns (kbps: int)
      requires Valid()
      modifies clock
      ensures clock.View() == Warm(clock.source, old(clock.View()))
      ensures kbps == RecvKbps(View(), Ms(clock.View()))
    {
      var now := clock.GetMs();
      var duration := now - output.starttime;
      if duration <= 0 {
        return 0;
      }
      var bytes := input.GetTotalBytes();
      kbps := Narrow32(TruncDiv(bytes * 8, duration));
    }
  }

  // ----- runs

  /** What can happen to an SrsKbps object, and to the clock between two such calls. */
  datatype Event =
    | SetIo(inn: Option<int>, out: Option<int>)
    | Sample(recv: int, send: int)
    | AddDelta(recv: int, send: int)
    | ReadSendDelta
    | ReadRecvDelta
    | Tick

  function Apply(k: KbpsState, c: ClockState, e: Event, source: Source): (KbpsState, ClockState) {
    match e
    case SetIo(inn, out) => SetIoBoth(k, inn, out, source, c)
    case Sample(recv, send) => SampleBoth(k, recv, send, source, c)
    case AddDelta(recv, send) =>
      (KbpsState(k.input.(acct := A.Add(k.input.acct, recv)), k.output.(acct := A.Add(k.output.acct, send))), c)
    case ReadSendDelta => (k.(output := k.output.(acct := A.Report(k.output.acct))), c)
    case ReadRecvDelta => (k.(input := k.input.(acct := A.Report(k.input.acct))), c)
    case Tick => (k, Absorb(c, source(c.calls)))
  }

  function Run(k: KbpsState, c: ClockState, es: seq<Event>, source: Source): (KbpsState, ClockState)
    decreases es
  {
    if es == [] then (k, c)
    else
      var (k', c') := Apply(k, c, es[0], source);
      Run(k', c', es[1..], source)
  }

  // ----- the object's runs, seen as runs of its accounts and windows

  /** What a call means for the account of one slice */
  function InputEvent(e: Event): seq<A.Event> {
    match e
    case SetIo(inn, _) => [A.Opened(inn)]
    case Sample(recv, _) => [A.Sampled(recv)]
    case AddDelta(recv, _) => [A.Added(recv)]
    case ReadRecvDelta => [A.Reported]
    case _ => []
  }

  function OutputEvent(e: Event): seq<A.Event> {
    match e
    case SetIo(_, out) => [A.Opened(out)]
    case Sample(_, send) => [A.Sampled(send)]
    case AddDelta(_, send) => [A.Added(send)]
    case ReadSendDelta => [A.Reported]
    case _ => []
  }

  function InputEvents(es: seq<Event>): seq<A.Event> {
    if es == [] then [] else InputEvent(es[0]) + InputEvents(es[1..])
  }

  function OutputEvents(es: seq<Event>): seq<A.Event> {
    if es == [] then [] else OutputEvent(es[0]) + OutputEvents(es[1..])
  }

  /** Both slices count bytes as the accounts of Accounts.dfy do, so all laws stated there hold here. */
  lemma {:induction false} AccountsFollow(k: KbpsState, c: ClockState, es: seq<Event>, source: Source)
    ensures Run(k, c, es, source).0.input.acct == A.Run(k.input.acct, InputEvents(es))
    ensures Run(k, c, es, source).0.output.acct == A.Run(k.output.acct, OutputEvents(es))
    decreases es
  {
    if es != [] {
      var (k', c') := Apply(k, c, es[0], source);
      assert && k'.input.acct == A.Run(k.input.acct, InputEvent(es[0]))
             && k'.output.acct == A.Run(k.output.acct, OutputEvent(es[0])) by {
        OneEvent(k, c, es[0], source);
      }
      AccountsFollow(k', c', es[1..], source);
      A.RunAppend(k.input.acct, InputEvent(es[0]), InputEvents(es[1..]));
      A.RunAppend(k.output.acct, OutputEvent(es[0]), OutputEvents(es[1..]));
    }
  }

  lemma OneEvent(k: KbpsState, c: ClockState, e: Event, source: Source)
    ensures Apply(k, c, e, source).0.input.acct == A.Run(k.input.acct, InputEvent(e))
    ensures Apply(k, c, e, source).0.output.acct == A.Run(k.output.acct, OutputEvent(e))
  {
    RunOne(k.input.acct, InputEvent(e));
    RunOne(k.output.acct, OutputEvent(e));
  }

  lemma RunOne(a: A.Acct, es: seq<A.Event>)
    requires |es| <= 1
    ensures A.Run(a, es) == if es == [] then a else A.Apply(a, es[0])
  {
    if es != [] {
      assert A.Run(A.Apply(a, es[0]), es[1..]) == A.Apply(a, es[0]);
    }
  }

  function SliceOf(k: KbpsState, input: bool): SliceState {
    if input then k.input else k.output
  }

  /** The observation that a call makes of one slice, if it makes one. */
  function Seen(k: KbpsState, c: ClockState, e: Event, source: Source, input: bool): seq<Obs> {
    match e
    case SetIo(inn, out) =>
      var c1 := SetIoSlice(k.input, inn, source, c).1;
      if input then [Obs(Ms(c1), A.Total(A.SetIo(k.input.acct, inn)))]
      else [Obs(Ms(SetIoSlice(k.output, out, source, c1).1), A.Total(A.SetIo(k.output.acct, out)))]
    case Sample(recv, send) =>
      if input then [Obs(Ms(Warm(source, c)), A.Total(A.Sample(k.input.acct, recv)))]
      else [Obs(Ms(Warm(source, Warm(source, c))), A.Total(A.Sample(k.output.acct, send)))]
    case _ => []
  }

  /** All observations of one slice in a run, oldest first. */
  function History(k: KbpsState, c: ClockState, es: seq<Event>, source: Source, input: bool): seq<Obs>
    decreases es
  {
    if es == [] then []
    else
      var (k', c') := Apply(k, c, es[0], source);
      Seen(k, c, es[0], source, input) + History(k', c', es[1..], source, input)
  }

  /** The four windows that replaying the whole history gives. */
  function ReplayAll(h: seq<Obs>): (Window, Window, Window, Window) {
    (Samples.Replay(30_000, h), Samples.Replay(60_000, h), Samples.Replay(300_000, h), Samples.Replay(3_600_000, h))
  }

  predicate WindowsAre(s: SliceState, h: seq<Obs>) {
    (s.w30s, s.w1m, s.w5m, s.w60m) == ReplayAll(h)
  }

  /**
   The four windows of a slice are always those of its whole history of observations, to which
   IncrementalRefinesHistory applies.
   */
  lemma {:induction false} WindowsFollowHistory(
    k: KbpsState, c: ClockState, es: seq<Event>, source: Source, input: bool, h: seq<Obs>)
    requires WindowsAre(SliceOf(k, input), h)
    ensures WindowsAre(SliceOf(Run(k, c, es, source).0, input), h + History(k, c, es, source, input))
    decreases es
  {
    if es == [] {
      assert h + [] == h;
    } else {
      var (k', c') := Apply(k, c, es[0], source);
      var seen, later := Seen(k, c, es[0], source, input), History(k', c', es[1..], source, input);
      assert WindowsAre(SliceOf(k', input), h + seen) by {
        OneObservation(k, c, es[0], source, input, h);
      }
      WindowsFollowHistory(k', c', es[1..], source, input, h + seen);
      ObservationsRegroup(h, seen, later);
    }
  }

  lemma ObservationsRegroup(a: seq<Obs>, b: seq<Obs>, c: seq<Obs>)
    ensures (a + b) + c == a + (b + c)
  {
  }

  lemma OneObservation(k: KbpsState, c: ClockState, e: Event, source: Source, input: bool, h: seq<Obs>)
    requires WindowsAre(SliceOf(k, input), h)
    ensures WindowsAre(SliceOf(Apply(k, c, e, source).0, input), h + Seen(k, c, e, source, input))
  {
    var seen := Seen(k, c, e, source, input);
    if seen == [] {
      assert h + seen == h;
    } else {
      var s, t := SliceOf(k, input), SliceOf(Apply(k, c, e, source).0, input);
      assert t.w30s == Observe(W30S, s.w30s, seen[0]) && t.w1m == Observe(W1M, s.w1m, seen[0]);
      assert t.w5m == Observe(W5M, s.w5m, seen[0]) && t.w60m == Observe(W60M, s.w60m, seen[0]);
      ReplayOneMore(h, seen[0]);
      assert h + seen == h + [seen[0]];
    }
  }

  lemma ReplayOneMore(h: seq<Obs>, o: Obs)
    ensures forall width: nat :: Samples.Replay(width, h + [o]) == Observe(width, Samples.Replay(width, h), o)
  {
    assert (h + [o])[..|h|] == h;
  }

  // ----- the two start times

  ghost predicate PositiveSource(source: Source) {
    forall n: nat :: source(n).Now? ==> source(n).us > 0
  }

  /**
   The getters read the other slice's start time. That is harmless: on a clock that has been
   set, and is only ever answered with positive times, both start times are equal in every
   state that any calls can reach, and once set they stay.
   */
  lemma {:induction false} StartTimesStayEqual(k: KbpsState, c: ClockState, es: seq<Event>, source: Source)
    requires k.input.starttime == k.output.starttime && c.cacheUs > 0
    requires PositiveSource(source)
    ensures var (k', c') := Run(k, c, es, source);
            && k'.input.starttime == k'.output.starttime && c'.cacheUs > 0
            && (k.input.starttime != 0 ==> k'.input.starttime == k.input.starttime)
    decreases es
  {
    if es != [] {
      var (k', c') := Apply(k, c, es[0], source);
      StartTimesStayEqual(k', c', es[1..], source);
    }
  }

  /** Start times that are set stay as they are, whatever the clock does. */
  lemma {:induction false} SetStartTimesStay(k: KbpsState, c: ClockState, es: seq<Event>, source: Source)
    requires k.input.starttime == k.output.starttime != 0
    ensures Run(k, c, es, source).0.input.starttime == k.input.starttime
    ensures Run(k, c, es, source).0.output.starttime == k.output.starttime
    decreases es
  {
    if es != [] {
      var (k', c') := Apply(k, c, es[0], source);
      SetStartTimesStay(k', c', es[1..], source);
    }
  }

  /** gettimeofday never answers with less than a millisecond. */
  ghost predicate PastFirstMs(source: Source) {
    forall n: nat :: source(n).Now? ==> source(n).us >= 1000
  }

  /** Whatever calls follow and whatever positive times gettimeofday answers, the start times are equal. */
  ghost predicate AlwaysEqual(k: KbpsState, c: ClockState) {
    forall es: seq<Event>, source: Source :: PositiveSource(source) ==> EqualAfter(k, c, es, source)
  }

  predicate EqualAfter(k: KbpsState, c: ClockState, es: seq<Event>, source: Source) {
    Run(k, c, es, source).0.input.starttime == Run(k, c, es, source).0.output.starttime
  }

  /** gettimeofday fails at call number `at`, answers 1 ms at the next, and 1001 ms at any other. */
  function FailsAt(at: nat): Source {
    (n: nat) => if n == at then Failed else if n == at + 1 then Now(1000) else Now(1001_000)
  }

  /** On a clock that is not set, one failing gettimeofday inside the first set_io separates the start times. */
  lemma FailedReadingSeparates(k: KbpsState, c: ClockState)
    requires k.input.starttime == k.output.starttime == 0 && c.cacheUs <= 0
    ensures var (k', c') := SetIoBoth(k, None, None, FailsAt(c.calls), c);
            && k'.input.starttime == Ms(c) <= 0 && k'.output.starttime == 1
            && k'.output.acct == A.SetIo(k.output.acct, None)
            && c' == ClockState(1000, 1000, c.calls + 2)
  {
    var source := FailsAt(c.calls);
    assert Warm(source, c) == c.(calls := c.calls + 1);
    assert Warm(source, Warm(source, c)) == ClockState(1000, 1000, c.calls + 2);
  }

  /**
   Exactly when the start times stay equal for ever: if they are set, or else if the clock is. A
   caller can look at both before the first set_io; `initialize` calls srs_update_system_time_ms
   for it, but does not look whether that failed.
   */
  lemma {:induction false} StartTimesStayEqualIff(k: KbpsState, c: ClockState)
    requires k.input.starttime == k.output.starttime
    ensures AlwaysEqual(k, c) <==> k.input.starttime != 0 || c.cacheUs > 0
  {
    if k.input.starttime != 0 || c.cacheUs > 0 {
      forall es: seq<Event>, source: Source | PositiveSource(source)
        ensures EqualAfter(k, c, es, source)
      {
        if k.input.starttime != 0 {
          SetStartTimesStay(k, c, es, source);
        } else {
          StartTimesStayEqual(k, c, es, source);
        }
      }
    } else {
      FailedReadingSeparates(k, c);
      var es := [SetIo(None, None)];
      assert es[1..] == [];
      assert PositiveSource(FailsAt(c.calls));
      assert !EqualAfter(k, c, es, FailsAt(c.calls));
    }
  }

  /** The average of `total` bytes over `duration` ms exists and fits an `int`. */
  predicate Fits32(total: int, duration: int) {
    duration > 0 && 0 <= total * 8 < 0x8000_0000 * duration
  }

  /** `kbps` is that average, rounded down. */
  predicate IsAverage(kbps: int, total: int, duration: int) {
    kbps * duration <= total * 8 < (kbps + 1) * duration
  }

  /** At time `now` both getters return the average of their own slice since its own start, 0 if there was none. */
  predicate OwnAverages(k: KbpsState, now: int) {
    var sent, received := now - k.output.starttime, now - k.input.starttime;
    && (Fits32(A.Total(k.output.acct), sent) ==> IsAverage(SendKbps(k, now), A.Total(k.output.acct), sent))
    && (Fits32(A.Total(k.input.acct), received) ==> IsAverage(RecvKbps(k, now), A.Total(k.input.acct), received))
    && (sent <= 0 ==> SendKbps(k, now) == 0)
    && (received <= 0 ==> RecvKbps(k, now) == 0)
  }

  lemma EqualStartsGiveOwnAverages(k: KbpsState, now: int)
    requires k.input.starttime == k.output.starttime
    ensures OwnAverages(k, now)
  {
    var d := now - k.input.starttime;
    if Fits32(A.Total(k.output.acct), d) {
      AverageBrackets(A.Total(k.output.acct) * 8, d);
    }
    if Fits32(A.Total(k.input.acct), d) {
      AverageBrackets(A.Total(k.input.acct) * 8, d);
    }
  }

  /** After these calls on a new object one of its getters does not return its own slice's average. */
  predicate Misleads(c: ClockState, es: seq<Event>, source: Source) {
    var (k, c') := Run(NEW_KBPS, c, es, source);
    !OwnAverages(k, Ms(Warm(source, c')))
  }

  /** This never happens, whatever calls a new object has seen, on a clock that was set before. */
  lemma {:induction false} GettersAreOwnAverage(c: ClockState, es: seq<Event>, source: Source)
    requires c.cacheUs > 0 && PositiveSource(source)
    ensures !Misleads(c, es, source)
  {
    StartTimesStayEqual(NEW_KBPS, c, es, source);
    var (k, c') := Run(NEW_KBPS, c, es, source);
    EqualStartsGiveOwnAverages(k, Ms(Warm(source, c')));
  }

  /** Whatever calls a new object sees and whatever positive times gettimeofday answers, this holds. */
  ghost predicate AlwaysOwnAverages(c: ClockState) {
    forall es: seq<Event>, source: Source :: PositiveSource(source) ==> !Misleads(c, es, source)
  }

  /** set_io on a clock that is not set, then 125 sent bytes, then a refresh of the clock. */
  predicate IsLateStart(es: seq<Event>) {
    |es| == 3 && es[0] == SetIo(None, None) && es[1] == AddDelta(0, 125) && es[2] == Tick
  }

  lemma RunStep(k: KbpsState, c: ClockState, es: seq<Event>, source: Source)
    requires es != []
    ensures Run(k, c, es, source) == Run(Apply(k, c, es[0], source).0, Apply(k, c, es[0], source).1, es[1..], source)
  {
  }

  lemma RunThree(k: KbpsState, c: ClockState, es: seq<Event>, source: Source)
    requires |es| == 3
    ensures var (k1, c1) := Apply(k, c, es[0], source);
            var (k2, c2) := Apply(k1, c1, es[1], source);
            Run(k, c, es, source) == Apply(k2, c2, es[2], source)
  {
    var (k1, c1) := Apply(k, c, es[0], source);
    var (k2, c2) := Apply(k1, c1, es[1], source);
    RunStep(k, c, es, source);
    RunStep(k1, c1, es[1..], source);
    RunStep(k2, c2, es[1..][1..], source);
  }

  lemma LateStartGoesOn(k: KbpsState, c: ClockState)
    requires k.output.acct == A.SetIo(A.EMPTY, None)
    ensures var source := FailsAt(c.calls);
            var (k1, c1) := Apply(k, ClockState(1000, 1000, c.calls + 2), AddDelta(0, 125), source);
            var (k', c') := Apply(k1, c1, Tick, source);
            && k'.input.starttime == k.input.starttime && k'.output.starttime == k.output.starttime
            && A.Total(k'.output.acct) == 125 && c'.cacheUs == 1001_000
  {
  }

  lemma LateStartRun(c: ClockState, es: seq<Event>)
    requires c.cacheUs <= 0 && IsLateStart(es)
    ensures var (k, c') := Run(NEW_KBPS, c, es, FailsAt(c.calls));
            && k.input.starttime <= 0 && k.output.starttime == 1
            && A.Total(k.output.acct) == 125 && c'.cacheUs == 1001_000
  {
    FailedReadingSeparates(NEW_KBPS, c);
    LateStartGoesOn(SetIoBoth(NEW_KBPS, None, None, FailsAt(c.calls), c).0, c);
    RunThree(NEW_KBPS, c, es, FailsAt(c.calls));
  }

  /** The send getter then says 0 kbps, but its slice's own average is 1. */
  lemma LateStartIsWrong(k: KbpsState, now: int)
    requires k.input.starttime <= 0 && k.output.starttime == 1 && A.Total(k.output.acct) == 125 && now == 1001
    ensures SendKbps(k, now) == 0 && IsAverage(1, A.Total(k.output.acct), now - k.output.starttime)
    ensures !OwnAverages(k, now)
  {
    ZeroAverage(now - k.input.starttime);
  }

  lemma LateStartFails(c: ClockState, es: seq<Event>)
    requires c.cacheUs <= 0 && IsLateStart(es)
    ensures Misleads(c, es, FailsAt(c.calls))
  {
    LateStartRun(c, es);
    LateStartIsWrong(Run(NEW_KBPS, c, es, FailsAt(c.calls)).0, 1001);
  }

  lemma FailsAtIsPositive(at: nat)
    ensures PositiveSource(FailsAt(at))
  {
  }

  lemma LateStartExists() returns (es: seq<Event>)
    ensures IsLateStart(es)
  {
    es := [SetIo(None, None), AddDelta(0, 125), Tick];
  }

  lemma ZeroAverage(d: int)
    requires d > 1000
    ensures Average(125, d) == 0
  {
  }

  /**
   Exactly when the getters of a new object always return their own slice's average: when the clock was
   set before its first call. On any other clock some calls make one of them wrong.
   */
  lemma {:induction false} GettersAreOwnAverageIff(c: ClockState)
    ensures AlwaysOwnAverages(c) <==> c.cacheUs > 0
  {
    if c.cacheUs > 0 {
      forall es: seq<Event>, source: Source | PositiveSource(source)
        ensures !Misleads(c, es, source)
      {
        GettersAreOwnAverage(c, es, source);
      }
    } else {
      var es := LateStartExists();
      LateStartFails(c, es);
      FailsAtIsPositive(c.calls);
    }
  }

  lemma AverageBrackets(bits: int, d: int)
    requires d > 0 && 0 <= bits < 0x8000_0000 * d
    ensures var q := Narrow32(TruncDiv(bits, d)); q * d <= bits < (q + 1) * d
  {
    TruncDivIsFloor(bits, d);
    QuotientBelow(TruncDiv(bits, d), d, 0x8000_0000);
  }

  /** Adding its own delta counts the unreported bytes a second time, and leaves them unreported. */
  lemma AddedToItselfDoubles(a: A.Acct)
    ensures A.Total(AddedToItself(a)) == 2 * A.Total(a) - a.delta
    ensures AddedToItself(a).delta == A.Total(a)
  {
  }

  // ----- the getters, by the clock alone

  /** How often the clock is refreshed in a run. */
  function Ticks(es: seq<Event>): nat {
    if es == [] then 0 else (if es[0].Tick? then 1 else 0) + Ticks(es[1..])
  }

  /** What a set clock is after these calls: only the ticks refresh it. */
  function ClockAfter(c: ClockState, es: seq<Event>, source: Source): ClockState {
    After(c, Answers(source, c.calls, Ticks(es)))
  }

  lemma {:induction false} AfterHead(source: Source, c: ClockState, n: nat)
    ensures var c' := Absorb(c, source(c.calls));
            After(c', Answers(source, c'.calls, n)) == After(c, Answers(source, c.calls, n + 1))
  {
    var c' := Absorb(c, source(c.calls));
    if n == 0 {
      AfterOneMore(source, c, 0);
      assert Answers(source, c.calls, 0) == [] == Answers(source, c'.calls, 0);
    } else {
      AfterHead(source, c, n - 1);
      AfterOneMore(source, c', n - 1);
      AfterOneMore(source, c, n);
    }
  }

  lemma {:induction false} RunClock(k: KbpsState, c: ClockState, es: seq<Event>, source: Source)
    requires c.cacheUs > 0 && PositiveSource(source)
    ensures Run(k, c, es, source).1 == ClockAfter(c, es, source)
    ensures ClockAfter(c, es, source).cacheUs > 0
    decreases es
  {
    if es == [] {
      assert Answers(source, c.calls, 0) == [];
    } else {
      var (k', c') := Apply(k, c, es[0], source);
      RunClock(k', c', es[1..], source);
      if es[0].Tick? {
        AfterHead(source, c, Ticks(es[1..]));
      }
    }
  }

  /**
   On a set clock the first set_io starts both slices at the cached time; on a cold one at the time that
   gettimeofday then answers, if it does.
   */
  lemma FirstSetIoStarts(k: KbpsState, inn: Option<int>, out: Option<int>, source: Source, c: ClockState)
    requires k.input.starttime == k.output.starttime == 0
    ensures var k' := SetIoBoth(k, inn, out, source, c).0;
            && (c.cacheUs > 0 ==> k'.input.starttime == k'.output.starttime == c.cacheUs / 1000)
            && (c.cacheUs <= 0 && source(c.calls).Now? && source(c.calls).us > 0 ==>
                  k'.input.starttime == k'.output.starttime == source(c.calls).us / 1000)
  {
  }

  lemma {:induction false} NoStartYet(k: KbpsState, c: ClockState, es: seq<Event>, source: Source)
    requires k.input.starttime == k.output.starttime == 0 && forall e :: e in es ==> !e.SetIo?
    ensures var k' := Run(k, c, es, source).0; k'.input.starttime == k'.output.starttime == 0
    decreases es
  {
    if es != [] {
      assert es[0] in es && forall e :: e in es[1..] ==> e in es;
      var (k', c') := Apply(k, c, es[0], source);
      NoStartYet(k', c', es[1..], source);
    }
  }

  lemma {:induction false} RunsAppend(k: KbpsState, c: ClockState, es: seq<Event>, fs: seq<Event>, source: Source)
    ensures Run(k, c, es + fs, source) == Run(Run(k, c, es, source).0, Run(k, c, es, source).1, fs, source)
    decreases es
  {
    if es == [] {
      assert es + fs == fs;
    } else {
      assert (es + fs)[1..] == es[1..] + fs;
      var (k', c') := Apply(k, c, es[0], source);
      RunsAppend(k', c', es[1..], fs, source);
    }
  }

  lemma RunCons(k: KbpsState, c: ClockState, e: Event, es: seq<Event>, source: Source)
    ensures Run(k, c, [e] + es, source) == Run(Apply(k, c, e, source).0, Apply(k, c, e, source).1, es, source)
  {
    assert ([e] + es)[1..] == es;
  }

  /** Both getters return averages over the time since `start`, each of its own slice, and 0 if there was none. */
  predicate AveragesSince(k: KbpsState, start: int, now: int) {
    var (sent, received) := (A.Total(k.output.acct), A.Total(k.input.acct));
    && (Fits32(sent, now - start) ==> IsAverage(SendKbps(k, now), sent, now - start))
    && (Fits32(received, now - start) ==> IsAverage(RecvKbps(k, now), received, now - start))
    && (now <= start ==> SendKbps(k, now) == 0 == RecvKbps(k, now))
  }

  /** The start times after a first set_io and any further calls are the clock at that set_io. */
  lemma {:induction false} StartedAtFirstSetIo(
    c: ClockState, before: seq<Event>, first: Event, rest: seq<Event>, source: Source)
    requires c.cacheUs >= 1000 && PastFirstMs(source)
    requires (forall e :: e in before ==> !e.SetIo?) && first.SetIo?
    ensures var k := Run(NEW_KBPS, c, before + ([first] + rest), source).0;
            k.input.starttime == k.output.starttime == ClockAfter(c, before, source).cacheUs / 1000
  {
    var (k1, c1) := Run(NEW_KBPS, c, before, source);
    assert c1.cacheUs >= 1000 && c1 == ClockAfter(c, before, source) by {
      RunClock(NEW_KBPS, c, before, source);
      StaysPastFirstMs(NEW_KBPS, c, before, source);
    }
    NoStartYet(NEW_KBPS, c, before, source);
    FirstSetIoStarts(k1, first.inn, first.out, source, c1);
    var (k2, c2) := Apply(k1, c1, first, source);
    RunsAppend(NEW_KBPS, c, before, [first] + rest, source);
    RunCons(k1, c1, first, rest, source);
    SetStartTimesStay(k2, c2, rest, source);
  }

  lemma {:induction false} StaysPastFirstMs(k: KbpsState, c: ClockState, es: seq<Event>, source: Source)
    requires c.cacheUs >= 1000 && PastFirstMs(source)
    ensures Run(k, c, es, source).1.cacheUs >= 1000
    decreases es
  {
    if es != [] {
      var (k', c') := Apply(k, c, es[0], source);
      StaysPastFirstMs(k', c', es[1..], source);
    }
  }

  /**
   The getters of a new object after any calls, on a clock that was set before: they return the averages
   over the time from its first set_io, by the clock of that moment, until now.
   */
  lemma {:induction false} GettersSinceFirstSetIo(
    c: ClockState, before: seq<Event>, first: Event, rest: seq<Event>, source: Source,
    k: KbpsState, start: int, now: int)
    requires c.cacheUs >= 1000 && PastFirstMs(source)
    requires (forall e :: e in before ==> !e.SetIo?) && first.SetIo?
    requires k == Run(NEW_KBPS, c, before + ([first] + rest), source).0
    requires start == ClockAfter(c, before, source).cacheUs / 1000
    requires now == ClockAfter(c, before + ([first] + rest), source).cacheUs / 1000
    ensures AveragesSince(k, start, now)
  {
    StartedAtFirstSetIo(c, before, first, rest, source);
    EqualStartsAverageSince(k, start, now);
  }

  lemma EqualStartsAverageSince(k: KbpsState, start: int, now: int)
    requires k.input.starttime == k.output.starttime == start
    ensures AveragesSince(k, start, now)
  {
    EqualStartsGiveOwnAverages(k, now);
  }

  /** What the getters read as `now` after such a run is that clock. */
  lemma NowIsTheClock(c: ClockState, es: seq<Event>, source: Source)
    requires c.cacheUs >= 1000 && PastFirstMs(source)
    ensures Ms(Warm(source, Run(NEW_KBPS, c, es, source).1)) == ClockAfter(c, es, source).cacheUs / 1000
  {
    RunClock(NEW_KBPS, c, es, source);
  }

  // ----- the stored rates add up to the slice's traffic

  function SliceEvents(es: seq<Event>, input: bool): seq<A.Event> {
    if input then InputEvents(es) else OutputEvents(es)
  }

  function SliceEvent(e: Event, input: bool): seq<A.Event> {
    if input then InputEvent(e) else OutputEvent(e)
  }

  /** On a set clock a call of set_io or sample sees the cached time and the slice's total; others see nothing. */
  lemma SeenNow(k: KbpsState, c: ClockState, e: Event, source: Source, input: bool)
    requires c.cacheUs >= 1000 && PastFirstMs(source)
    ensures var (k', c') := Apply(k, c, e, source);
            var seen := Seen(k, c, e, source, input);
            && c'.cacheUs >= 1000
            && |seen| == (if e.SetIo? || e.Sample? then 1 else 0)
            && (seen != [] ==>
                  && seen[0].time == c.cacheUs / 1000 > 0
                  && seen[0].total == A.Total(SliceOf(k', input).acct))
  {
  }

  lemma OneKeptEvent(a: A.Acct, head: seq<A.Event>, rest: seq<A.Event>)
    requires |head| <= 1 && A.Keeps(a, head + rest) && A.Grows(a, head + rest)
    ensures A.Keeps(A.Run(a, head), rest) && A.Grows(A.Run(a, head), rest)
    ensures A.Total(a) <= A.Total(A.Run(a, head))
  {
    if head == [] {
      assert head + rest == rest;
    } else {
      assert (head + rest)[0] == head[0] && (head + rest)[1..] == rest;
      assert A.Run(a, head) == A.Apply(a, head[0]) by {
        RunOne(a, head);
      }
    }
  }

  /** A steady history that begins at `total` bytes or more */
  predicate SteadyFrom(h: seq<Obs>, total: int) {
    Steady(h) && forall i :: 0 <= i < |h| ==> h[i].total >= total
  }

  lemma SteadyPrepend(seen: seq<Obs>, rest: seq<Obs>, before: int, total: int)
    requires |seen| <= 1 && (seen != [] ==> seen[0].time > 0 && seen[0].total == total)
    requires SteadyFrom(rest, total) && before <= total
    ensures SteadyFrom(seen + rest, before)
  {
  }

  /** What a slice sees is steady, if the clock is set and the slice's account keeps and grows. */
  lemma {:induction false} HistoryIsSteady(k: KbpsState, c: ClockState, es: seq<Event>, source: Source, input: bool)
    requires c.cacheUs >= 1000 && PastFirstMs(source)
    requires A.Keeps(SliceOf(k, input).acct, SliceEvents(es, input))
    requires A.Grows(SliceOf(k, input).acct, SliceEvents(es, input))
    ensures SteadyFrom(History(k, c, es, source, input), A.Total(SliceOf(k, input).acct))
    decreases es
  {
    if es != [] {
      var (k', c') := Apply(k, c, es[0], source);
      var a, head, rest := SliceOf(k, input).acct, SliceEvent(es[0], input), SliceEvents(es[1..], input);
      assert SliceOf(k', input).acct == A.Run(a, head) by {
        OneEvent(k, c, es[0], source);
      }
      assert && A.Keeps(A.Run(a, head), rest) && A.Grows(A.Run(a, head), rest)
             && A.Total(a) <= A.Total(A.Run(a, head)) by {
        assert SliceEvents(es, input) == head + rest;
        OneKeptEvent(a, head, rest);
      }
      SeenNow(k, c, es[0], source, input);
      HistoryIsSteady(k', c', es[1..], source, input);
      SteadyPrepend(Seen(k, c, es[0], source, input), History(k', c', es[1..], source, input),
                    A.Total(a), A.Total(A.Run(a, head)));
    }
  }

  /** 30 s, 1 min, 5 min and 60 min, in ms */
  predicate IsWidth(width: nat) {
    width == 30_000 || width == 60_000 || width == 300_000 || width == 3_600_000
  }

  /** The window of `width` ms that a slice keeps. */
  function WindowOf(s: SliceState, width: nat): Window
    requires IsWidth(width)
  {
    if width == 30_000 then s.w30s
    else if width == 60_000 then s.w1m
    else if width == 300_000 then s.w5m
    else s.w60m
  }

  /**
   The slice's stored rate is that of the last closed window of `h`, and all the rates it ever stored,
   each times its window's length, add up to the bits that went by, up to one unit per window.
   */
  predicate Integrates(s: SliceState, h: seq<Obs>, width: nat, ks: seq<nat>)
    requires IsWidth(width) && Baselines(width, h, ks)
  {
    var n := |ks| - 1;
    var bits := 8 * (h[ks[n]].total - h[0].total);
    && WindowOf(s, width) == Expected(width, h, ks)
    && Integral(width, h, ks, n, 0) <= bits
    && (n > 0 ==> bits < Integral(width, h, ks, n, 1))
  }

  lemma SteadyIntegrates(s: SliceState, h: seq<Obs>, width: nat, ks: seq<nat>)
    requires IsWidth(width) && Baselines(width, h, ks)
    requires WindowsAre(s, h) && Steady(h) && Fits(h, ks)
    ensures Integrates(s, h, width, ks)
  {
    RatesIntegrateToTraffic(width, h, ks, |ks| - 1);
    IncrementalRefinesHistory(width, h, ks);
  }

  ghost predicate AllIntegrate(s: SliceState, h: seq<Obs>) {
    forall width: nat, ks: seq<nat> ::
      IsWidth(width) && Baselines(width, h, ks) && Fits(h, ks) ==> Integrates(s, h, width, ks)
  }

  lemma SteadyAllIntegrate(s: SliceState, h: seq<Obs>)
    requires WindowsAre(s, h) && Steady(h)
    ensures AllIntegrate(s, h)
  {
    forall width: nat, ks: seq<nat> | IsWidth(width) && Baselines(width, h, ks) && Fits(h, ks)
      ensures Integrates(s, h, width, ks)
    {
      SteadyIntegrates(s, h, width, ks);
    }
  }

  lemma NewWindows(input: bool)
    ensures WindowsAre(SliceOf(NEW_KBPS, input), [])
  {
  }

  /** What a new object has seen after any calls on a set clock, if totals are kept and counters grow. */
  lemma {:induction false} NewObjectIsSteady(c: ClockState, es: seq<Event>, source: Source, input: bool)
    requires c.cacheUs >= 1000 && PastFirstMs(source)
    requires A.Keeps(A.EMPTY, SliceEvents(es, input)) && A.Grows(A.EMPTY, SliceEvents(es, input))
    ensures Steady(History(NEW_KBPS, c, es, source, input))
    ensures WindowsAre(SliceOf(Run(NEW_KBPS, c, es, source).0, input), History(NEW_KBPS, c, es, source, input))
  {
    HistoryIsSteady(NEW_KBPS, c, es, source, input);
    NewWindows(input);
    WindowsFollowHistory(NEW_KBPS, c, es, source, input, []);
    NoneBefore(History(NEW_KBPS, c, es, source, input));
  }

  lemma NoneBefore(h: seq<Obs>)
    ensures [] + h == h
  {
  }

  /** So the rates that the slice ever stored add up to what it saw go by. */
  lemma {:induction false} StoredRatesIntegrate(
    c: ClockState, es: seq<Event>, source: Source, input: bool, s: SliceState, h: seq<Obs>)
    requires c.cacheUs >= 1000 && PastFirstMs(source)
    requires A.Keeps(A.EMPTY, SliceEvents(es, input)) && A.Grows(A.EMPTY, SliceEvents(es, input))
    requires s == SliceOf(Run(NEW_KBPS, c, es, source).0, input) && h == History(NEW_KBPS, c, es, source, input)
    ensures AllIntegrate(s, h)
  {
    NewObjectIsSteady(c, es, source, input);
    SteadyAllIntegrate(s, h);
  }

  // ----- what the two delta getters return

  /** The values that get_recv_bytes_delta (get_send_bytes_delta) returns in a run. */
  function Deltas(k: KbpsState, c: ClockState, es: seq<Event>, source: Source, input: bool): seq<int>
    decreases es
  {
    if es == [] then []
    else
      var (k', c') := Apply(k, c, es[0], source);
      (if es[0] == ReadDelta(input) then [A.Unreported(SliceOf(k, input).acct)] else [])
      + Deltas(k', c', es[1..], source, input)
  }

  /** They are the reports of the slice's account. */
  lemma {:induction false} DeltasAreReports(k: KbpsState, c: ClockState, es: seq<Event>, source: Source, input: bool)
    ensures Deltas(k, c, es, source, input) == A.Reports(SliceOf(k, input).acct, SliceEvents(es, input))
    decreases es
  {
    if es != [] {
      var (k', c') := Apply(k, c, es[0], source);
      var a, head, rest := SliceOf(k, input).acct, SliceEvent(es[0], input), SliceEvents(es[1..], input);
      assert SliceOf(k', input).acct == A.Run(a, head) by {
        OneEvent(k, c, es[0], source);
      }
      assert SliceEvents(es, input) == head + rest;
      assert es[0] == ReadDelta(input) <==> head == [A.Reported];
      DeltasAreReports(k', c', es[1..], source, input);
      ReportsOfHead(a, head, rest);
    }
  }

  lemma ReportsOfHead(a: A.Acct, head: seq<A.Event>, rest: seq<A.Event>)
    requires |head| <= 1
    ensures A.Reports(a, head + rest)
         == (if head == [A.Reported] then [A.Unreported(a)] else []) + A.Reports(A.Run(a, head), rest)
  {
    if head == [] {
      assert head + rest == rest;
    } else {
      assert (head + rest)[1..] == rest;
      RunOne(a, head);
    }
  }

  /** get_recv_bytes_delta or get_send_bytes_delta */
  function ReadDelta(input: bool): Event {
    if input then ReadRecvDelta else ReadSendDelta
  }

  lemma DeltasUpToRead(c: ClockState, es: seq<Event>, source: Source, input: bool)
    ensures Deltas(NEW_KBPS, c, es + [ReadDelta(input)], source, input)
         == A.Reports(A.EMPTY, SliceEvents(es, input) + [A.Reported])
  {
    DeltasAreReports(NEW_KBPS, c, es + [ReadDelta(input)], source, input);
    EventsAppend(es, ReadDelta(input), input);
  }

  lemma NewObjectTotal(c: ClockState, es: seq<Event>, source: Source, input: bool)
    ensures SliceOf(Run(NEW_KBPS, c, es, source).0, input).acct == A.Run(A.EMPTY, SliceEvents(es, input))
  {
    AccountsFollow(NEW_KBPS, c, es, source);
  }

  /**
   The deltas that a new object hands out in one direction, up to and including a last read, add up to
   its total at that read.
   */
  lemma {:induction false} ObjectDeltasTelescope(c: ClockState, es: seq<Event>, source: Source, input: bool)
    ensures A.Sum(Deltas(NEW_KBPS, c, es + [ReadDelta(input)], source, input))
         == A.Total(SliceOf(Run(NEW_KBPS, c, es, source).0, input).acct)
  {
    DeltasUpToRead(c, es, source, input);
    NewObjectTotal(c, es, source, input);
    A.DeltasTelescope(SliceEvents(es, input));
  }

  /** None of them is negative, if totals are kept and counters grow. */
  lemma {:induction false} ObjectDeltasNotNegative(
    c: ClockState, es: seq<Event>, source: Source, input: bool)
    requires A.Keeps(A.EMPTY, SliceEvents(es, input)) && A.Grows(A.EMPTY, SliceEvents(es, input))
    ensures forall d :: d in Deltas(NEW_KBPS, c, es, source, input) ==> d >= 0
  {
    DeltasAreReports(NEW_KBPS, c, es, source, input);
    A.TotalNeverDecreases(A.EMPTY, SliceEvents(es, input));
  }

  lemma {:induction false} EventsAppend(es: seq<Event>, e: Event, input: bool)
    ensures SliceEvents(es + [e], input) == SliceEvents(es, input) + SliceEvent(e, input)
  {
    if es == [] {
      assert es + [e] == [e] && [e][1..] == [];
    } else {
      assert (es + [e])[1..] == es[1..] + [e];
      EventsAppend(es[1..], e, input);
    }
  }
}
