/**
 The byte account of one traffic direction: the part of SrsKbpsSlice (src/base/app_kbps.h:47-89)
 that counts bytes, and what set_io, sample, add_delta and get_*_bytes_delta do to it.

 The class in Kbps.dfy keeps this account in its fields; the server machine in World.dfy keeps one
 per connection. The laws below are about every sequence of operations on an account.
 */
module Accounts {
  import opened Base

  /** `attached` says that the io pointer is not NULL. */
  datatype Acct = Acct(attached: bool, bytes: int, base: int, last: int, delta: int)

  const EMPTY := Acct(false, 0, 0, 0, 0)

  /** get_total_bytes */
  function Total(a: Acct): int {
    a.bytes + a.last - a.base
  }

  /** set_io: `reading` is the counter of the new io, or None for a NULL io. */
  function SetIo(a: Acct, reading: Option<int>): Acct {
    var start := if reading.Some? then reading.value else 0;
    Acct(reading.Some?, if a.attached then a.bytes + a.last - a.base else a.bytes, start, start, a.delta)
  }

  /** sample: `reading` is what the io counts now; a NULL io is not read. */
  function Sample(a: Acct, reading: int): Acct {
    if a.attached then a.(last := reading) else a
  }

  function Add(a: Acct, d: int): Acct {
    a.(last := a.last + d)
  }

  /** get_*_bytes_delta marks the whole total as reported ... */
  function Report(a: Acct): Acct {
    a.(delta := Total(a))
  }

  /** ... and returns the part that was not. */
  function Unreported(a: Acct): int {
    Total(a) - a.delta
  }

  /** What resampling an account against the counter `reading` adds to the server's account ... */
  function Pending(a: Acct, reading: int): int {
    Unreported(Sample(a, reading))
  }

  /** ... and what it leaves behind. */
  function Settled(a: Acct, reading: int): Acct {
    Report(Sample(a, reading))
  }

  // ----- runs

  datatype Event =
    | Opened(io: Option<int>)
    | Sampled(reading: int)
    | Added(d: int)
    | Reported

  function Apply(a: Acct, e: Event): Acct {
    match e
    case Opened(io) => SetIo(a, io)
    case Sampled(reading) => Sample(a, reading)
    case Added(d) => Add(a, d)
    case Reported => Report(a)
  }

  function Run(a: Acct, es: seq<Event>): Acct
    decreases es
  {
    if es == [] then a else Run(Apply(a, es[0]), es[1..])
  }

  /** The values that the Reported events of a run return. */
  function Reports(a: Acct, es: seq<Event>): seq<int>
    decreases es
  {
    if es == [] then []
    else (if es[0].Reported? then [Unreported(a)] else []) + Reports(Apply(a, es[0]), es[1..])
  }

  function Sum(xs: seq<int>): int {
    if xs == [] then 0 else xs[0] + Sum(xs[1..])
  }

  // ----- what the total means

  /** Connection mode: the account reads an io and is never added to. */
  predicate ConnectionMode(es: seq<Event>) {
    forall e :: e in es ==> !e.Added?
  }

  /** The last reading of the session that is open when `es` begins, if that session last read `seen`. */
  function Latest(es: seq<Event>, seen: int): int {
    if es == [] || es[0].Opened? then seen
    else Latest(es[1..], if es[0].Sampled? then es[0].reading else seen)
  }

  /** Over the sessions that `es` opens on an io: last reading minus opening reading. */
  function SessionBytes(es: seq<Event>): int {
    if es == [] then 0
    else
      SessionBytes(es[1..])
      + match es[0]
        case Opened(Some(start)) => Latest(es[1..], start) - start
        case _ => 0
  }

  lemma {:induction false} TotalFrom(a: Acct, es: seq<Event>)
    requires ConnectionMode(es) && (a.attached || a.last == a.base)
    ensures Total(Run(a, es))
         == a.bytes + (if a.attached then Latest(es, a.last) - a.base else 0) + SessionBytes(es)
    decreases es
  {
    if es != [] {
      assert forall e :: e in es[1..] ==> e in es;
      assert es[0] in es;
      TotalFrom(Apply(a, es[0]), es[1..]);
    }
  }

  /** The total is the sum over the sessions of (last sampled counter - counter at set_io). */
  lemma {:induction false} TotalIsSumOfSessions(es: seq<Event>)
    requires ConnectionMode(es)
    ensures Total(Run(EMPTY, es)) == SessionBytes(es)
  {
    TotalFrom(EMPTY, es);
  }

  /** set_io keeps the total exactly when there was an io, or nothing was counted without one. */
  lemma SetIoKeepsTotalIff(a: Acct, reading: Option<int>)
    ensures Total(SetIo(a, reading)) == Total(a) <==> a.attached || a.last == a.base
    ensures !a.attached ==> Total(a) - Total(SetIo(a, reading)) == a.last - a.base
  {
  }

  // ----- growth

  /** Every set_io of the run meets the condition of SetIoKeepsTotalIff. */
  predicate Keeps(a: Acct, es: seq<Event>)
    decreases es
  {
    es == [] || ((es[0].Opened? ==> a.attached || a.last == a.base) && Keeps(Apply(a, es[0]), es[1..]))
  }

  /** Inside a session the io's counter is never read smaller than before; added deltas are not negative. */
  predicate Grows(a: Acct, es: seq<Event>)
    decreases es
  {
    es == []
    || (&& (es[0].Sampled? && a.attached ==> a.last <= es[0].reading)
        && (es[0].Added? ==> es[0].d >= 0)
        && Grows(Apply(a, es[0]), es[1..]))
  }

  lemma {:induction false} ConnectionModeKeeps(a: Acct, es: seq<Event>)
    requires ConnectionMode(es) && (a.attached || a.last == a.base)
    ensures Keeps(a, es)
    decreases es
  {
    if es != [] {
      assert forall e :: e in es[1..] ==> e in es;
      assert es[0] in es;
      ConnectionModeKeeps(Apply(a, es[0]), es[1..]);
    }
  }

  /** The total never decreases, and no reported delta is negative. */
  lemma {:induction false} TotalNeverDecreases(a: Acct, es: seq<Event>)
    requires Keeps(a, es) && Grows(a, es)
    ensures Total(a) <= Total(Run(a, es))
    ensures Unreported(a) >= 0 ==> forall d :: d in Reports(a, es) ==> d >= 0
    decreases es
  {
    if es != [] {
      SetIoKeepsTotalIff(a, None);
      TotalNeverDecreases(Apply(a, es[0]), es[1..]);
    }
  }

  // ----- reported deltas

  lemma {:induction false} SumAppend(xs: seq<int>, ys: seq<int>)
    ensures Sum(xs + ys) == Sum(xs) + Sum(ys)
  {
    if xs == [] {
      assert xs + ys == ys;
    } else {
      assert (xs + ys)[1..] == xs[1..] + ys;
      SumAppend(xs[1..], ys);
    }
  }

  lemma {:induction false} ReportsSumToDelta(a: Acct, es: seq<Event>)
    ensures Sum(Reports(a, es)) == Run(a, es).delta - a.delta
    decreases es
  {
    if es != [] {
      var head := if es[0].Reported? then [Unreported(a)] else [];
      SumAppend(head, Reports(Apply(a, es[0]), es[1..]));
      ReportsSumToDelta(Apply(a, es[0]), es[1..]);
    }
  }

  lemma {:induction false} RunAppend(a: Acct, es: seq<Event>, fs: seq<Event>)
    ensures Run(a, es + fs) == Run(Run(a, es), fs)
    decreases es
  {
    if es == [] {
      assert es + fs == fs;
    } else {
      assert (es + fs)[1..] == es[1..] + fs;
      RunAppend(Apply(a, es[0]), es[1..], fs);
    }
  }

  // ----- server mode

  /** Server mode: no io is ever attached; all bytes come in as deltas. */
  predicate ServerMode(es: seq<Event>) {
    forall e :: e in es && e.Opened? ==> e.io.None?
  }

  predicate Reopens(es: seq<Event>) {
    exists e :: e in es && e.Opened?
  }

  /** The sum of the deltas added after the last set_io of the run. */
  function AddedSinceOpened(es: seq<Event>): int {
    if es == [] then 0
    else AddedSinceOpened(es[1..]) + if es[0].Added? && !Reopens(es[1..]) then es[0].d else 0
  }

  lemma {:induction false} ServerModeFrom(a: Acct, es: seq<Event>)
    requires ServerMode(es) && !a.attached
    ensures !Run(a, es).attached && Run(a, es).bytes == a.bytes
    ensures Total(Run(a, es)) == a.bytes + (if Reopens(es) then 0 else a.last - a.base) + AddedSinceOpened(es)
    decreases es
  {
    if es != [] {
      assert es == [es[0]] + es[1..];
      ServerModeFrom(Apply(a, es[0]), es[1..]);
    }
  }

  lemma OpenedOnce(a: Acct)
    ensures Run(a, [Opened(None)]) == SetIo(a, None)
    ensures Keeps(a, [Opened(None)]) <==> a.attached || a.last == a.base
  {
    assert [Opened(None)][1..] == [];
  }

  /**
   In server mode the total is what was added since the last set_io: a further set_io(NULL, NULL)
   takes exactly that away again, so only the first one, or one after no net addition, keeps the total.
   */
  lemma {:induction false} ServerModeTotal(es: seq<Event>)
    requires ServerMode(es)
    ensures Total(Run(EMPTY, es)) == AddedSinceOpened(es)
    ensures Total(Run(EMPTY, es + [Opened(None)])) == 0
    ensures Keeps(Run(EMPTY, es), [Opened(None)]) <==> AddedSinceOpened(es) == 0
  {
    ServerModeFrom(EMPTY, es);
    RunAppend(EMPTY, es, [Opened(None)]);
    OpenedOnce(Run(EMPTY, es));
  }

  /**
   Deltas telescope: whatever happened before, everything returned up to and including a
   read adds up to the total at that read.
   */
  lemma {:induction false} DeltasTelescope(es: seq<Event>)
    ensures Sum(Reports(EMPTY, es + [Reported])) == Total(Run(EMPTY, es))
  {
    ReportsSumToDelta(EMPTY, es + [Reported]);
    RunAppend(EMPTY, es, [Reported]);
    assert Run(Run(EMPTY, es), [Reported]) == Report(Run(EMPTY, es));
  }
}
