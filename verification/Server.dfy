/**
 SrsServer's tables (src/base/app_server.cpp), changed in place: resample_kbps, remove,
 close_listeners and listen_base. World.dfy shows what they add up to when coroutines interleave.
 */
module Server {
  import opened Base
  import opened Clock
  import opened Thread
  import opened Kbps
  import A = Accounts
  import opened World

  /** The open client descriptors of the process */
  class Descriptors {
    var open: set<int>
  }

  /** A connection: its rates, its descriptor while that is open, and its thread while it exists. */
  class SrsConnection {
    const kbps: SrsKbps
    var stfd: Option<int>
    var pthread: SrsThread?

    constructor (kbps: SrsKbps, fd: int)
      ensures this.kbps == kbps && stfd == Some(fd)
      ensures pthread != null && fresh(pthread) && pthread.View() == NEW_THREAD
    {
      this.kbps := kbps;
      stfd := Some(fd);
      pthread := new SrsThread();
    }

    /** stop(): close the descriptor and free the thread, whose destructor stops it. */
    method Stop(d: Descriptors)
      modifies this, pthread, d
      ensures stfd.None? && pthread == null
      ensures d.open == if old(stfd).Some? then old(d.open) - {old(stfd).value} else old(d.open)
      ensures old(pthread) != null ==>
                && old(pthread).tid.None? && old(pthread).cid == old(pthread.cid)
                && old(pthread).loop == (old(pthread.loop) && old(pthread.tid).None?)
    {
      if stfd.Some? {
        d.open := d.open - {stfd.value};
        stfd := None;
      }
      if pthread != null {
        var joining := pthread.Stop();
        if joining {
          pthread.FinishStop(); // st_thread_join fails at once
        }
        pthread := null;
      }
    }

    /** The two directions' accounts */
    ghost function Accounts(): (A.Acct, A.Acct)
      reads kbps.input, kbps.output
    {
      (kbps.input.Account(), kbps.output.Account())
    }

    /** The accounts once they have been sampled and reported */
    ghost function Settled(): (A.Acct, A.Acct)
      reads kbps.input, kbps.output, kbps.input.io, kbps.output.io
    {
      (A.Settled(kbps.input.Account(), kbps.Counters().0), A.Settled(kbps.output.Account(), kbps.Counters().1))
    }
  }

  /** What resampling the connection would add to the server, in each direction. */
  ghost function RecvPending(c: SrsConnection): int
    reads c.kbps.input, c.kbps.output, c.kbps.input.io, c.kbps.output.io
  {
    A.Pending(c.kbps.input.Account(), c.kbps.Counters().0)
  }

  ghost function SendPending(c: SrsConnection): int
    reads c.kbps.input, c.kbps.output, c.kbps.input.io, c.kbps.output.io
  {
    A.Pending(c.kbps.output.Account(), c.kbps.Counters().1)
  }

  /** What the table of listeners says of one of them. */
  datatype Entry = Entry(kind: ListenerType, port: int)

  class SrsListener {
    const entry: Entry

    constructor (kind: ListenerType, port: int)
      ensures entry == Entry(kind, port)
    {
      entry := Entry(kind, port);
    }
  }

  /** The listeners that are (not) of the given type, in their order. */
  function Select(ls: seq<SrsListener>, kind: ListenerType, same: bool): seq<SrsListener> {
    if ls == [] then []
    else (if (ls[0].entry.kind == kind) == same then [ls[0]] else []) + Select(ls[1..], kind, same)
  }

  /** Every listener is either kept or freed, and as often as it was in the table. */
  lemma {:induction false} SelectSplits(ls: seq<SrsListener>, kind: ListenerType)
    ensures multiset(Select(ls, kind, true)) + multiset(Select(ls, kind, false)) == multiset(ls)
    ensures forall l :: l in Select(ls, kind, true) ==> l.entry.kind == kind
    ensures forall l :: l in Select(ls, kind, false) ==> l.entry.kind != kind
  {
    if ls != [] {
      SelectSplits(ls[1..], kind);
      assert ls == [ls[0]] + ls[1..];
    }
  }

  lemma {:induction false} SelectKinds(ls: seq<SrsListener>, kind: ListenerType)
    ensures forall i :: 0 <= i < |Select(ls, kind, false)| ==> Select(ls, kind, false)[i].entry.kind != kind
  {
    if ls != [] {
      SelectKinds(ls[1..], kind);
    }
  }

  lemma PushedEntries(ls: seq<SrsListener>, kept: seq<SrsListener>, ports: seq<int>)
    requires |ls| == |kept| + |ports| && ls[..|kept|] == kept
    requires forall m :: |kept| <= m < |ls| ==> ls[m].entry == Entry(BaseStream, ports[m - |kept|])
    ensures Entries(ls) == Entries(kept) + BaseEntries(ports)
  {
    forall i | 0 <= i < |ls|
      ensures Entries(ls)[i] == (Entries(kept) + BaseEntries(ports))[i]
    {
      if i < |kept| {
        assert kept[i] == ls[i];
      }
    }
  }

  lemma SelectKeeps(ls: seq<SrsListener>, it: nat, kind: ListenerType)
    requires it < |ls| && ls[it].entry.kind != kind
    ensures ls[..it] + Select(ls[it..], kind, false) == ls[..it + 1] + Select(ls[it + 1..], kind, false)
    ensures Select(ls[it..], kind, true) == Select(ls[it + 1..], kind, true)
  {
    assert ls[it..][1..] == ls[it + 1..];
    assert ls[..it + 1] == ls[..it] + [ls[it]];
  }

  lemma SelectCuts(ls: seq<SrsListener>, it: nat, kind: ListenerType)
    requires it < |ls| && ls[it].entry.kind == kind
    ensures var cut := ls[..it] + ls[it + 1..];
            && ls[..it] + Select(ls[it..], kind, false) == cut[..it] + Select(cut[it..], kind, false)
            && Select(ls[it..], kind, true) == [ls[it]] + Select(cut[it..], kind, true)
  {
    var cut := ls[..it] + ls[it + 1..];
    assert ls[it..][1..] == ls[it + 1..] == cut[it..];
    assert cut[..it] == ls[..it];
  }

  function Entries(ls: seq<SrsListener>): seq<Entry> {
    seq(|ls|, i requires 0 <= i < |ls| => ls[i].entry)
  }

  function BaseEntries(ports: seq<int>): seq<Entry> {
    seq(|ports|, i requires 0 <= i < |ports| => Entry(BaseStream, ports[i]))
  }

  // ----- what one call of listen_base leaves

  function Others(es: seq<Entry>): seq<Entry> {
    if es == [] then []
    else Others(es[..|es| - 1]) + if es[|es| - 1].kind.BaseStream? then [] else [es[|es| - 1]]
  }

  /** One call of listen_base: the ports it read, and how many listeners it pushed before it returned. */
  datatype Reload = Reload(ports: seq<int>, pushed: nat)

  predicate Possible(r: Reload) {
    r.pushed <= |r.ports|
  }

  /** What that call leaves of a table, as ListenBase promises. */
  function Reloaded(es: seq<Entry>, r: Reload): seq<Entry>
    requires Possible(r)
  {
    Others(es) + BaseEntries(r.ports[..r.pushed])
  }

  lemma {:induction false} OthersAppend(es: seq<Entry>, fs: seq<Entry>)
    ensures Others(es + fs) == Others(es) + Others(fs)
  {
    if fs == [] {
      assert es + fs == es;
    } else {
      assert (es + fs)[..|es + fs| - 1] == es + fs[..|fs| - 1];
      OthersAppend(es, fs[..|fs| - 1]);
    }
  }

  /** Selecting the listeners of other types is selecting their entries. */
  lemma {:induction false} SelectsOthers(ls: seq<SrsListener>)
    ensures Entries(Select(ls, BaseStream, false)) == Others(Entries(ls))
  {
    if ls != [] {
      SelectsOthers(ls[1..]);
      OthersAppend([ls[0].entry], Entries(ls[1..]));
      assert Entries(ls) == [ls[0].entry] + Entries(ls[1..]);
      assert Others([]) == [];
    }
  }

  // ----- the server

  /** The server's rates after bytes were added to both directions. */
  function Grown(k: KbpsState, recv: int, send: int): KbpsState {
    KbpsState(k.input.(acct := A.Add(k.input.acct, recv)), k.output.(acct := A.Add(k.output.acct, send)))
  }

  /** A connection's rates after both deltas were read. */
  function Marked(k: KbpsState): KbpsState {
    KbpsState(k.input.(acct := A.Report(k.input.acct)), k.output.(acct := A.Report(k.output.acct)))
  }

  predicate Disjoint(a: SrsKbps, b: SrsKbps) {
    a.input != b.input && a.input != b.output && a.output != b.input && a.output != b.output
  }

  lemma SumPrefix(xs: seq<int>, n: nat)
    requires n < |xs|
    ensures A.Sum(xs[..n + 1]) == A.Sum(xs[..n]) + xs[n]
  {
    A.SumAppend(xs[..n], [xs[n]]);
    assert xs[..n + 1] == xs[..n] + [xs[n]];
  }

  lemma WarmTwiceMore(source: Source, c: ClockState, n: nat)
    ensures Warm(source, Warm(source, WarmTimes(source, c, n))) == WarmTimes(source, c, n + 2)
  {
  }

  class SrsServer {
    var conns: seq<SrsConnection>
    var listeners: seq<SrsListener>
    const kbps: SrsKbps

    constructor ()
      ensures conns == [] && listeners == [] && fresh(kbps) && kbps.Valid() && fresh(kbps.input) && fresh(kbps.output)
      ensures kbps.input.Account() == kbps.output.Account() == A.EMPTY
    {
      conns, listeners := [], [];
      kbps := new SrsKbps();
    }

    /** No two rate objects share a slice. */
    ghost predicate Apart(cs: seq<SrsConnection>) {
      && kbps.Valid()
      && (forall i :: 0 <= i < |cs| ==> cs[i].kbps.Valid() && Disjoint(cs[i].kbps, kbps))
      && (forall i, j :: 0 <= i < j < |cs| ==> Disjoint(cs[i].kbps, cs[j].kbps))
    }

    /** The server's own account never has an io: see the usage modes in app_kbps.h:91-107. */
    ghost predicate ServerMode()
      reads kbps.input, kbps.output
    {
      kbps.input.io == null && kbps.output.io == null
    }

    /** kbps->sample() on the server's own rates: without an io, no byte count changes. */
    method SampleServer(clock: SystemClock)
      requires kbps.Valid() && ServerMode()
      modifies kbps.input, kbps.output, clock
      ensures ServerMode()
      ensures kbps.input.Account() == old(kbps.input.Account()) && kbps.output.Account() == old(kbps.output.Account())
      ensures (kbps.View(), clock.View()) == SampleBoth(old(kbps.View()), 0, 0, clock.source, old(clock.View()))
    {
      kbps.Sample(clock);
    }

    /**
     resample_kbps(conn, false): the server's windows are left alone. The clock, which has been read
     `taken` times since `start`, is read twice more.
     */
    method ResampleOnly(conn: SrsConnection, clock: SystemClock, ghost start: ClockState, ghost taken: nat)
      requires clock.View() == WarmTimes(clock.source, start, taken)
      requires kbps.Valid() && conn.kbps.Valid() && Disjoint(conn.kbps, kbps) && ServerMode()
      modifies kbps.input, kbps.output, conn.kbps.input, conn.kbps.output, clock
      ensures ServerMode() && conn.Accounts() == old(conn.Settled())
      ensures conn.kbps.View() == Marked(SampleBoth(old(conn.kbps.View()), old(conn.kbps.Counters()).0,
                                                    old(conn.kbps.Counters()).1, clock.source, old(clock.View())).0)
      ensures kbps.View() == Grown(old(kbps.View()), old(RecvPending(conn)), old(SendPending(conn)))
      ensures conn.kbps.input.deltaBytes == conn.kbps.input.GetTotalBytes()
      ensures conn.kbps.output.deltaBytes == conn.kbps.output.GetTotalBytes()
      ensures kbps.input.GetTotalBytes()
           == old(kbps.input.GetTotalBytes()) + conn.kbps.input.GetTotalBytes() - old(conn.kbps.input.deltaBytes)
      ensures kbps.output.GetTotalBytes()
           == old(kbps.output.GetTotalBytes()) + conn.kbps.output.GetTotalBytes() - old(conn.kbps.output.deltaBytes)
      ensures clock.View() == WarmTimes(clock.source, start, taken + 2)
    {
      WarmTwiceMore(clock.source, start, taken);
      conn.kbps.Sample(clock);
      kbps.AddDelta(Rates(conn.kbps));
    }

    /** resample_kbps(conn) */
    method ResampleConn(conn: SrsConnection, clock: SystemClock)
      requires kbps.Valid() && conn.kbps.Valid() && Disjoint(conn.kbps, kbps) && ServerMode()
      modifies kbps.input, kbps.output, conn.kbps.input, conn.kbps.output, clock
      ensures ServerMode() && conn.Accounts() == old(conn.Settled())
      ensures conn.kbps.View() == Marked(SampleBoth(old(conn.kbps.View()), old(conn.kbps.Counters()).0,
                                                    old(conn.kbps.Counters()).1, clock.source, old(clock.View())).0)
      ensures kbps.input.Account() == A.Add(old(kbps.input.Account()), old(RecvPending(conn)))
      ensures kbps.output.Account() == A.Add(old(kbps.output.Account()), old(SendPending(conn)))
      ensures conn.kbps.input.deltaBytes == conn.kbps.input.GetTotalBytes()
      ensures conn.kbps.output.deltaBytes == conn.kbps.output.GetTotalBytes()
      ensures kbps.input.GetTotalBytes()
           == old(kbps.input.GetTotalBytes()) + conn.kbps.input.GetTotalBytes() - old(conn.kbps.input.deltaBytes)
      ensures kbps.output.GetTotalBytes()
           == old(kbps.output.GetTotalBytes()) + conn.kbps.output.GetTotalBytes() - old(conn.kbps.output.deltaBytes)
      ensures (kbps.View(), clock.View())
           == SampleBoth(Grown(old(kbps.View()), old(RecvPending(conn)), old(SendPending(conn))), 0, 0, clock.source,
                         WarmTimes(clock.source, old(clock.View()), 2))
    {
      ResampleOnly(conn, clock, clock.View(), 0);
      SampleServer(clock);
    }

    ghost method Snapshot() returns (recv: seq<int>, send: seq<int>, settled: seq<(A.Acct, A.Acct)>)
      ensures |recv| == |send| == |settled| == |conns|
      ensures forall i :: 0 <= i < |conns| ==> recv[i] == RecvPending(conns[i]) && send[i] == SendPending(conns[i])
      ensures forall i :: 0 <= i < |conns| ==> settled[i] == conns[i].Settled()
    {
      recv, send, settled := [], [], [];
      for n := 0 to |conns|
        invariant |recv| == |send| == |settled| == n
        invariant forall i :: 0 <= i < n ==> recv[i] == RecvPending(conns[i]) && send[i] == SendPending(conns[i])
        invariant forall i :: 0 <= i < n ==> settled[i] == conns[i].Settled()
      {
        recv, send := recv + [RecvPending(conns[n])], send + [SendPending(conns[n])];
        settled := settled + [conns[n].Settled()];
      }
    }

    /** The loop of resample_kbps(NULL) has passed the first `n` connections. */
    ghost predicate Passed(n: nat, recv: seq<int>, send: seq<int>, settled: seq<(A.Acct, A.Acct)>)
      requires n <= |conns| == |recv| == |send| == |settled|
      reads *
    {
      && (forall j :: 0 <= j < n ==> conns[j].Accounts() == settled[j])
      && (forall j :: n <= j < |conns| ==> conns[j].Settled() == settled[j])
      && (forall j :: n <= j < |conns| ==> RecvPending(conns[j]) == recv[j] && SendPending(conns[j]) == send[j])
    }

    /** One iteration of that loop */
    method ResampleNext(n: nat, clock: SystemClock, ghost start: ClockState, ghost recv: seq<int>, ghost send: seq<int>,
                        ghost settled: seq<(A.Acct, A.Acct)>)
      requires clock.View() == WarmTimes(clock.source, start, 2 * n)
      requires n < |conns| == |recv| == |send| == |settled|
      requires Apart(conns) && ServerMode() && Passed(n, recv, send, settled)
      modifies kbps.input, kbps.output, conns[n].kbps.input, conns[n].kbps.output, clock
      ensures ServerMode() && Passed(n + 1, recv, send, settled)
      ensures kbps.input.View() == old(kbps.input.View()).(acct := A.Add(old(kbps.input.Account()), recv[n]))
      ensures kbps.output.View() == old(kbps.output.View()).(acct := A.Add(old(kbps.output.Account()), send[n]))
      ensures clock.View() == WarmTimes(clock.source, start, 2 * (n + 1))
    {
      ResampleOnly(conns[n], clock, start, 2 * n);
    }

    method ResampleEach(clock: SystemClock, ghost recv: seq<int>, ghost send: seq<int>,
                        ghost settled: seq<(A.Acct, A.Acct)>)
      requires |conns| == |recv| == |send| == |settled|
      requires Apart(conns) && ServerMode() && Passed(0, recv, send, settled)
      modifies kbps.input, kbps.output, clock
      modifies set c | c in conns :: c.kbps.input
      modifies set c | c in conns :: c.kbps.output
      ensures ServerMode() && Passed(|conns|, recv, send, settled)
      ensures kbps.input.View() == old(kbps.input.View()).(acct := A.Add(old(kbps.input.Account()), A.Sum(recv)))
      ensures kbps.output.View() == old(kbps.output.View()).(acct := A.Add(old(kbps.output.Account()), A.Sum(send)))
      ensures clock.View() == WarmTimes(clock.source, old(clock.View()), 2 * |conns|)
    {
      var it := 0;
      while it < |conns|
        invariant it <= |conns| && ServerMode() && Passed(it, recv, send, settled)
        invariant kbps.input.View()
               == old(kbps.input.View()).(acct := A.Add(old(kbps.input.Account()), A.Sum(recv[..it])))
        invariant kbps.output.View()
               == old(kbps.output.View()).(acct := A.Add(old(kbps.output.Account()), A.Sum(send[..it])))
        invariant clock.View() == WarmTimes(clock.source, old(clock.View()), 2 * it)
      {
        assert conns[it] in conns;
        ResampleNext(it, clock, old(clock.View()), recv, send, settled);
        SumPrefix(recv, it);
        SumPrefix(send, it);
        it := it + 1;
      }
      assert recv[..it] == recv && send[..it] == send;
    }

    /** resample_kbps(NULL). `recv` and `send` list what the connections had not reported before. */
    method ResampleAll(clock: SystemClock) returns (ghost recv: seq<int>, ghost send: seq<int>)
      requires Apart(conns) && ServerMode()
      modifies kbps.input, kbps.output, clock
      modifies set c | c in conns :: c.kbps.input
      modifies set c | c in conns :: c.kbps.output
      ensures ServerMode() && forall i :: 0 <= i < |conns| ==> conns[i].Accounts() == old(conns[i].Settled())
      ensures |recv| == |send| == |conns|
      ensures forall i :: 0 <= i < |conns| ==>
                recv[i] == old(RecvPending(conns[i])) && send[i] == old(SendPending(conns[i]))
      ensures kbps.input.Account() == A.Add(old(kbps.input.Account()), A.Sum(recv))
      ensures kbps.output.Account() == A.Add(old(kbps.output.Account()), A.Sum(send))
      ensures (kbps.View(), clock.View())
           == SampleBoth(Grown(old(kbps.View()), A.Sum(recv), A.Sum(send)), 0, 0, clock.source,
                         WarmTimes(clock.source, old(clock.View()), 2 * |conns|))
    {
      ghost var settled: seq<(A.Acct, A.Acct)>;
      recv, send, settled := Snapshot();
      ResampleEach(clock, recv, send, settled);
      SampleServer(clock);
    }

    /** remove(): a connection that is not in the table is left alone. */
    method Remove(conn: SrsConnection, clock: SystemClock, d: Descriptors) returns (deleted: bool)
      requires Apart(conns) && ServerMode()
      modifies `conns, kbps.input, kbps.output, clock, d
      modifies conn, conn.pthread, conn.kbps.input, conn.kbps.output
      ensures deleted == (conn in old(conns)) && conns == Erase(old(conns), conn) && Apart(conns) && ServerMode()
      ensures !deleted ==>
                && conns == old(conns) && unchanged(kbps.input) && unchanged(kbps.output)
                && unchanged(clock) && unchanged(d) && unchanged(conn)
                && unchanged(conn.kbps.input) && unchanged(conn.kbps.output)
                && (conn.pthread != null ==> unchanged(conn.pthread))
      ensures deleted ==>
                && kbps.input.Account() == A.Add(old(kbps.input.Account()), old(RecvPending(conn)))
                && kbps.output.Account() == A.Add(old(kbps.output.Account()), old(SendPending(conn)))
                && conn.Accounts() == old(conn.Settled())
                && kbps.input.GetTotalBytes() == old(kbps.input.GetTotalBytes())
                     + conn.kbps.input.GetTotalBytes() - old(conn.kbps.input.deltaBytes)
                && kbps.output.GetTotalBytes() == old(kbps.output.GetTotalBytes())
                     + conn.kbps.output.GetTotalBytes() - old(conn.kbps.output.deltaBytes)
                && (kbps.View(), clock.View())
                   == SampleBoth(Grown(old(kbps.View()), old(RecvPending(conn)), old(SendPending(conn))), 0, 0,
                                 clock.source, WarmTimes(clock.source, old(clock.View()), 2))
                && conn.stfd.None? && conn.pthread == null
                && d.open == if old(conn.stfd).Some? then old(d.open) - {old(conn.stfd).value} else old(d.open)
    {
      var it := 0;
      while it < |conns| && conns[it] != conn
        invariant it <= |conns|
        invariant forall j :: 0 <= j < it ==> conns[j] != conn
      {
        it := it + 1;
      }
      if it == |conns| {
        EraseNothing(conns, conn);
        return false;
      }
      EraseAt(conns, it);
      ApartWithout(conns, it);
      conns := conns[..it] + conns[it + 1..];
      ResampleConn(conn, clock);
      conn.Stop(d);
      deleted := true;
    }

    lemma ApartWithout(cs: seq<SrsConnection>, k: nat)
      requires Apart(cs) && k < |cs|
      ensures Apart(cs[..k] + cs[k + 1..])
    {
      var ds := cs[..k] + cs[k + 1..];
      assert forall i :: 0 <= i < |ds| ==> ds[i] == if i < k then cs[i] else cs[i + 1];
    }

    /** accept_client, up to the first sleep in start() or its return. `waiting` is left inside start(). */
    method AcceptClient(kind: ListenerType, fd: int, created: Option<nat>, max: int, d: Descriptors)
      returns (ret: int, admitted: Option<SrsConnection>, waiting: bool)
      requires Apart(conns) && fd in d.open
      modifies `conns, d
      ensures admitted.Some? <==> |old(conns)| < max && kind.BaseStream?
      ensures conns == old(conns) + (if admitted.Some? then [admitted.value] else []) && Apart(conns)
      ensures admitted.None? ==> ret == ERROR_SUCCESS && !waiting && d.open == old(d.open) - {fd}
      ensures admitted.Some? ==>
                && fresh(admitted.value) && admitted.value.stfd == Some(fd) && d.open == old(d.open)
                && admitted.value.pthread != null
                && admitted.value.pthread.View() == Fields(created, -1, created.Some?, false)
                && waiting == created.Some?
                && ret == if created.Some? then 0 else 1017
      ensures admitted.Some? ==>
                && fresh(admitted.value.kbps.input) && fresh(admitted.value.kbps.output)
                && fresh(admitted.value.pthread)
                && admitted.value.kbps.View() == NEW_KBPS
                && admitted.value.kbps.input.io == null == admitted.value.kbps.output.io
                && RecvPending(admitted.value) == 0 == SendPending(admitted.value)
    {
      if |conns| >= max {
        d.open := d.open - {fd};
        return ERROR_SUCCESS, None, false;
      }
      if kind.RtmpStream? {
        d.open := d.open - {fd};
        return ERROR_SUCCESS, None, false;
      }
      var rates := new SrsKbps();
      var conn := new SrsConnection(rates, fd);
      conns := conns + [conn];
      var r := conn.pthread.Start(created);
      ret := if r.Asleep? then ERROR_SUCCESS else r.code;
      admitted, waiting := Some(conn), r.Asleep?;
    }

    /** A client that comes and goes without any traffic leaves the server's totals as they were. */
    method AcceptThenRemove(fd: int, created: Option<nat>, max: int, clock: SystemClock, d: Descriptors)
      requires Apart(conns) && ServerMode() && fd in d.open && |conns| < max
      modifies `conns, kbps.input, kbps.output, clock, d
      ensures conns == old(conns) && d.open == old(d.open) - {fd}
      ensures kbps.input.GetTotalBytes() == old(kbps.input.GetTotalBytes())
      ensures kbps.output.GetTotalBytes() == old(kbps.output.GetTotalBytes())
    {
      var ret, admitted, waiting := AcceptClient(BaseStream, fd, created, max, d);
      EraseLast(old(conns), admitted.value);
      var deleted := Remove(admitted.value, clock, d);
    }

    /** close_listeners(): erase in place; `freed` are the deleted ones in the order of deletion. */
    method CloseListeners(kind: ListenerType) returns (freed: seq<SrsListener>)
      modifies `listeners
      ensures listeners == Select(old(listeners), kind, false)
      ensures freed == Select(old(listeners), kind, true)
    {
      freed := [];
      var it := 0;
      while it < |listeners|
        invariant it <= |listeners|
        invariant listeners[..it] + Select(listeners[it..], kind, false) == Select(old(listeners), kind, false)
        invariant freed + Select(listeners[it..], kind, true) == Select(old(listeners), kind, true)
        decreases |listeners| - it
      {
        var listener := listeners[it];
        if listener.entry.kind != kind {
          SelectKeeps(listeners, it, kind);
          it := it + 1;
        } else {
          SelectCuts(listeners, it, kind);
          freed := freed + [listener];
          listeners := listeners[..it] + listeners[it + 1..];
        }
      }
    }

    /**
     listen_base(): `codes` are what listen() returns for the ports in turn. A listener that cannot
     listen stays in the table.
     */
    method ListenBase(ports: seq<int>, codes: seq<int>) returns (ret: int, pushed: nat)
      requires ports != [] && |codes| == |ports|
      modifies `listeners
      ensures pushed <= |ports|
      ensures Entries(listeners) == Reloaded(old(Entries(listeners)), Reload(ports, pushed))
      ensures |listeners| >= pushed && listeners[..|listeners| - pushed] == Select(old(listeners), BaseStream, false)
      ensures forall i :: 0 <= i < |listeners| - pushed ==> listeners[i].entry.kind != BaseStream
      ensures forall m :: |listeners| - pushed <= m < |listeners| ==>
                && listeners[m].entry.kind == BaseStream
                && listeners[m].entry.port == ports[m - (|listeners| - pushed)]
      ensures forall i :: 0 <= i < pushed - 1 ==> codes[i] == ERROR_SUCCESS
      ensures ret == ERROR_SUCCESS <==> forall i :: 0 <= i < |codes| ==> codes[i] == ERROR_SUCCESS
      ensures ret == ERROR_SUCCESS ==> pushed == |ports|
      ensures ret != ERROR_SUCCESS ==> 0 < pushed && ret == codes[pushed - 1]
    {
      SelectsOthers(listeners);
      SelectKinds(listeners, BaseStream);
      var freed := CloseListeners(BaseStream);
      ghost var kept := listeners;
      ret, pushed := ListenOn(ports, codes);
      PushedEntries(listeners, kept, ports[..pushed]);
      assert forall i :: 0 <= i < |kept| ==> listeners[i] == kept[i];
    }

    /** The loop of listen_base() */
    method ListenOn(ports: seq<int>, codes: seq<int>) returns (ret: int, pushed: nat)
      requires ports != [] && |codes| == |ports|
      modifies `listeners
      ensures pushed <= |ports| && Pushed(old(listeners), ports[..pushed])
      ensures forall i :: 0 <= i < pushed - 1 ==> codes[i] == ERROR_SUCCESS
      ensures 0 < pushed && ret == codes[pushed - 1] && (ret == ERROR_SUCCESS ==> pushed == |ports|)
    {
      ret := ERROR_SUCCESS;
      pushed := 0;
      while pushed < |ports|
        invariant pushed <= |ports| && ret == ERROR_SUCCESS
        invariant Pushed(old(listeners), ports[..pushed])
        invariant forall j :: 0 <= j < pushed ==> codes[j] == ERROR_SUCCESS
      {
        var listener := new SrsListener(BaseStream, ports[pushed]);
        listeners := listeners + [listener];
        ret := codes[pushed];
        pushed := pushed + 1;
        if ret != ERROR_SUCCESS {
          return;
        }
      }
    }

    /** The table is `kept`, followed by a base listener for each of `ports`. */
    ghost predicate Pushed(kept: seq<SrsListener>, ports: seq<int>)
      reads this
    {
      && |listeners| == |kept| + |ports| && listeners[..|kept|] == kept
      && forall m :: |kept| <= m < |listeners| ==> listeners[m].entry == Entry(BaseStream, ports[m - |kept|])
    }
  }

  // ----- any number of reloads

  /** The table after any number of reloads, each with its own ports. */
  function Reloads(es: seq<Entry>, rs: seq<Reload>): seq<Entry>
    requires forall i :: 0 <= i < |rs| ==> Possible(rs[i])
  {
    if rs == [] then es else Reloaded(Reloads(es, rs[..|rs| - 1]), rs[|rs| - 1])
  }

  lemma {:induction false} OthersOfOthers(es: seq<Entry>)
    ensures Others(Others(es)) == Others(es)
  {
    if es != [] {
      var last := if es[|es| - 1].kind.BaseStream? then [] else [es[|es| - 1]];
      OthersAppend(Others(es[..|es| - 1]), last);
      OthersOfOthers(es[..|es| - 1]);
      assert Others(last) == last;
    }
  }

  lemma {:induction false} NoOthersInBase(ports: seq<int>)
    ensures Others(BaseEntries(ports)) == []
  {
    if ports != [] {
      assert BaseEntries(ports)[..|ports| - 1] == BaseEntries(ports[..|ports| - 1]);
      NoOthersInBase(ports[..|ports| - 1]);
    }
  }

  /** Reloads, failed ones included, never change the other listeners ... */
  lemma {:induction false} ReloadsKeepOthers(es: seq<Entry>, rs: seq<Reload>)
    requires forall i :: 0 <= i < |rs| ==> Possible(rs[i])
    ensures Others(Reloads(es, rs)) == Others(es)
  {
    if rs != [] {
      var before, r := Reloads(es, rs[..|rs| - 1]), rs[|rs| - 1];
      ReloadsKeepOthers(es, rs[..|rs| - 1]);
      OthersAppend(Others(before), BaseEntries(r.ports[..r.pushed]));
      OthersOfOthers(before);
      NoOthersInBase(r.ports[..r.pushed]);
    }
  }

  /** ... and after a successful one there is exactly one base listener for each port that it read. */
  lemma {:induction false} OneListenerPerPort(es: seq<Entry>, rs: seq<Reload>)
    requires forall i :: 0 <= i < |rs| ==> Possible(rs[i])
    requires rs != [] && rs[|rs| - 1].pushed == |rs[|rs| - 1].ports|
    ensures Reloads(es, rs) == Others(es) + BaseEntries(rs[|rs| - 1].ports)
  {
    var r := rs[|rs| - 1];
    ReloadsKeepOthers(es, rs[..|rs| - 1]);
    assert r.ports[..r.pushed] == r.ports;
  }

  /** How many base listeners the table has for port `x`. */
  function OnPort(es: seq<Entry>, x: int): nat {
    if es == [] then 0
    else OnPort(es[..|es| - 1], x) + if es[|es| - 1].kind.BaseStream? && es[|es| - 1].port == x then 1 else 0
  }

  lemma {:induction false} OnPortAppend(es: seq<Entry>, fs: seq<Entry>, x: int)
    ensures OnPort(es + fs, x) == OnPort(es, x) + OnPort(fs, x)
  {
    if fs == [] {
      assert es + fs == es;
    } else {
      OnPortAppend(es, fs[..|fs| - 1], x);
      assert (es + fs)[..|es + fs| - 1] == es + fs[..|fs| - 1];
    }
  }

  lemma {:induction false} OthersAreOnNoPort(es: seq<Entry>, x: int)
    ensures OnPort(Others(es), x) == 0
  {
    if es != [] {
      var last := if es[|es| - 1].kind.BaseStream? then [] else [es[|es| - 1]];
      OthersAreOnNoPort(es[..|es| - 1], x);
      OnPortAppend(Others(es[..|es| - 1]), last, x);
      assert last != [] ==> last[..0] == [];
    }
  }

  lemma {:induction false} BaseEntriesOnPort(ports: seq<int>, x: int)
    ensures OnPort(BaseEntries(ports), x) == multiset(ports)[x]
  {
    if ports != [] {
      var n := |ports| - 1;
      BaseEntriesOnPort(ports[..n], x);
      assert BaseEntries(ports)[..n] == BaseEntries(ports[..n]);
      assert ports == ports[..n] + [ports[n]];
    }
  }

  /** So after a last successful reload each port has as many base listeners as it was configured times. */
  lemma {:induction false} ListenersPerPort(es: seq<Entry>, rs: seq<Reload>, x: int)
    requires forall i :: 0 <= i < |rs| ==> Possible(rs[i])
    requires rs != [] && rs[|rs| - 1].pushed == |rs[|rs| - 1].ports|
    ensures OnPort(Reloads(es, rs), x) == multiset(rs[|rs| - 1].ports)[x]
  {
    var ports := rs[|rs| - 1].ports;
    OneListenerPerPort(es, rs);
    OnPortAppend(Others(es), BaseEntries(ports), x);
    OthersAreOnNoPort(es, x);
    BaseEntriesOnPort(ports, x);
  }
}
