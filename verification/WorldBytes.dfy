/** Conservation of bytes between the server's account and the accounts of its connections. */
module WorldBytes {
  import opened Base
  import opened Thread
  import opened World
  import A = Accounts
  import opened WorldLaws

  datatype Dir = Recv | Send

  function Account(o: Conn, d: Dir): A.Acct {
    if d.Recv? then o.recv else o.send
  }

  function Server(w: World, d: Dir): A.Acct {
    if d.Recv? then w.recv else w.send
  }

  /** What a connection has reported so far. */
  function Reported(o: Conn, d: Dir): int {
    Account(o, d).delta
  }

  function SumReported(os: seq<Conn>, d: Dir): int {
    if os == [] then 0 else SumReported(os[..|os| - 1], d) + Reported(os[|os| - 1], d)
  }

  /** The totals of all connections ever accepted. */
  function SumTotals(os: seq<Conn>, d: Dir): int {
    if os == [] then 0 else SumTotals(os[..|os| - 1], d) + A.Total(Account(os[|os| - 1], d))
  }

  /** What the live connections have not reported yet. */
  function SumLiveUnreported(os: seq<Conn>, d: Dir): int {
    if os == [] then 0
    else
      SumLiveUnreported(os[..|os| - 1], d)
      + if os[|os| - 1].connLive then A.Unreported(Account(os[|os| - 1], d)) else 0
  }

  predicate Settled(o: Conn) {
    A.Unreported(o.recv) == 0 && A.Unreported(o.send) == 0
  }

  ghost predicate BytesInv(w: World) {
    && !w.recv.attached && !w.send.attached
    && A.Total(w.recv) == SumReported(w.objs, Recv)
    && A.Total(w.send) == SumReported(w.objs, Send)
    && forall c :: 0 <= c < |w.objs| && !w.objs[c].connLive ==> Settled(w.objs[c])
  }

  lemma {:induction false} SumReportedPut(os: seq<Conn>, c: nat, o: Conn, d: Dir)
    requires c < |os|
    ensures SumReported(os[c := o], d) == SumReported(os, d) - Reported(os[c], d) + Reported(o, d)
  {
    var n := |os| - 1;
    if c == n {
      assert os[c := o][..n] == os[..n];
    } else {
      assert os[c := o][..n] == os[..n][c := o];
      SumReportedPut(os[..n], c, o, d);
    }
  }

  /** Steps that touch one connection and report nothing. */
  lemma QuietPut(w: World, c: nat, o: Conn)
    requires BytesInv(w) && c < |w.objs|
    requires o.recv.delta == w.objs[c].recv.delta && o.send.delta == w.objs[c].send.delta
    requires !o.connLive ==> Settled(o)
    ensures BytesInv(Put(w, c, o))
  {
    SumReportedPut(w.objs, c, o, Recv);
    SumReportedPut(w.objs, c, o, Send);
  }

  lemma ResampleBytes(w: World, c: nat)
    requires BytesInv(w) && c < |w.objs|
    ensures var v := Resample(w, c);
            BytesInv(v) && |v.objs| == |w.objs| && Settled(v.objs[c])
  {
    SumReportedPut(w.objs, c, Resample(w, c).objs[c], Recv);
    SumReportedPut(w.objs, c, Resample(w, c).objs[c], Send);
  }

  lemma {:induction false} ResampleListBytes(w: World, cs: seq<nat>)
    requires BytesInv(w) && forall i :: 0 <= i < |cs| ==> cs[i] < |w.objs|
    ensures BytesInv(ResampleList(w, cs))
    decreases cs
  {
    if cs != [] {
      ResampleBytes(w, cs[0]);
      ResampleListBytes(Resample(w, cs[0]), cs[1..]);
    }
  }

  lemma RemoveBytes(w: World, c: nat)
    requires BytesInv(w) && c < |w.objs|
    ensures BytesInv(Remove(w, c))
  {
    if c in w.conns {
      var w1 := Resample(w.(conns := Erase(w.conns, c)), c);
      ResampleBytes(w.(conns := Erase(w.conns, c)), c);
      assert SampleServer(w1) == w1;
      var v := Remove(w, c);
      QuietPut(w1, c, v.objs[c]);
    }
  }

  lemma AcceptBytes(w: World, listener: nat, kind: ListenerType, fd: int, create: bool, metered: bool)
    requires BytesInv(w)
    ensures BytesInv(AcceptClient(w, listener, kind, fd, create, metered))
  {
    var v := AcceptClient(w, listener, kind, fd, create, metered);
    if v != w {
      assert v.objs[..|w.objs|] == w.objs;
    }
  }

  lemma ScheduleBytes(w: World, c: nat, code: int, id: int)
    requires BytesInv(w) && Enabled(w, Schedule(c, code, id))
    ensures BytesInv(ScheduleConn(w, c, code, id))
  {
    var o := w.objs[c];
    if o.pc.value.OnStop? {
      QuietPut(w, c, o.(pc := Some(Exited)));
    } else {
      var p := Progress(o, code, id);
      var w1 := TouchThread(TouchConn(w, c), c);
      QuietPut(w1, c, p);
      RemoveBytes(Put(w1, c, p), c);
    }
  }

  lemma BytesStep(w: World, l: Label)
    requires Inv(w) && BytesInv(w) && Enabled(w, l)
    ensures BytesInv(Apply(w, l))
  {
    match l
    case Accept(listener, kind, fd, create, metered) => AcceptBytes(w, listener, kind, fd, create, metered);
    case Schedule(c, code, id) => ScheduleBytes(w, c, code, id);
    case ResampleAll => ResampleListBytes(w, w.conns);
    case _ => QuietStep(w, l);
  }

  lemma QuietStep(w: World, l: Label)
    requires Inv(w) && BytesInv(w) && Enabled(w, l)
    requires l.WakeStart? || l.Traffic? || l.SampleConn? || l.StopLoop?
    ensures BytesInv(Apply(w, l))
  {
    var c := if l.WakeStart? then w.starting[l.listener] else l.conn;
    QuietPut(w, c, Apply(w, l).objs[c]);
  }

  lemma {:induction false} BytesInvHolds(w: World, ls: seq<Label>)
    requires Inv(w) && BytesInv(w) && IsRunOf(w, ls)
    ensures BytesInv(Exec(w, ls))
    decreases ls
  {
    if ls != [] {
      InvStep(w, ls[0]);
      BytesStep(w, ls[0]);
      BytesInvHolds(Apply(w, ls[0]), ls[1..]);
    }
  }

  lemma {:induction false} TotalsSplit(os: seq<Conn>, d: Dir)
    requires forall c :: 0 <= c < |os| && !os[c].connLive ==> Settled(os[c])
    ensures SumReported(os, d) + SumLiveUnreported(os, d) == SumTotals(os, d)
  {
    if os != [] {
      TotalsSplit(os[..|os| - 1], d);
    }
  }

  /**
   Bytes are conserved in both directions over every run: the server's total plus what the live
   connections have not reported equals the totals of all connections ever accepted, and a deleted
   connection has nothing left unreported.
   */
  lemma {:induction false} BytesAreConserved(max: int, ls: seq<Label>, d: Dir)
    requires IsRunOf(Initial(max), ls)
    ensures var w := Exec(Initial(max), ls);
            && A.Total(Server(w, d)) + SumLiveUnreported(w.objs, d) == SumTotals(w.objs, d)
            && forall c :: 0 <= c < |w.objs| && !w.objs[c].connLive ==> A.Unreported(Account(w.objs[c], d)) == 0
  {
    InitialInv(max);
    BytesInvHolds(Initial(max), ls);
    TotalsSplit(Exec(Initial(max), ls).objs, d);
  }

  // ----- from the wire to the server's total

  function Counter(o: Conn, d: Dir): int {
    if d.Recv? then o.recvCounter else o.sendCounter
  }

  /** The account of a metered connection trails its counter, and has caught up once it is deleted. */
  predicate Trails(a: A.Acct, counter: int, live: bool) {
    if a.attached then
      a.bytes == 0 && a.base == 0 && a.delta <= a.last <= counter && (!live ==> a.delta == counter)
    else
      a == A.EMPTY
  }

  predicate TrailsBoth(o: Conn) {
    Trails(o.recv, o.recvCounter, o.connLive) && Trails(o.send, o.sendCounter, o.connLive)
  }

  ghost predicate TrailInv(w: World) {
    forall c :: 0 <= c < |w.objs| ==> TrailsBoth(w.objs[c])
  }

  /** The bytes that the sockets of metered connections ever counted. */
  function SumTraffic(os: seq<Conn>, d: Dir): int {
    if os == [] then 0
    else
      SumTraffic(os[..|os| - 1], d)
      + if Account(os[|os| - 1], d).attached then Counter(os[|os| - 1], d) else 0
  }

  lemma PutTrails(w: World, c: nat, o: Conn)
    requires TrailInv(w) && c < |w.objs| && TrailsBoth(o)
    ensures TrailInv(Put(w, c, o))
  {
  }

  lemma ReportTrails(a: A.Acct, counter: int, live: bool, after: bool)
    requires Trails(a, counter, live)
    ensures Trails(A.Report(A.Sample(a, counter)), counter, after)
  {
  }

  lemma SettleTrails(o: Conn, after: bool)
    requires TrailsBoth(o)
    ensures TrailsBoth(Settle(o).(connLive := after))
  {
    ReportTrails(o.recv, o.recvCounter, o.connLive, after);
    ReportTrails(o.send, o.sendCounter, o.connLive, after);
  }

  lemma ResampleTrails(w: World, c: nat)
    requires TrailInv(w) && c < |w.objs|
    ensures TrailInv(Resample(w, c))
  {
    SettleTrails(w.objs[c], w.objs[c].connLive);
    assert Settle(w.objs[c]).(connLive := w.objs[c].connLive) == Settle(w.objs[c]);
    PutTrails(w, c, Settle(w.objs[c]));
  }

  lemma {:induction false} ResampleListTrails(w: World, cs: seq<nat>)
    requires TrailInv(w) && forall i :: 0 <= i < |cs| ==> cs[i] < |w.objs|
    ensures TrailInv(ResampleList(w, cs))
    decreases cs
  {
    if cs != [] {
      ResampleTrails(w, cs[0]);
      ResampleListTrails(Resample(w, cs[0]), cs[1..]);
    }
  }

  lemma DeleteTrails(before: World, w: World, c: nat)
    requires TrailInv(before) && TrailInv(w)
    requires c < |before.objs| && c < |w.objs| && w.objs[c] == Settle(before.objs[c])
    ensures TrailInv(Delete(w, c))
  {
    SettleTrails(before.objs[c], false);
    PutTrails(w, c, Delete(w, c).objs[c]);
  }

  lemma RemoveTrails(w: World, c: nat)
    requires TrailInv(w) && c < |w.objs|
    ensures TrailInv(Remove(w, c))
  {
    if c in w.conns {
      var w1 := w.(conns := Erase(w.conns, c));
      ResampleTrails(w1, c);
      DeleteTrails(w, SampleServer(Resample(w1, c)), c);
    }
  }

  lemma ScheduleTrails(w: World, c: nat, code: int, id: int)
    requires TrailInv(w) && Enabled(w, Schedule(c, code, id))
    ensures TrailInv(ScheduleConn(w, c, code, id))
  {
    var o := w.objs[c];
    if o.pc.value.OnStop? {
      PutTrails(w, c, o.(pc := Some(Exited)));
    } else {
      var w1 := TouchThread(TouchConn(w, c), c);
      PutTrails(w1, c, Progress(o, code, id));
      RemoveTrails(Put(w1, c, Progress(o, code, id)), c);
    }
  }

  lemma TrailStep(w: World, l: Label)
    requires Inv(w) && TrailInv(w) && Enabled(w, l)
    ensures TrailInv(Apply(w, l))
  {
    match l
    case Accept(_, _, _, _, _) =>
    case WakeStart(listener) => PutTrails(w, w.starting[listener], Apply(w, l).objs[w.starting[listener]]);
    case Schedule(c, code, id) => ScheduleTrails(w, c, code, id);
    case ResampleAll => ResampleListTrails(w, w.conns);
    case Traffic(c, _, _) => PutTrails(w, c, Apply(w, l).objs[c]);
    case SampleConn(c) => PutTrails(w, c, Apply(w, l).objs[c]);
    case StopLoop(c) => PutTrails(w, c, Apply(w, l).objs[c]);
  }

  lemma {:induction false} TrailInvHolds(w: World, ls: seq<Label>)
    requires Inv(w) && TrailInv(w) && IsRunOf(w, ls)
    ensures TrailInv(Exec(w, ls))
    decreases ls
  {
    if ls != [] {
      InvStep(w, ls[0]);
      TrailStep(w, ls[0]);
      TrailInvHolds(Apply(w, ls[0]), ls[1..]);
    }
  }

  lemma {:induction false} ReportedBelowTraffic(os: seq<Conn>, d: Dir)
    requires forall c :: 0 <= c < |os| ==> TrailsBoth(os[c])
    ensures SumReported(os, d) <= SumTraffic(os, d)
    ensures (forall c :: 0 <= c < |os| && Account(os[c], d).attached ==> Reported(os[c], d) == Counter(os[c], d))
        <==> SumReported(os, d) == SumTraffic(os, d)
  {
    if os != [] {
      var n := |os| - 1;
      ReportedBelowTraffic(os[..n], d);
    }
  }

  /**
   The server never counts more than its connections' sockets did, and it has counted everything once all
   connections have been removed.
   */
  lemma {:induction false} ServerCountsTheTraffic(max: int, ls: seq<Label>, d: Dir)
    requires IsRunOf(Initial(max), ls)
    ensures var w := Exec(Initial(max), ls);
            && A.Total(Server(w, d)) <= SumTraffic(w.objs, d)
            && (w.conns == [] ==> A.Total(Server(w, d)) == SumTraffic(w.objs, d))
  {
    InitialInv(max);
    InvHolds(Initial(max), ls);
    BytesInvHolds(Initial(max), ls);
    TrailInvHolds(Initial(max), ls);
    ReportedBelowTraffic(Exec(Initial(max), ls).objs, d);
  }

  // ----- the counters and the traffic

  function SumCounters(os: seq<Conn>, d: Dir): int {
    if os == [] then 0 else SumCounters(os[..|os| - 1], d) + Counter(os[|os| - 1], d)
  }

  /** The bytes that a run moves in one direction. */
  function Moved(ls: seq<Label>, d: Dir): int {
    if ls == [] then 0
    else
      Moved(ls[1..], d)
      + if ls[0].Traffic? then (if d.Recv? then ls[0].received else ls[0].sent) else 0
  }

  /** Only traffic changes a counter, and a new connection's are 0. */
  ghost predicate CountersAfter(w: World, v: World, l: Label) {
    && |w.objs| <= |v.objs| <= |w.objs| + 1
    && (forall c :: 0 <= c < |w.objs| && !(l.Traffic? && c == l.conn) ==> SameCounters(w.objs[c], v.objs[c]))
    && (forall c :: |w.objs| <= c < |v.objs| ==> v.objs[c].recvCounter == 0 == v.objs[c].sendCounter)
    && (l.Traffic? ==>
          && l.conn < |w.objs| == |v.objs|
          && v.objs[l.conn].recvCounter == w.objs[l.conn].recvCounter + l.received
          && v.objs[l.conn].sendCounter == w.objs[l.conn].sendCounter + l.sent)
  }

  predicate SameCounters(o: Conn, p: Conn) {
    o.recvCounter == p.recvCounter && o.sendCounter == p.sendCounter
  }

  lemma CountersStep(w: World, l: Label)
    requires Inv(w) && Enabled(w, l)
    ensures CountersAfter(w, Apply(w, l), l)
  {
    match l
    case ResampleAll => ResampleListKeepsThreads(w, w.conns);
    case Schedule(c, code, id) => ScheduleCounters(w, c, code, id);
    case _ =>
  }

  lemma ScheduleCounters(w: World, c: nat, code: int, id: int)
    requires Inv(w) && Enabled(w, Schedule(c, code, id))
    ensures |ScheduleConn(w, c, code, id).objs| == |w.objs|
    ensures forall d :: 0 <= d < |w.objs| ==> SameCounters(w.objs[d], ScheduleConn(w, c, code, id).objs[d])
  {
    forall d | 0 <= d < |w.objs| && d != c
      ensures ScheduleConn(w, c, code, id).objs[d] == w.objs[d]
    {
      ScheduleSkips(w, c, code, id, d);
    }
  }

  lemma {:induction false} SameSums(os: seq<Conn>, ps: seq<Conn>, d: Dir)
    requires |os| == |ps| && forall c :: 0 <= c < |os| ==> SameCounters(os[c], ps[c])
    ensures SumCounters(os, d) == SumCounters(ps, d)
  {
    if os != [] {
      SameSums(os[..|os| - 1], ps[..|ps| - 1], d);
    }
  }

  lemma {:induction false} OneMoves(os: seq<Conn>, ps: seq<Conn>, c: nat, d: Dir)
    requires c < |os| == |ps|
    requires forall e :: 0 <= e < |os| && e != c ==> SameCounters(os[e], ps[e])
    ensures SumCounters(ps, d) == SumCounters(os, d) + Counter(ps[c], d) - Counter(os[c], d)
  {
    var n := |os| - 1;
    if c == n {
      SameSums(os[..n], ps[..n], d);
    } else {
      OneMoves(os[..n], ps[..n], c, d);
    }
  }

  lemma SumStep(w: World, v: World, l: Label, d: Dir)
    requires CountersAfter(w, v, l)
    ensures SumCounters(v.objs, d)
         == SumCounters(w.objs, d) + if l.Traffic? then (if d.Recv? then l.received else l.sent) else 0
  {
    if l.Traffic? {
      OneMoves(w.objs, v.objs, l.conn, d);
    } else {
      SameSums(w.objs, v.objs[..|w.objs|], d);
      assert |v.objs| == |w.objs| ==> v.objs[..|w.objs|] == v.objs;
    }
  }

  lemma {:induction false} CountersAddUpFrom(w: World, ls: seq<Label>, d: Dir)
    requires Inv(w) && IsRunOf(w, ls)
    ensures SumCounters(Exec(w, ls).objs, d) == SumCounters(w.objs, d) + Moved(ls, d)
    decreases ls
  {
    if ls != [] {
      InvStep(w, ls[0]);
      CountersStep(w, ls[0]);
      SumStep(w, Apply(w, ls[0]), ls[0], d);
      CountersAddUpFrom(Apply(w, ls[0]), ls[1..], d);
    }
  }

  /** In every run the counters of all connections ever accepted add up to the traffic. */
  lemma {:induction false} CountersAddUp(max: int, ls: seq<Label>, d: Dir)
    requires IsRunOf(Initial(max), ls)
    ensures SumCounters(Exec(Initial(max), ls).objs, d) == Moved(ls, d)
  {
    InitialInv(max);
    CountersAddUpFrom(Initial(max), ls, d);
  }

  /** Sampling a metered connection brings its total up to its counter. */
  lemma {:induction false} SampleCatchesUp(max: int, ls: seq<Label>, c: nat, d: Dir)
    requires IsRunOf(Initial(max), ls) && Enabled(Exec(Initial(max), ls), SampleConn(c))
    requires Account(Exec(Initial(max), ls).objs[c], d).attached
    ensures var o := Apply(Exec(Initial(max), ls), SampleConn(c)).objs[c]; A.Total(Account(o, d)) == Counter(o, d)
  {
    InitialInv(max);
    TrailInvHolds(Initial(max), ls);
    assert TrailsBoth(Exec(Initial(max), ls).objs[c]);
  }
}
