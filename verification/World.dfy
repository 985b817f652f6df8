/**
 The server at work: any number of listener coroutines that accept clients, and one coroutine per
 connection that serves its client, ends its own loop and has its own objects deleted from inside
 on_thread_stop (src/base/app_server.cpp, src/base/app_conn.cpp, src/base/app_thread.cpp).

 A state is what the process looks like when a coroutine has just lost the processor; one label is
 what a coroutine does until it loses the processor again. Every access to a SrsConnection or a
 SrsThread object goes through TouchConn or TouchThread, which record a fault if that object has
 been deleted.
 */
module World {
  import opened Base
  import opened Thread
  import A = Accounts
  import Context

  datatype ListenerType = RtmpStream | BaseStream

  /**
   A connection ever admitted, with its thread and its byte accounts. `pc` is where its coroutine
   waits, or None if st_thread_create failed. The record stays when the objects are deleted.
   */
  datatype Conn = Conn(
    connLive: bool, threadLive: bool, frees: nat,
    t: Fields, pc: Option<Pc>, fd: int,
    recvCounter: int, sendCounter: int, recv: A.Acct, send: A.Acct)

  /**
   `conns` is the connection table, `starting` says which connection a listener coroutine waits for
   inside start(), `fds` are the open client descriptors.
   */
  datatype World = World(
    max: int, conns: seq<nat>, objs: seq<Conn>, starting: map<nat, nat>, fds: set<int>,
    recv: A.Acct, send: A.Acct, fault: bool)

  function Initial(max: int): World {
    World(max, [], [], map[], {}, A.SetIo(A.EMPTY, None), A.SetIo(A.EMPTY, None), false)
  }

  datatype Label =
    | Accept(listener: nat, kind: ListenerType, fd: int, create: bool, metered: bool)
    | WakeStart(listener: nat)
    | Schedule(conn: nat, code: int, id: int)
    | Traffic(conn: nat, received: nat, sent: nat)
    | SampleConn(conn: nat)
    | ResampleAll
    | StopLoop(conn: nat)

  // ----- memory

  function TouchConn(w: World, c: nat): World
    requires c < |w.objs|
  {
    w.(fault := w.fault || !w.objs[c].connLive)
  }

  function TouchThread(w: World, c: nat): World
    requires c < |w.objs|
  {
    w.(fault := w.fault || !w.objs[c].threadLive)
  }

  function Put(w: World, c: nat, o: Conn): World
    requires c < |w.objs|
  {
    w.(objs := w.objs[c := o])
  }

  /**
   `delete conn`: the destructor closes the descriptor and deletes the thread, whose destructor
   calls stop(). The join in it fails at once, because connection threads are not joinable.
   */
  function Delete(w: World, c: nat): World
    requires c < |w.objs|
  {
    var w1 := TouchThread(TouchConn(w, c), c);
    var o := w1.objs[c];
    var f := if o.t.tid.Some? then o.t.(loop := false, tid := None) else o.t;
    Put(w1, c, o.(connLive := false, threadLive := false, frees := o.frees + 1, t := f))
    .(fds := w1.fds - {o.fd})
  }

  // ----- bytes

  /** kbps_resample: the connection's account reads its counters. */
  function Sampled(o: Conn): Conn {
    o.(recv := A.Sample(o.recv, o.recvCounter), send := A.Sample(o.send, o.sendCounter))
  }

  /** The connection after its sampled total has been reported. */
  function Settle(o: Conn): Conn {
    o.(recv := A.Settled(o.recv, o.recvCounter), send := A.Settled(o.send, o.sendCounter))
  }

  /** resample_kbps(conn): sample the connection, then add what it has not reported yet. */
  function Resample(w: World, c: nat): World
    requires c < |w.objs|
  {
    var w1 := TouchConn(w, c);
    var o := w1.objs[c];
    Put(w1, c, Settle(o))
    .(recv := A.Add(w1.recv, A.Pending(o.recv, o.recvCounter)),
      send := A.Add(w1.send, A.Pending(o.send, o.sendCounter)))
  }

  /** The loop of resample_kbps(NULL) */
  function ResampleList(w: World, cs: seq<nat>): World
    requires forall i :: 0 <= i < |cs| ==> cs[i] < |w.objs|
    decreases cs
  {
    if cs == [] then w else ResampleList(Resample(w, cs[0]), cs[1..])
  }

  /** kbps->sample(): the server's account has no io, so its bytes stay. */
  function SampleServer(w: World): World {
    w.(recv := A.Sample(w.recv, 0), send := A.Sample(w.send, 0))
  }

  // ----- the server's operations

  function Remove(w: World, c: nat): World
    requires c < |w.objs|
  {
    if c !in w.conns then w
    else Delete(SampleServer(Resample(w.(conns := Erase(w.conns, c)), c)), c)
  }

  function NewConn(fd: int, metered: bool): Conn {
    var account := if metered then A.SetIo(A.EMPTY, Some(0)) else A.EMPTY;
    Conn(true, true, 0, NEW_THREAD, None, fd, 0, 0, account, account)
  }

  /** Whether accept_client admits a client when the table holds `size` connections. */
  predicate Admits(size: nat, max: int, kind: ListenerType) {
    size < max && kind.BaseStream?
  }

  /** accept_client, up to the first sleep in start() or its return */
  function AcceptClient(w: World, listener: nat, kind: ListenerType, fd: int, create: bool, metered: bool): World {
    if !Admits(|w.conns|, w.max, kind) then
      w // the descriptor is closed again
    else
      var c := |w.objs|;
      var o := NewConn(fd, metered);
      var (f, r) := BeginStart(o.t, if create then Some(c) else None);
      w.(conns := w.conns + [c],
         objs := w.objs + [o.(t := f, pc := if create then Some(Fresh) else None)],
         fds := w.fds + {fd},
         starting := if r.Asleep? then w.starting[listener := c] else w.starting)
  }

  /** start() of the connection that `listener` waits for, when its st_usleep returns */
  function WakeListener(w: World, listener: nat): World
    requires listener in w.starting && w.starting[listener] < |w.objs|
  {
    var c := w.starting[listener];
    var w1 := TouchThread(w, c);
    var (f, r) := PollStart(w1.objs[c].t);
    var w2 := Put(w1, c, w1.objs[c].(t := f));
    if r.Asleep? then w2 else w2.(starting := w2.starting - {listener})
  }

  /** What the coroutine does to its own connection, from control point to control point. */
  function Progress(o: Conn, code: int, id: int): Conn
    requires o.pc.Some?
  {
    var f := match o.pc.value
      case Fresh => o.t.(cid := id)
      case Cycling => o.t.(loop := false)
      case _ => o.t;
    o.(t := f, pc := Some(Next(o.pc.value, if o.pc.value.Cycling? then ERROR_SUCCESS else code, f.loop, f.canRun)))
  }

  /**
   The connection's coroutine goes on. When it comes back from on_thread_stop it touches nothing.
   SrsConnection::cycle returns success, after it has cleared the loop.
   */
  function ScheduleConn(w: World, c: nat, code: int, id: int): World
    requires c < |w.objs| && w.objs[c].pc.Some?
  {
    var pc := w.objs[c].pc.value;
    if pc.OnStop? || pc.Exited? then
      Put(w, c, w.objs[c].(pc := Some(Exited)))
    else
      var w1 := TouchThread(TouchConn(w, c), c);
      var w2 := Put(w1, c, Progress(w1.objs[c], code, id));
      if w2.objs[c].pc.value.OnStop? then Remove(w2, c) else w2
  }

  predicate Enabled(w: World, l: Label) {
    match l
    case Accept(listener, _, fd, _, _) => listener !in w.starting && fd !in w.fds
    case WakeStart(listener) => listener in w.starting && w.starting[listener] < |w.objs|
    case Schedule(c, _, id) =>
      c < |w.objs| && w.objs[c].pc.Some? && !w.objs[c].pc.value.Exited? && id >= Context.FIRST_ID
    case Traffic(c, _, _) => c < |w.objs| && w.objs[c].pc == Some(Cycling)
    case SampleConn(c) => c in w.conns && c < |w.objs|
    case ResampleAll => forall i :: 0 <= i < |w.conns| ==> w.conns[i] < |w.objs|
    case StopLoop(c) => c in w.conns && c < |w.objs| && !BeingStarted(w, c)
  }

  /** Some listener is still inside start() of this connection. */
  predicate BeingStarted(w: World, c: nat) {
    c in w.starting.Values
  }

  /** stop_loop() called on a connection's thread by somebody else */
  function StopFromOutside(w: World, c: nat): World
    requires c < |w.objs|
  {
    var w1 := TouchThread(TouchConn(w, c), c);
    Put(w1, c, w1.objs[c].(t := w1.objs[c].t.(loop := false)))
  }

  function Apply(w: World, l: Label): World
    requires Enabled(w, l)
  {
    match l
    case Accept(listener, kind, fd, create, metered) => AcceptClient(w, listener, kind, fd, create, metered)
    case WakeStart(listener) => WakeListener(w, listener)
    case Schedule(c, code, id) => ScheduleConn(w, c, code, id)
    case Traffic(c, received, sent) =>
      var w1 := TouchConn(w, c);
      var o := w1.objs[c];
      Put(w1, c, o.(recvCounter := o.recvCounter + received, sendCounter := o.sendCounter + sent))
    case SampleConn(c) => Put(TouchConn(w, c), c, Sampled(w.objs[c]))
    case ResampleAll => SampleServer(ResampleList(w, w.conns))
    case StopLoop(c) => StopFromOutside(w, c)
  }

  predicate IsRunOf(w: World, ls: seq<Label>)
    decreases ls
  {
    ls == [] || (Enabled(w, ls[0]) && IsRunOf(Apply(w, ls[0]), ls[1..]))
  }

  function Exec(w: World, ls: seq<Label>): World
    requires IsRunOf(w, ls)
    decreases ls
  {
    if ls == [] then w else Exec(Apply(w, ls[0]), ls[1..])
  }

  // ----- the invariant

  /** The coroutine is past the point where its objects were deleted. */
  predicate Gone(pc: Option<Pc>) {
    pc == Some(OnStop) || pc == Some(Exited)
  }

  predicate Waiting(pc: Option<Pc>) {
    pc == Some(Fresh) || pc == Some(OnStart) || pc == Some(WaitRun)
  }

  predicate ConnInv(o: Conn, listed: bool) {
    && o.connLive == o.threadLive == listed == !Gone(o.pc)
    && o.frees == (if listed then 0 else 1)
    && (o.pc.Some? && InRound(o.pc.value) ==> o.t.canRun)
    && (o.t.cid < 0 || o.t.cid >= Context.FIRST_ID)
    && (o.t.cid < 0 <==> o.pc.None? || o.pc.value.Fresh?)
  }

  ghost predicate TableInv(w: World) {
    && (forall i :: 0 <= i < |w.conns| ==> w.conns[i] < |w.objs|)
    && NoDuplicates(w.conns)
    && |w.conns| <= Max(0, w.max)
    && (forall c :: 0 <= c < |w.objs| ==> ConnInv(w.objs[c], c in w.conns))
  }

  /** Members hold different open descriptors, and there are no more open ones than members. */
  ghost predicate FdInv(w: World)
    requires TableInv(w)
  {
    && (forall c :: c in w.conns ==> w.objs[c].fd in w.fds)
    && (forall c, d :: c in w.conns && d in w.conns && c != d ==> w.objs[c].fd != w.objs[d].fd)
    && |w.fds| == |w.conns|
  }

  /** Members that nobody is starting any more have been released. */
  ghost predicate ReleaseInv(w: World) {
    forall c :: c in w.conns && c < |w.objs| && !BeingStarted(w, c) ==> Released(w.objs[c])
  }

  predicate Released(o: Conn) {
    o.pc.Some? ==> o.t.canRun
  }

  /** A connection inside start() is still waiting for can_run, which only that start() sets. */
  ghost predicate StartInv(w: World) {
    && (forall a :: a in w.starting ==>
          && w.starting[a] < |w.objs|
          && var o := w.objs[w.starting[a]];
             Waiting(o.pc) && !o.t.canRun && o.t.loop)
    && (forall a, b :: a in w.starting && b in w.starting && a != b ==> w.starting[a] != w.starting[b])
  }

  ghost predicate Inv(w: World) {
    !w.fault && TableInv(w) && FdInv(w) && StartInv(w) && ReleaseInv(w)
  }

  // ----- every step keeps the invariant

  /** What a connection must look like, whether somebody is still inside its start() or not. */
  predicate MayBeStarted(w: World, c: nat, o: Conn) {
    if BeingStarted(w, c) then Waiting(o.pc) && !o.t.canRun && o.t.loop else c in w.conns ==> Released(o)
  }

  lemma PutKeepsInv(w: World, c: nat, o: Conn)
    requires Inv(w) && c < |w.objs|
    requires ConnInv(o, c in w.conns) && o.fd == w.objs[c].fd && MayBeStarted(w, c, o)
    ensures Inv(Put(w, c, o))
  {
    var v := Put(w, c, o);
    assert StartInv(v) by {
      forall a | a in v.starting
        ensures v.starting[a] < |v.objs|
        ensures var o := v.objs[v.starting[a]]; Waiting(o.pc) && !o.t.canRun && o.t.loop
      {
        assert v.starting[a] in w.starting.Values;
      }
    }
  }

  lemma StartedIsLive(w: World, listener: nat)
    requires Inv(w) && listener in w.starting
    ensures var c := w.starting[listener]; c < |w.objs| && w.objs[c].threadLive && c in w.conns
  {
  }

  lemma AccountsKeepInv(w: World, recv: A.Acct, send: A.Acct)
    requires Inv(w)
    ensures Inv(w.(recv := recv, send := send))
  {
  }

  /** What accept_client does when it admits: field by field. */
  ghost predicate AdmittedAs(w: World, v: World, fd: int) {
    && v.max == w.max && !v.fault && v.conns == w.conns + [|w.objs|] && v.fds == w.fds + {fd}
    && |v.objs| == |w.objs| + 1 && (forall c :: 0 <= c < |w.objs| ==> v.objs[c] == w.objs[c])
    && ConnInv(v.objs[|w.objs|], true) && v.objs[|w.objs|].fd == fd
  }

  lemma AdmitKeepsTable(w: World, v: World, fd: int)
    requires Inv(w) && AdmittedAs(w, v, fd) && |w.conns| < w.max && fd !in w.fds
    ensures TableInv(v) && FdInv(v)
  {
    assert TableInv(v);
  }

  /** The new member is either inside start() of this listener, or it has no coroutine. */
  lemma AdmitKeepsStarts(w: World, v: World, listener: nat, fd: int)
    requires Inv(w) && AdmittedAs(w, v, fd) && listener !in w.starting
    requires var o := v.objs[|w.objs|];
             if o.pc.Some? then
               v.starting == w.starting[listener := |w.objs|] && Waiting(o.pc) && !o.t.canRun && o.t.loop
             else v.starting == w.starting
    ensures StartInv(v) && ReleaseInv(v)
  {
    var n := |w.objs|;
    if v.objs[n].pc.Some? {
      assert v.starting[listener] == n;
    }
    forall c | c in w.conns
      ensures BeingStarted(w, c) ==> BeingStarted(v, c)
    {
      StillStarted(w, v, c);
    }
  }

  lemma StillStarted(w: World, v: World, c: nat)
    requires forall a :: a in w.starting && w.starting[a] == c ==> a in v.starting && v.starting[a] == c
    ensures BeingStarted(w, c) ==> BeingStarted(v, c)
  {
    if BeingStarted(w, c) {
      var a :| a in w.starting && w.starting[a] == c;
      assert v.starting[a] == c;
    }
  }

  lemma AcceptStep(w: World, listener: nat, kind: ListenerType, fd: int, create: bool, metered: bool)
    requires Inv(w) && Enabled(w, Accept(listener, kind, fd, create, metered))
    ensures Inv(AcceptClient(w, listener, kind, fd, create, metered))
  {
    var v := AcceptClient(w, listener, kind, fd, create, metered);
    if v != w {
      AdmitKeepsTable(w, v, fd);
      AdmitKeepsStarts(w, v, listener, fd);
    }
  }

  lemma WakeStep(w: World, listener: nat)
    requires Inv(w) && Enabled(w, WakeStart(listener))
    ensures Inv(WakeListener(w, listener))
  {
    StartedIsLive(w, listener);
    var c := w.starting[listener];
    var (f, r) := PollStart(w.objs[c].t);
    var o := w.objs[c].(t := f);
    if r.Asleep? {
      PutKeepsInv(w, c, o);
    } else {
      ReleaseKeepsInv(w, listener, o);
    }
  }

  /** The listener comes out of start(), and the connection is released. */
  lemma ReleaseKeepsInv(w: World, listener: nat, o: Conn)
    requires Inv(w) && listener in w.starting && w.starting[listener] < |w.objs|
    requires var c := w.starting[listener]; ConnInv(o, c in w.conns) && o.fd == w.objs[c].fd && Released(o)
    ensures Inv(Put(w, w.starting[listener], o).(starting := w.starting - {listener}))
  {
    var c := w.starting[listener];
    var v := Put(w, c, o).(starting := w.starting - {listener});
    forall d | d in w.conns && d != c
      ensures BeingStarted(w, d) ==> BeingStarted(v, d)
    {
      StillStarted(w, v, d);
    }
  }

  lemma StopStep(w: World, c: nat)
    requires Inv(w) && Enabled(w, StopLoop(c))
    ensures Inv(StopFromOutside(w, c))
  {
    PutKeepsInv(w, c, w.objs[c].(t := w.objs[c].t.(loop := false)));
  }

  lemma ResampleStep(w: World, c: nat)
    requires Inv(w) && c in w.conns
    ensures Inv(Resample(w, c)) && Resample(w, c).conns == w.conns
  {
    var o, v := w.objs[c], Resample(w, c);
    PutKeepsInv(w, c, Settle(o));
    AccountsKeepInv(Put(w, c, Settle(o)), v.recv, v.send);
  }

  lemma {:induction false} ResampleListStep(w: World, cs: seq<nat>)
    requires Inv(w) && forall i :: 0 <= i < |cs| ==> cs[i] in w.conns
    ensures Inv(ResampleList(w, cs))
    decreases cs
  {
    if cs != [] {
      ResampleStep(w, cs[0]);
      ResampleListStep(Resample(w, cs[0]), cs[1..]);
    }
  }

  /** What remove() leaves, field by field. */
  lemma RemoveValue(w: World, c: nat)
    requires c < |w.objs| && c in w.conns && !w.fault && w.objs[c].connLive && w.objs[c].threadLive
    ensures var v := Remove(w, c);
            && v.max == w.max && v.starting == w.starting && !v.fault
            && v.conns == Erase(w.conns, c) && v.fds == w.fds - {w.objs[c].fd}
            && v.objs == w.objs[c := v.objs[c]] && v.objs[c].pc == w.objs[c].pc
            && !v.objs[c].connLive && !v.objs[c].threadLive && v.objs[c].frees == w.objs[c].frees + 1
  {
  }

  lemma DropKeepsInv(w: World, v: World, c: nat)
    requires Inv(w) && c in w.conns && !BeingStarted(w, c)
    requires v.max == w.max && v.starting == w.starting && !v.fault
    requires v.conns == Erase(w.conns, c) && v.fds == w.fds - {w.objs[c].fd}
    requires |v.objs| == |w.objs| && forall d :: 0 <= d < |w.objs| && d != c ==> v.objs[d] == w.objs[d]
    requires ConnInv(v.objs[c], false)
    ensures Inv(v)
  {
    EraseMembers(w.conns, c);
    assert TableInv(v) by {
      forall i | 0 <= i < |v.conns|
        ensures v.conns[i] < |v.objs|
      {
        assert v.conns[i] in w.conns;
      }
    }
    assert FdInv(v);
    assert StartInv(v) by {
      forall a | a in v.starting
        ensures v.starting[a] != c
      {
        assert v.starting[a] in w.starting.Values;
      }
    }
  }

  lemma ScheduleStep(w: World, c: nat, code: int, id: int)
    requires Inv(w) && Enabled(w, Schedule(c, code, id))
    ensures Inv(ScheduleConn(w, c, code, id))
  {
    var o := w.objs[c];
    if o.pc.value.OnStop? {
      PutKeepsInv(w, c, o.(pc := Some(Exited)));
    } else {
      var p := Progress(o, code, id);
      if p.pc.value.OnStop? {
        assert c in w.conns && !BeingStarted(w, c);
        RemoveValue(Put(w, c, p), c);
        DropKeepsInv(w, Remove(Put(w, c, p), c), c);
      } else {
        PutKeepsInv(w, c, p);
      }
    }
  }

  lemma BytesStepsKeepInv(w: World, l: Label)
    requires Inv(w) && Enabled(w, l) && (l.Traffic? || l.SampleConn? || l.ResampleAll?)
    ensures Inv(Apply(w, l))
  {
    if l.ResampleAll? {
      ResampleListStep(w, w.conns);
      var v := ResampleList(w, w.conns);
      AccountsKeepInv(v, A.Sample(v.recv, 0), A.Sample(v.send, 0));
    } else {
      PutKeepsInv(w, l.conn, Apply(w, l).objs[l.conn]);
    }
  }

  lemma InvStep(w: World, l: Label)
    requires Inv(w) && Enabled(w, l)
    ensures Inv(Apply(w, l))
  {
    match l
    case Accept(listener, kind, fd, create, metered) => AcceptStep(w, listener, kind, fd, create, metered);
    case WakeStart(listener) => WakeStep(w, listener);
    case Schedule(c, code, id) => ScheduleStep(w, c, code, id);
    case StopLoop(c) => StopStep(w, c);
    case _ => BytesStepsKeepInv(w, l);
  }

  lemma {:induction false} InvHolds(w: World, ls: seq<Label>)
    requires Inv(w) && IsRunOf(w, ls)
    ensures Inv(Exec(w, ls))
    decreases ls
  {
    if ls != [] {
      InvStep(w, ls[0]);
      InvHolds(Apply(w, ls[0]), ls[1..]);
    }
  }
}
