/** What holds in every run of the server of World.dfy, and what its two safeguards are needed for. */
module WorldLaws {
  import opened Base
  import opened Thread
  import opened World
  import Context

  lemma InitialInv(max: int)
    ensures Inv(Initial(max))
  {
  }

  // ----- object lifetimes

  /**
   In every interleaving no deleted SrsConnection or SrsThread is ever accessed, each is deleted at
   most once, and exactly by the time its coroutine has passed on_thread_stop. As long as a listener
   is inside start(), both objects are alive and the child has begun no iteration.
   */
  lemma {:induction false} MemorySafety(max: int, ls: seq<Label>)
    requires IsRunOf(Initial(max), ls)
    ensures var w := Exec(Initial(max), ls);
            && !w.fault
            && (forall c :: 0 <= c < |w.objs| ==> w.objs[c].frees == (if Gone(w.objs[c].pc) then 1 else 0))
            && (forall a :: a in w.starting ==>
                  && w.starting[a] < |w.objs|
                  && var o := w.objs[w.starting[a]];
                     o.connLive && o.threadLive && o.pc.Some? && !InRound(o.pc.value))
  {
    InitialInv(max);
    InvHolds(Initial(max), ls);
  }

  /** After on_thread_stop neither object is touched again: the record never changes any more. */
  lemma {:induction false} GoneStaysFrozen(w: World, ls: seq<Label>, c: nat)
    requires Inv(w) && IsRunOf(w, ls) && c < |w.objs| && Gone(w.objs[c].pc)
    ensures var v := Exec(w, ls);
            c < |v.objs| && Gone(v.objs[c].pc) && v.objs[c] == w.objs[c].(pc := v.objs[c].pc)
    decreases ls
  {
    if ls != [] {
      InvStep(w, ls[0]);
      GoneStep(w, ls[0], c);
      GoneStaysFrozen(Apply(w, ls[0]), ls[1..], c);
    }
  }

  lemma GoneStep(w: World, l: Label, c: nat)
    requires Inv(w) && Enabled(w, l) && c < |w.objs| && Gone(w.objs[c].pc)
    ensures var v := Apply(w, l);
            c < |v.objs| && Gone(v.objs[c].pc) && v.objs[c] == w.objs[c].(pc := v.objs[c].pc)
  {
    assert c !in w.conns;
    match l
    case ResampleAll => ResampleListSkips(w, w.conns, c);
    case Schedule(d, code, id) =>
      if d != c {
        ScheduleSkips(w, d, code, id, c);
      }
    case WakeStart(a) => assert w.starting[a] != c;
    case _ =>
  }

  lemma {:induction false} ResampleListSkips(w: World, cs: seq<nat>, c: nat)
    requires c < |w.objs| && c !in cs && forall i :: 0 <= i < |cs| ==> cs[i] < |w.objs|
    ensures |ResampleList(w, cs).objs| == |w.objs| && ResampleList(w, cs).objs[c] == w.objs[c]
    ensures ResampleList(w, cs).conns == w.conns
    decreases cs
  {
    if cs != [] {
      ResampleListSkips(Resample(w, cs[0]), cs[1..], c);
    }
  }

  /** Scheduling a connection leaves the records of all others alone. */
  lemma ScheduleSkips(w: World, d: nat, code: int, id: int, c: nat)
    requires Inv(w) && Enabled(w, Schedule(d, code, id)) && c < |w.objs| && c != d
    ensures |ScheduleConn(w, d, code, id).objs| == |w.objs|
    ensures ScheduleConn(w, d, code, id).objs[c] == w.objs[c]
  {
  }

  /**
   A listener comes out of start() at its first wake-up after the connection's coroutine was first
   scheduled, and not before; the connection then has a cid of at least 100.
   */
  lemma StartReturnsIff(w: World, listener: nat)
    requires Inv(w) && Enabled(w, WakeStart(listener))
    ensures var (v, c) := (Apply(w, WakeStart(listener)), w.starting[listener]);
            && (listener !in v.starting <==> w.objs[c].pc != Some(Fresh))
            && (listener !in v.starting ==> v.objs[c].t.cid >= 100 && v.objs[c].t.canRun)
  {
    StartedIsLive(w, listener);
  }

  // ----- admission and descriptors

  /** The connection table has no duplicates and never exceeds the limit. */
  lemma {:induction false} AdmissionBound(max: int, ls: seq<Label>)
    requires IsRunOf(Initial(max), ls)
    ensures var w := Exec(Initial(max), ls);
            NoDuplicates(w.conns) && |w.conns| <= Max(0, max)
  {
    InitialInv(max);
    InvHolds(Initial(max), ls);
    MaxNeverChanges(Initial(max), ls);
  }

  lemma {:induction false} MaxNeverChanges(w: World, ls: seq<Label>)
    requires Inv(w) && IsRunOf(w, ls)
    ensures Exec(w, ls).max == w.max
    decreases ls
  {
    if ls != [] {
      InvStep(w, ls[0]);
      MaxStep(w, ls[0]);
      MaxNeverChanges(Apply(w, ls[0]), ls[1..]);
    }
  }

  lemma MaxStep(w: World, l: Label)
    requires Inv(w) && Enabled(w, l)
    ensures Apply(w, l).max == w.max
  {
    if l.ResampleAll? {
      ResampleListFrame(w, w.conns);
    }
  }

  lemma {:induction false} ResampleListFrame(w: World, cs: seq<nat>)
    requires forall i :: 0 <= i < |cs| ==> cs[i] < |w.objs|
    ensures ResampleList(w, cs).max == w.max && ResampleList(w, cs).fds == w.fds
    decreases cs
  {
    if cs != [] {
      ResampleListFrame(Resample(w, cs[0]), cs[1..]);
    }
  }

  function FdsOf(w: World, cs: seq<nat>): set<int>
    requires forall i :: 0 <= i < |cs| ==> cs[i] < |w.objs|
  {
    if cs == [] then {} else FdsOf(w, cs[..|cs| - 1]) + {w.objs[cs[|cs| - 1]].fd}
  }

  /** The open client descriptors are exactly those of the members, and no two members share one. */
  lemma {:induction false} DescriptorsMatchMembers(max: int, ls: seq<Label>)
    requires IsRunOf(Initial(max), ls)
    ensures var w := Exec(Initial(max), ls);
            && (forall i :: 0 <= i < |w.conns| ==> w.conns[i] < |w.objs|)
            && w.fds == FdsOf(w, w.conns)
            && forall i, j :: 0 <= i < j < |w.conns| ==> w.objs[w.conns[i]].fd != w.objs[w.conns[j]].fd
  {
    InitialInv(max);
    InvHolds(Initial(max), ls);
    FdsOfMembers(Exec(Initial(max), ls));
  }

  /** The descriptors of the first `n` members are that many, and none of them belongs to a later member. */
  lemma {:induction false} DistinctFds(w: World, n: nat)
    requires Inv(w) && n <= |w.conns|
    ensures |FdsOf(w, w.conns[..n])| == n && FdsOf(w, w.conns[..n]) <= w.fds
    ensures forall i :: n <= i < |w.conns| ==> FdAt(w, i) !in FdsOf(w, w.conns[..n])
  {
    if n > 0 {
      DistinctFds(w, n - 1);
      assert w.conns[..n][..n - 1] == w.conns[..n - 1] && w.conns[n - 1] in w.conns;
      assert FdsOf(w, w.conns[..n]) == FdsOf(w, w.conns[..n - 1]) + {FdAt(w, n - 1)};
      forall i | n <= i < |w.conns|
        ensures FdAt(w, i) != FdAt(w, n - 1)
      {
        MembersDiffer(w, n - 1, i);
      }
    }
  }

  function FdAt(w: World, i: nat): int
    requires i < |w.conns| && w.conns[i] < |w.objs|
  {
    w.objs[w.conns[i]].fd
  }

  lemma MembersDiffer(w: World, i: nat, j: nat)
    requires Inv(w) && i < j < |w.conns|
    ensures FdAt(w, i) != FdAt(w, j)
  {
    assert w.conns[i] in w.conns && w.conns[j] in w.conns;
  }

  lemma SubsetOfSameSize<T>(a: set<T>, b: set<T>)
    requires a <= b && |a| == |b|
    ensures a == b
  {
    if x :| x in b && x !in a {
      assert a <= b - {x};
      SubsetSize(a, b - {x});
    }
  }

  lemma {:induction false} SubsetSize<T>(a: set<T>, b: set<T>)
    requires a <= b
    ensures |a| <= |b|
  {
    if a != {} {
      var x :| x in a;
      SubsetSize(a - {x}, b - {x});
    }
  }

  lemma FdsOfMembers(w: World)
    requires Inv(w)
    ensures w.fds == FdsOf(w, w.conns)
  {
    DistinctFds(w, |w.conns|);
    assert w.conns[..|w.conns|] == w.conns;
    SubsetOfSameSize(FdsOf(w, w.conns), w.fds);
  }

  /**
   Exactly which clients are admitted: those of a base listener that come while fewer than the limit
   of client descriptors are open. An admitted client's descriptor is that of the one new member; the
   descriptor of any other is not left open. Nobody else is touched.
   */
  lemma {:induction false} AdmittedIff(
    w: World, listener: nat, kind: ListenerType, fd: int, create: bool, metered: bool)
    requires Inv(w) && Enabled(w, Accept(listener, kind, fd, create, metered))
    ensures var v := Apply(w, Accept(listener, kind, fd, create, metered));
            && (fd in v.fds <==> |w.fds| < w.max && kind.BaseStream?)
            && (fd in v.fds ==>
                  && v.fds == w.fds + {fd} && v.conns == w.conns + [|w.objs|]
                  && v.objs[..|w.objs|] == w.objs && |v.objs| == |w.objs| + 1 && v.objs[|w.objs|].fd == fd)
            && (fd !in v.fds ==> v == w)
  {
  }

  // ----- what the handshake is needed for

  ghost predicate Safe(w: World) {
    forall ls :: IsRunOf(w, ls) ==> !Exec(w, ls).fault
  }

  /** A listed connection whose coroutine nothing holds back: it can run to its own removal. */
  predicate Runaway(w: World, c: nat) {
    && c < |w.objs| && c in w.conns && w.objs[c].pc.Some?
    && !Gone(w.objs[c].pc) && (!w.objs[c].t.loop || w.objs[c].t.canRun)
  }

  /** How often it is still scheduled if no callback fails; one that ends a round begins at most one more. */
  function StepsLeft(o: Conn): nat
    requires o.pc.Some?
  {
    if o.t.loop && o.pc.value.Ending? then 10
    else if o.t.loop && o.pc.value.Nap? then 9
    else Rank(o.pc.value)
  }

  lemma {:induction false} RunsToRemoval(w: World, c: nat) returns (ls: seq<Label>)
    requires Runaway(w, c)
    ensures IsRunOf(w, ls) && forall l :: l in ls ==> l.Schedule?
    ensures Exec(w, ls).starting == w.starting && |Exec(w, ls).objs| == |w.objs|
    ensures !Exec(w, ls).objs[c].threadLive
    decreases StepsLeft(w.objs[c])
  {
    var l := Schedule(c, ERROR_SUCCESS, Context.FIRST_ID);
    var v := Apply(w, l);
    if v.objs[c].pc.value.OnStop? {
      ls := [l];
      assert ls[1..] == [];
    } else {
      var ms := RunsToRemoval(v, c);
      ls := [l] + ms;
      assert ls[1..] == ms;
    }
  }

  /** While a listener is inside start() of a runaway connection, some run touches a deleted thread. */
  lemma {:induction false} RunawayFaults(w: World, listener: nat)
    requires listener in w.starting && Runaway(w, w.starting[listener])
    ensures !Safe(w)
  {
    var ls := RunsToRemoval(w, w.starting[listener]);
    var v := Exec(w, ls);
    var l := WakeStart(listener);
    var u := Apply(v, l);
    ExecAppend(w, ls, l);
    assert u.fault;
  }

  lemma {:induction false} ExecAppend(w: World, ls: seq<Label>, l: Label)
    requires IsRunOf(w, ls) && Enabled(Exec(w, ls), l)
    ensures IsRunOf(w, ls + [l]) && Exec(w, ls + [l]) == Apply(Exec(w, ls), l)
    decreases ls
  {
    if ls == [] {
      assert ls + [l] == [l] && [l][1..] == [];
    } else {
      assert (ls + [l])[1..] == ls[1..] + [l];
      ExecAppend(Apply(w, ls[0]), ls[1..], l);
    }
  }

  /**
   Clearing a connection's loop from outside is harmless exactly when no listener is inside its
   start(): otherwise the connection can delete itself while start() still has fields to read.
   */
  lemma {:induction false} OutsideStopIsSafeIff(w: World, c: nat)
    requires Inv(w) && c in w.conns && w.objs[c].pc.Some?
    ensures Safe(StopFromOutside(w, c)) <==> !BeingStarted(w, c)
  {
    var v := StopFromOutside(w, c);
    if BeingStarted(w, c) {
      var listener :| listener in w.starting && w.starting[listener] == c;
      RunawayFaults(v, listener);
    } else {
      StopStep(w, c);
      forall ls | IsRunOf(v, ls)
        ensures !Exec(v, ls).fault
      {
        InvHolds(v, ls);
      }
    }
  }

  /**
   The handshake is what keeps start() safe: if the child of a connection that a listener is
   starting were released early, as by a can_run left over from before, some run would touch a
   deleted thread.
   */
  lemma {:induction false} EarlyReleaseIsUnsafe(w: World, listener: nat)
    requires Inv(w) && listener in w.starting
    ensures var c := w.starting[listener];
            !Safe(Put(w, c, w.objs[c].(t := w.objs[c].t.(canRun := true))))
  {
    StartedIsLive(w, listener);
    var c := w.starting[listener];
    RunawayFaults(Put(w, c, w.objs[c].(t := w.objs[c].t.(canRun := true))), listener);
  }

  // ----- who leaves the table

  /** If st_thread_create fails, the connection holds its place in the table for ever. */
  lemma {:induction false} FailedCreateHoldsItsPlace(w: World, ls: seq<Label>, c: nat)
    requires Inv(w) && IsRunOf(w, ls) && c in w.conns && w.objs[c].pc.None?
    ensures var v := Exec(w, ls); c in v.conns && c < |v.objs| && v.objs[c].pc.None? && v.objs[c].fd in v.fds
    decreases ls
  {
    if ls != [] {
      InvStep(w, ls[0]);
      PlaceStep(w, ls[0], c);
      FailedCreateHoldsItsPlace(Apply(w, ls[0]), ls[1..], c);
    }
  }

  lemma PlaceStep(w: World, l: Label, c: nat)
    requires Inv(w) && Enabled(w, l) && c in w.conns && w.objs[c].pc.None?
    ensures Inv(Apply(w, l))
    ensures var v := Apply(w, l); c in v.conns && v.objs[c].pc.None?
  {
    InvStep(w, l);
    match l
    case ResampleAll => ResampleListKeepsThreads(w, w.conns);
    case Schedule(d, code, id) =>
      ScheduleSkips(w, d, code, id, c);
      EraseMembers(w.conns, if d in w.conns then d else c);
    case _ =>
  }

  lemma {:induction false} ResampleListKeepsThreads(w: World, cs: seq<nat>)
    requires forall i :: 0 <= i < |cs| ==> cs[i] < |w.objs|
    ensures var v := ResampleList(w, cs);
            && |v.objs| == |w.objs| && v.conns == w.conns
            && forall c :: 0 <= c < |w.objs| ==>
                 && v.objs[c].pc == w.objs[c].pc && v.objs[c].t == w.objs[c].t
                 && v.objs[c].recvCounter == w.objs[c].recvCounter && v.objs[c].sendCounter == w.objs[c].sendCounter
    decreases cs
  {
    if cs != [] {
      ResampleListKeepsThreads(Resample(w, cs[0]), cs[1..]);
    }
  }

  /** The coroutines there are just go on: nobody is accepted, nobody stops a loop from outside. */
  predicate Served(ls: seq<Label>) {
    forall l :: l in ls ==> l.Schedule? || l.WakeStart?
  }

  /** What such a run can change of the table, the descriptors and the listeners inside start(). */
  ghost predicate Shrinks(w: World, v: World) {
    && v.max == w.max && |v.objs| == |w.objs| && v.fds <= w.fds
    && (forall c :: c in v.conns ==> c in w.conns)
    && (forall a :: a in v.starting ==> a in w.starting)
    && (forall c :: 0 <= c < |w.objs| ==> (v.objs[c].pc.None? <==> w.objs[c].pc.None?))
  }

  lemma WakeShrinks(w: World, listener: nat)
    requires Inv(w) && Enabled(w, WakeStart(listener))
    ensures Shrinks(w, WakeListener(w, listener))
  {
  }

  lemma ScheduleShrinks(w: World, c: nat, code: int, id: int)
    requires Inv(w) && Enabled(w, Schedule(c, code, id))
    ensures Shrinks(w, ScheduleConn(w, c, code, id))
  {
    var o := w.objs[c];
    if !o.pc.value.OnStop? && Progress(o, code, id).pc.value.OnStop? {
      RemoveValue(Put(w, c, Progress(o, code, id)), c);
      EraseMembers(w.conns, c);
    }
  }

  lemma ServedStep(w: World, l: Label)
    requires Inv(w) && Enabled(w, l) && (l.Schedule? || l.WakeStart?)
    ensures Inv(Apply(w, l)) && Shrinks(w, Apply(w, l))
  {
    InvStep(w, l);
    match l
    case WakeStart(listener) => WakeShrinks(w, listener);
    case Schedule(c, code, id) => ScheduleShrinks(w, c, code, id);
  }

  lemma {:induction false} ServedRun(w: World, ls: seq<Label>)
    requires Inv(w) && IsRunOf(w, ls) && Served(ls)
    ensures Inv(Exec(w, ls)) && Shrinks(w, Exec(w, ls))
    decreases ls
  {
    if ls != [] {
      assert ls[0] in ls && forall l :: l in ls[1..] ==> l in ls;
      ServedStep(w, ls[0]);
      ServedRun(Apply(w, ls[0]), ls[1..]);
    }
  }

  lemma {:induction false} ServedFirst(w: World, l: Label, ms: seq<Label>)
    requires Enabled(w, l) && (l.Schedule? || l.WakeStart?) && IsRunOf(Apply(w, l), ms) && Served(ms)
    ensures IsRunOf(w, [l] + ms) && Served([l] + ms) && Exec(w, [l] + ms) == Exec(Apply(w, l), ms)
  {
    assert ([l] + ms)[1..] == ms;
  }

  /** What happens next to a connection that a listener is starting: it is scheduled, and then start() returns. */
  function NextOfStart(w: World, listener: nat): (l: Label)
    requires listener in w.starting && w.starting[listener] < |w.objs|
  {
    var c := w.starting[listener];
    if w.objs[c].pc == Some(Fresh) then Schedule(c, ERROR_SUCCESS, Context.FIRST_ID) else WakeStart(listener)
  }

  lemma StartGoesOn(w: World, listener: nat)
    requires Inv(w) && listener in w.starting
    ensures var (l, c) := (NextOfStart(w, listener), w.starting[listener]);
            && c in w.conns && Enabled(w, l)
            && Inv(Apply(w, l)) && Shrinks(w, Apply(w, l)) && WentOn(Apply(w, l), listener, c, l)
  {
    StartedIsLive(w, listener);
    ServedStep(w, NextOfStart(w, listener));
    StartWentOn(w, listener);
  }

  lemma StartWentOn(w: World, listener: nat)
    requires Inv(w) && listener in w.starting && w.starting[listener] in w.conns
    requires Enabled(w, NextOfStart(w, listener))
    ensures WentOn(Apply(w, NextOfStart(w, listener)), listener, w.starting[listener], NextOfStart(w, listener))
  {
    var c := w.starting[listener];
    if w.objs[c].pc == Some(Fresh) {
      assert Progress(w.objs[c], ERROR_SUCCESS, Context.FIRST_ID).pc == Some(OnStart);
    }
  }

  predicate WentOn(v: World, listener: nat, c: nat, l: Label) {
    && c < |v.objs| && c in v.conns && v.objs[c].pc.Some?
    && if l.Schedule? then v.starting.Keys >= {listener} && v.starting[listener] == c && v.objs[c].pc == Some(OnStart)
       else listener !in v.starting && v.objs[c].t.canRun
  }

  /** Every listener comes out of start(). */
  lemma {:induction false} StartEnds(w: World, listener: nat) returns (ls: seq<Label>)
    requires Inv(w)
    ensures IsRunOf(w, ls) && Served(ls) && listener !in Exec(w, ls).starting
    decreases listener in w.starting && w.starting[listener] < |w.objs| && NextOfStart(w, listener).Schedule?
  {
    ls := [];
    if listener in w.starting {
      StartGoesOn(w, listener);
      var l := NextOfStart(w, listener);
      if l.Schedule? {
        var ms := StartEnds(Apply(w, l), listener);
        ServedFirst(w, l, ms);
        ls := [l] + ms;
      } else {
        ServedFirst(w, l, []);
        ls := [l] + [];
      }
    }
  }

  /** Every member that has a coroutine can leave the table. */
  lemma {:induction false} MemberLeaves(w: World, c: nat) returns (ls: seq<Label>)
    requires Inv(w) && c in w.conns && w.objs[c].pc.Some?
    ensures IsRunOf(w, ls) && Served(ls) && c !in Exec(w, ls).conns
    decreases w.objs[c].pc.value.Fresh?
  {
    if BeingStarted(w, c) {
      var a :| a in w.starting && w.starting[a] == c;
      StartGoesOn(w, a);
      var l := NextOfStart(w, a);
      var ms;
      if l.Schedule? {
        ms := MemberLeaves(Apply(w, l), c);
      } else {
        ms := RemovedByItself(Apply(w, l), c);
      }
      ServedFirst(w, l, ms);
      ls := [l] + ms;
    } else {
      ls := RemovedByItself(w, c);
    }
  }

  lemma RemovedByItself(w: World, c: nat) returns (ls: seq<Label>)
    requires Inv(w) && c in w.conns && w.objs[c].pc.Some? && w.objs[c].t.canRun
    ensures IsRunOf(w, ls) && Served(ls) && c !in Exec(w, ls).conns
  {
    ls := RunsToRemoval(w, c);
    InvHolds(w, ls);
  }

  /**
   Exactly which members can ever leave the table: those that have a coroutine, and they can by just
   being served. The others stay whatever happens.
   */
  lemma {:induction false} CanLeaveIff(w: World, c: nat)
    requires Inv(w) && c in w.conns
    ensures (exists ls :: IsRunOf(w, ls) && c !in Exec(w, ls).conns) <==> w.objs[c].pc.Some?
    ensures w.objs[c].pc.Some? ==> exists ls :: IsRunOf(w, ls) && Served(ls) && c !in Exec(w, ls).conns
  {
    if w.objs[c].pc.Some? {
      var ls := MemberLeaves(w, c);
    } else {
      forall ls | IsRunOf(w, ls)
        ensures c in Exec(w, ls).conns
      {
        FailedCreateHoldsItsPlace(w, ls, c);
      }
    }
  }
}
