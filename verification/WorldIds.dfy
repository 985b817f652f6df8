/**
 The cids of the connections, when they are drawn from SrsThreadContext (src/base/app_thread.cpp:122-125):
 World.dfy lets a coroutine that is first scheduled take any id; here it is the one that generate_id gives it.
 */
module WorldIds {
  import opened Base
  import opened Thread
  import opened World
  import opened WorldLaws
  import C = Context

  /** What some coroutine does next, and the calls that any threads made of the context just before. */
  datatype Turn = Turn(before: seq<C.Call>, step: Label)

  /** The step is the first that this connection's coroutine makes. */
  predicate FirstRun(w: World, l: Label) {
    l.Schedule? && l.conn < |w.objs| && w.objs[l.conn].pc == Some(Fresh)
  }

  /** The context's history after the turn; the coroutine of connection number c is thread c. */
  function After(w: World, calls: seq<C.Call>, t: Turn): seq<C.Call> {
    if FirstRun(w, t.step) then calls + t.before + [C.Generate(t.step.conn)] + [C.Get(t.step.conn)]
    else calls + t.before
  }

  /** A run in which every coroutine's cid is what get_id answers it after its generate_id. */
  predicate Supplied(w: World, calls: seq<C.Call>, ts: seq<Turn>)
    decreases ts
  {
    ts != [] ==>
      && var l := ts[0].step;
         && Enabled(w, l)
         && (FirstRun(w, l) ==>
               l.id == C.Lookup(C.Run(calls + ts[0].before + [C.Generate(l.conn)]), l.conn))
         && Supplied(Apply(w, l), After(w, calls, ts[0]), ts[1..])
  }

  function Final(w: World, calls: seq<C.Call>, ts: seq<Turn>): World
    requires Supplied(w, calls, ts)
    decreases ts
  {
    if ts == [] then w else Final(Apply(w, ts[0].step), After(w, calls, ts[0]), ts[1..])
  }

  lemma GenerateGives(calls: seq<C.Call>, self: C.Tid)
    ensures var s := C.Run(calls + [C.Generate(self)]);
            C.Lookup(s, self) == C.Run(calls).id && s.id == C.Run(calls).id + 1
  {
    assert (calls + [C.Generate(self)])[..|calls|] == calls;
  }

  lemma {:induction false} IdGrows(calls: seq<C.Call>, n: nat)
    requires n <= |calls|
    ensures C.Run(calls[..n]).id <= C.Run(calls).id
  {
    if n == |calls| {
      assert calls[..n] == calls;
    } else {
      assert calls[..|calls| - 1][..n] == calls[..n];
      IdGrows(calls[..|calls| - 1], n);
    }
  }

  lemma IdNeverDecreases(calls: seq<C.Call>, more: seq<C.Call>)
    ensures C.Run(calls).id <= C.Run(calls + more).id
  {
    assert (calls + more)[..|calls|] == calls;
    IdGrows(calls + more, |calls|);
  }

  /** Coroutines that have run have different cids, all below `next`. */
  ghost predicate CidsInv(w: World, next: int) {
    (forall c :: 0 <= c < |w.objs| ==> w.objs[c].t.cid < next) && CidsDiffer(w)
  }

  ghost predicate CidsDiffer(w: World) {
    forall c, d :: 0 <= c < d < |w.objs| && w.objs[c].t.cid >= 0 ==> w.objs[c].t.cid != w.objs[d].t.cid
  }

  /** A step gives a cid to the connection that runs first in it, and leaves all others. */
  ghost predicate CidsAfter(w: World, v: World, l: Label) {
    && |v.objs| >= |w.objs|
    && (forall c :: 0 <= c < |w.objs| ==>
          v.objs[c].t.cid == if FirstRun(w, l) && c == l.conn then l.id else w.objs[c].t.cid)
    && (forall c :: |w.objs| <= c < |v.objs| ==> v.objs[c].t.cid == -1)
  }

  lemma CidsStep(w: World, l: Label)
    requires Inv(w) && Enabled(w, l)
    ensures CidsAfter(w, Apply(w, l), l)
  {
    match l
    case ResampleAll => ResampleListKeepsThreads(w, w.conns);
    case Schedule(c, code, id) => ScheduleCids(w, c, code, id);
    case _ =>
  }

  lemma ScheduleCids(w: World, c: nat, code: int, id: int)
    requires Inv(w) && Enabled(w, Schedule(c, code, id))
    ensures CidsAfter(w, ScheduleConn(w, c, code, id), Schedule(c, code, id))
  {
    forall d | 0 <= d < |w.objs| && d != c
      ensures ScheduleConn(w, c, code, id).objs[d] == w.objs[d]
    {
      ScheduleSkips(w, c, code, id, d);
    }
  }

  lemma TurnKeepsCids(w: World, calls: seq<C.Call>, ts: seq<Turn>)
    requires Inv(w) && CidsInv(w, C.Run(calls).id) && C.Run(calls).id >= C.FIRST_ID
    requires ts != [] && Supplied(w, calls, ts)
    ensures CidsInv(Apply(w, ts[0].step), C.Run(After(w, calls, ts[0])).id)
    ensures C.Run(After(w, calls, ts[0])).id >= C.FIRST_ID
  {
    var l, mid := ts[0].step, calls + ts[0].before;
    IdNeverDecreases(calls, ts[0].before);
    CidsStep(w, l);
    if FirstRun(w, l) {
      GenerateGives(mid, l.conn);
      IdNeverDecreases(mid + [C.Generate(l.conn)], [C.Get(l.conn)]);
    }
  }

  lemma {:induction false} CidsHold(w: World, calls: seq<C.Call>, ts: seq<Turn>)
    requires Inv(w) && CidsInv(w, C.Run(calls).id) && C.Run(calls).id >= C.FIRST_ID && Supplied(w, calls, ts)
    ensures CidsDiffer(Final(w, calls, ts))
    decreases ts
  {
    if ts != [] {
      InvStep(w, ts[0].step);
      TurnKeepsCids(w, calls, ts);
      CidsHold(Apply(w, ts[0].step), After(w, calls, ts[0]), ts[1..]);
    }
  }

  /** In every run no two connections whose coroutines have run have the same cid. */
  lemma {:induction false} CidsAreDistinct(max: int, calls: seq<C.Call>, ts: seq<Turn>, c: nat, d: nat)
    requires Supplied(Initial(max), calls, ts)
    requires c < |Final(Initial(max), calls, ts).objs| && d < |Final(Initial(max), calls, ts).objs| && c != d
    requires Final(Initial(max), calls, ts).objs[c].t.cid >= 0
    ensures Final(Initial(max), calls, ts).objs[c].t.cid != Final(Initial(max), calls, ts).objs[d].t.cid
  {
    InitialInv(max);
    C.IdCountsGenerates(calls, 0);
    CidsHold(Initial(max), calls, ts);
  }
}
