/** resample_kbps(NULL): adding up the live connections (src/base/app_server.cpp:372-397). */
module WorldResample {
  import opened Base
  import opened World
  import A = Accounts
  import opened WorldLaws
  import opened WorldBytes

  /** What resampling the connection would add to the server. */
  function Pending(o: Conn, d: Dir): int {
    A.Pending(Account(o, d), Counter(o, d))
  }

  /** The sum of what the first `n` connections would add, as far as `cs` lists them. */
  function SumPending(os: seq<Conn>, cs: seq<nat>, n: nat, d: Dir): int
    requires n <= |os|
  {
    if n == 0 then 0
    else SumPending(os, cs, n - 1, d) + if n - 1 in cs then Pending(os[n - 1], d) else 0
  }

  /** `v` is `w` with exactly the listed connections settled and their bytes added to the server. */
  ghost predicate Settles(w: World, v: World, cs: seq<nat>) {
    && |v.objs| == |w.objs|
    && (forall c :: 0 <= c < |w.objs| ==> v.objs[c] == if c in cs then Settle(w.objs[c]) else w.objs[c])
    && v == w.(objs := v.objs,
               recv := A.Add(w.recv, SumPending(w.objs, cs, |w.objs|, Recv)),
               send := A.Add(w.send, SumPending(w.objs, cs, |w.objs|, Send)))
  }

  lemma {:induction false} SumPendingHead(os: seq<Conn>, cs: seq<nat>, n: nat, d: Dir)
    requires NoDuplicates(cs) && cs != [] && cs[0] < |os| && n <= |os|
    ensures SumPending(os, cs, n, d)
         == SumPending(os[cs[0] := Settle(os[cs[0]])], cs[1..], n, d) + if cs[0] < n then Pending(os[cs[0]], d) else 0
  {
    if n > 0 {
      SumPendingHead(os, cs, n - 1, d);
      assert cs[0] !in cs[1..];
      assert n - 1 in cs <==> n - 1 == cs[0] || n - 1 in cs[1..];
    }
  }

  lemma {:induction false} SumPendingNone(os: seq<Conn>, n: nat, d: Dir)
    requires n <= |os|
    ensures SumPending(os, [], n, d) == 0
  {
    if n > 0 {
      SumPendingNone(os, n - 1, d);
    }
  }

  /** The loop settles exactly the listed connections and adds exactly the sum of their bytes. */
  lemma {:induction false} ResampleListSettles(w: World, cs: seq<nat>)
    requires NoDuplicates(cs) && forall i :: 0 <= i < |cs| ==> cs[i] < |w.objs| && w.objs[cs[i]].connLive
    ensures Settles(w, ResampleList(w, cs), cs)
    decreases cs
  {
    if cs == [] {
      SumPendingNone(w.objs, |w.objs|, Recv);
      SumPendingNone(w.objs, |w.objs|, Send);
    } else {
      var w1 := Resample(w, cs[0]);
      ResampleListSettles(w1, cs[1..]);
      SumPendingHead(w.objs, cs, |w.objs|, Recv);
      SumPendingHead(w.objs, cs, |w.objs|, Send);
      assert cs[0] !in cs[1..];
      assert forall c :: c in cs <==> c == cs[0] || c in cs[1..];
    }
  }

  /** What the listed connections would add, one by one. */
  function PendingList(os: seq<Conn>, cs: seq<nat>, d: Dir): seq<int>
    requires forall i :: 0 <= i < |cs| ==> cs[i] < |os|
  {
    seq(|cs|, i requires 0 <= i < |cs| => Pending(os[cs[i]], d))
  }

  lemma {:induction false} SumPendingIsListSum(os: seq<Conn>, cs: seq<nat>, d: Dir)
    requires NoDuplicates(cs) && forall i :: 0 <= i < |cs| ==> cs[i] < |os|
    ensures SumPending(os, cs, |os|, d) == A.Sum(PendingList(os, cs, d))
    decreases cs
  {
    if cs == [] {
      SumPendingNone(os, |os|, d);
    } else {
      var ps := os[cs[0] := Settle(os[cs[0]])];
      SumPendingHead(os, cs, |os|, d);
      SumPendingIsListSum(ps, cs[1..], d);
      assert PendingList(os, cs, d)[1..] == PendingList(ps, cs[1..], d);
    }
  }

  /**
   What SrsServer.ResampleAll of Server.dfy promises of its fields is what ResampleAll does here:
   every member's accounts end up settled, and the server's account grows by the sum of the list of
   what the members had not reported.
   */
  lemma {:induction false} ResampleAllAsInServer(w: World)
    requires Inv(w) && Enabled(w, ResampleAll) && !w.recv.attached && !w.send.attached
    ensures var v := Apply(w, ResampleAll);
            && v.conns == w.conns && |v.objs| == |w.objs|
            && (forall i :: 0 <= i < |w.conns| ==>
                  var o := w.objs[w.conns[i]];
                  (v.objs[w.conns[i]].recv, v.objs[w.conns[i]].send)
                  == (A.Settled(o.recv, o.recvCounter), A.Settled(o.send, o.sendCounter)))
            && v.recv == A.Add(w.recv, A.Sum(PendingList(w.objs, w.conns, Recv)))
            && v.send == A.Add(w.send, A.Sum(PendingList(w.objs, w.conns, Send)))
  {
    ResampleListSettles(w, w.conns);
    SumPendingIsListSum(w.objs, w.conns, Recv);
    SumPendingIsListSum(w.objs, w.conns, Send);
  }

  lemma {:induction false} SumPendingSameMembers(os: seq<Conn>, cs: seq<nat>, ds: seq<nat>, n: nat, d: Dir)
    requires n <= |os| && forall c :: c in cs <==> c in ds
    ensures SumPending(os, cs, n, d) == SumPending(os, ds, n, d)
  {
    if n > 0 {
      SumPendingSameMembers(os, cs, ds, n - 1, d);
    }
  }

  /** The order of the table does not matter, nor does resampling the members one by one in another order. */
  lemma {:induction false} OrderDoesNotMatter(w: World, cs: seq<nat>, ds: seq<nat>)
    requires NoDuplicates(cs) && NoDuplicates(ds) && forall c :: c in cs <==> c in ds
    requires forall i :: 0 <= i < |cs| ==> cs[i] < |w.objs| && w.objs[cs[i]].connLive
    requires forall i :: 0 <= i < |ds| ==> ds[i] < |w.objs| && w.objs[ds[i]].connLive
    ensures ResampleList(w, cs) == ResampleList(w, ds)
  {
    ResampleListSettles(w, cs);
    ResampleListSettles(w, ds);
    SumPendingSameMembers(w.objs, cs, ds, |w.objs|, Recv);
    SumPendingSameMembers(w.objs, cs, ds, |w.objs|, Send);
    assert ResampleList(w, cs).objs == ResampleList(w, ds).objs;
  }

  lemma {:induction false} SumPendingSettled(os: seq<Conn>, cs: seq<nat>, n: nat, d: Dir)
    requires n <= |os| && forall c :: 0 <= c < n && c in cs ==> Pending(os[c], d) == 0
    ensures SumPending(os, cs, n, d) == 0
  {
    if n > 0 {
      SumPendingSettled(os, cs, n - 1, d);
    }
  }

  lemma SettleTwice(o: Conn)
    ensures Settle(Settle(o)) == Settle(o)
    ensures Pending(Settle(o), Recv) == 0 && Pending(Settle(o), Send) == 0
  {
  }

  /** A list of connections that have all just been settled */
  lemma {:induction false} ResampleSettledList(w: World, cs: seq<nat>)
    requires NoDuplicates(cs) && forall i :: 0 <= i < |cs| ==> cs[i] < |w.objs| && w.objs[cs[i]].connLive
    requires forall c :: 0 <= c < |w.objs| && c in cs ==> Settle(w.objs[c]) == w.objs[c]
    requires forall c :: 0 <= c < |w.objs| && c in cs ==> Pending(w.objs[c], Recv) == 0 == Pending(w.objs[c], Send)
    ensures ResampleList(w, cs) == w
  {
    ResampleListSettles(w, cs);
    SumPendingSettled(w.objs, cs, |w.objs|, Recv);
    SumPendingSettled(w.objs, cs, |w.objs|, Send);
    assert ResampleList(w, cs).objs == w.objs;
  }

  /** resample_kbps(NULL) with no traffic since the last one changes nothing. */
  lemma {:induction false} ResampleAllIsIdempotent(w: World)
    requires Inv(w) && Enabled(w, ResampleAll) && !w.recv.attached && !w.send.attached
    ensures Enabled(Apply(w, ResampleAll), ResampleAll)
    ensures Apply(Apply(w, ResampleAll), ResampleAll) == Apply(w, ResampleAll)
  {
    ResampleListSettles(w, w.conns);
    var v := ResampleList(w, w.conns);
    assert Apply(w, ResampleAll) == v;
    forall c | 0 <= c < |v.objs| && c in v.conns
      ensures Pending(v.objs[c], Recv) == 0 == Pending(v.objs[c], Send) && Settle(v.objs[c]) == v.objs[c]
    {
      SettleTwice(w.objs[c]);
    }
    ResampleSettledList(v, v.conns);
  }

  /** After resample_kbps(NULL) the server has counted every byte that the sockets of its connections ever counted. */
  lemma {:induction false} ResampledServerCountsEverything(max: int, ls: seq<Label>, d: Dir)
    requires IsRunOf(Initial(max), ls) && Enabled(Exec(Initial(max), ls), ResampleAll)
    ensures var w := Apply(Exec(Initial(max), ls), ResampleAll);
            A.Total(Server(w, d)) == SumTraffic(w.objs, d)
  {
    var v := Exec(Initial(max), ls);
    var w := Apply(v, ResampleAll);
    InitialInv(max);
    InvHolds(Initial(max), ls);
    BytesInvHolds(Initial(max), ls);
    TrailInvHolds(Initial(max), ls);
    InvStep(v, ResampleAll);
    BytesStep(v, ResampleAll);
    TrailStep(v, ResampleAll);
    ResampleListSettles(v, v.conns);
    forall c | 0 <= c < |w.objs| && Account(w.objs[c], d).attached
      ensures Reported(w.objs[c], d) == Counter(w.objs[c], d)
    {
      CaughtUp(v.objs[c], w.objs[c], d);
    }
    ReportedBelowTraffic(w.objs, d);
  }

  lemma CaughtUp(o: Conn, p: Conn, d: Dir)
    requires TrailsBoth(o) && p == (if o.connLive then Settle(o) else o) && Account(p, d).attached
    ensures Reported(p, d) == Counter(p, d)
  {
    if o.connLive {
      SettledAccount(Account(o, d), Counter(o, d), true);
    }
  }

  lemma SettledAccount(a: A.Acct, counter: int, live: bool)
    requires Trails(a, counter, live) && a.attached
    ensures A.Report(A.Sample(a, counter)).delta == counter
  {
  }
}
