/**
 The destructor of SrsListener (src/base/app_listener.cpp:22-32) beside the running server.

 The destructor closes its descriptor number, waits in stop() for its coroutine, and then closes the
 same number a second time. While it waits the others go on, and the number may be given to a client.
 */
module Teardown {
  import opened Base
  import opened World
  import opened WorldLaws

  /** How far the destructor is. `thread` says whether the listener ever got a coroutine. */
  datatype Phase = Listening(thread: bool) | Joining | Destroyed

  /**
   The server, and the listener that is destroyed: the number of its coroutine, if it has one, and its
   descriptor. `listeners` are the coroutines of all listeners, which alone accept clients.
   */
  datatype State = State(w: World, self: nat, listeners: set<nat>, fd: int, phase: Phase)

  datatype Move =
    | Other(step: Label) // any coroutine goes on
    | Destroy             // the destructor, up to st_thread_join or its end
    | JoinReturns         // the rest of it

  /**
   The kernel never hands out a number that is open. Once its thread is interrupted, the listener's
   own coroutine accepts nobody any more; it ends when it is not inside start() of a connection.
   */
  predicate MayMove(s: State, m: Move) {
    match m
    case Other(l) =>
      && Enabled(s.w, l)
      && (l.Accept? && s.phase.Listening? ==> l.fd != s.fd)
      && (l.Accept? ==> if l.listener == s.self then s.phase == Listening(true) else l.listener in s.listeners)
    case Destroy => s.phase.Listening?
    case JoinReturns => s.phase.Joining? && s.self !in s.w.starting
  }

  function CloseNumber(w: World, fd: int): World {
    w.(fds := w.fds - {fd})
  }

  function Step(s: State, m: Move): State
    requires MayMove(s, m)
  {
    match m
    case Other(l) => s.(w := Apply(s.w, l))
    case Destroy =>
      var w1 := CloseNumber(s.w, s.fd); // srs_close_stfd
      if s.phase.thread then s.(w := w1, phase := Joining)
      else s.(w := CloseNumber(w1, s.fd), phase := Destroyed)
    case JoinReturns => s.(w := CloseNumber(s.w, s.fd), phase := Destroyed)
  }

  predicate AreMoves(s: State, ms: seq<Move>)
    decreases ms
  {
    ms == [] || (MayMove(s, ms[0]) && AreMoves(Step(s, ms[0]), ms[1..]))
  }

  function Moved(s: State, ms: seq<Move>): State
    requires AreMoves(s, ms)
    decreases ms
  {
    if ms == [] then s else Moved(Step(s, ms[0]), ms[1..])
  }

  /** Every member of the connection table still has its descriptor. */
  predicate MembersOpen(w: World) {
    forall i :: 0 <= i < |w.conns| ==> w.conns[i] < |w.objs| && w.objs[w.conns[i]].fd in w.fds
  }

  /** Whatever happens from now on, no member loses its descriptor. */
  ghost predicate NobodyLoses(s: State) {
    forall ms :: AreMoves(s, ms) ==> MembersOpen(Moved(s, ms).w)
  }

  /** The members whose thread could not be created. */
  function Stuck(w: World): set<nat> {
    set c | c in w.conns && c < |w.objs| && w.objs[c].pc.None?
  }

  /** They fill the whole table. */
  predicate Crowded(w: World) {
    |Stuck(w)| >= w.max
  }

  // ----- when the second close is harmless

  function Members(cs: seq<nat>): set<nat> {
    set c | c in cs
  }

  lemma {:induction false} MembersCount(cs: seq<nat>)
    ensures |Members(cs)| <= |cs|
    ensures NoDuplicates(cs) ==> |Members(cs)| == |cs|
  {
    if cs != [] {
      var n := |cs| - 1;
      MembersCount(cs[..n]);
      assert cs == cs[..n] + [cs[n]];
      assert Members(cs) == Members(cs[..n]) + {cs[n]};
    }
  }

  lemma OnlyAcceptOpens(w: World, l: Label)
    requires Inv(w) && Enabled(w, l)
    ensures Apply(w, l).fds <= w.fds + (if l.Accept? then {l.fd} else {})
  {
    if l.ResampleAll? {
      ResampleListFrame(w, w.conns);
    }
  }

  /** A crowded table stays so, and admits nobody. */
  lemma CrowdedStep(w: World, l: Label)
    requires Inv(w) && Enabled(w, l) && Crowded(w)
    ensures Crowded(Apply(w, l)) && Apply(w, l).fds <= w.fds
  {
    var v := Apply(w, l);
    forall c | c in Stuck(w)
      ensures c in Stuck(v)
    {
      PlaceStep(w, l, c);
    }
    SubsetSize(Stuck(w), Stuck(v));
    MaxStep(w, l);
    OnlyAcceptOpens(w, l);
    assert |w.conns| >= w.max by {
      MembersCount(w.conns);
      SubsetSize(Stuck(w), Members(w.conns));
    }
  }

  /** Nobody will be accepted while the destructor waits. */
  predicate Closed(s: State) {
    Crowded(s.w) || s.listeners <= {s.self}
  }

  ghost predicate Harmless(s: State) {
    && Inv(s.w)
    && (!s.phase.Destroyed? ==> s.fd !in s.w.fds)
    && (s.phase != Listening(false) && !s.phase.Destroyed? ==> Closed(s))
  }

  lemma HarmlessStep(s: State, m: Move)
    requires Harmless(s) && MayMove(s, m)
    ensures Harmless(Step(s, m))
  {
    if m.Other? {
      InvStep(s.w, m.step);
      OnlyAcceptOpens(s.w, m.step);
      if Crowded(s.w) {
        CrowdedStep(s.w, m.step);
      }
    } else {
      assert CloseNumber(s.w, s.fd) == s.w;
    }
  }

  lemma {:induction false} HarmlessHolds(s: State, ms: seq<Move>)
    requires Harmless(s) && AreMoves(s, ms)
    ensures MembersOpen(Moved(s, ms).w)
    decreases ms
  {
    if ms == [] {
      assert forall i :: 0 <= i < |s.w.conns| ==> s.w.conns[i] in s.w.conns;
    } else {
      HarmlessStep(s, ms[0]);
      HarmlessHolds(Step(s, ms[0]), ms[1..]);
    }
  }

  // ----- when it is not

  lemma HarmComesLater(s: State, m: Move)
    requires MayMove(s, m) && !NobodyLoses(Step(s, m))
    ensures !NobodyLoses(s)
  {
    var ms :| AreMoves(Step(s, m), ms) && !MembersOpen(Moved(Step(s, m), ms).w);
    assert ([m] + ms)[1..] == ms;
    assert AreMoves(s, [m] + ms) && Moved(s, [m] + ms) == Moved(Step(s, m), ms);
  }

  /** The destructor waits, and the number is free. */
  ghost predicate Waits(s: State) {
    Inv(s.w) && s.phase.Joining? && s.fd !in s.w.fds
  }

  /** What the others can do while the destructor waits comes first. */
  lemma {:induction false} HarmComesAfter(s: State, ls: seq<Label>)
    requires s.phase.Joining? && IsRunOf(s.w, ls) && Served(ls)
    requires !NobodyLoses(s.(w := Exec(s.w, ls)))
    ensures !NobodyLoses(s)
    decreases ls
  {
    if ls != [] {
      assert ls[0] in ls && forall l :: l in ls[1..] ==> l in ls;
      HarmComesAfter(Step(s, Other(ls[0])), ls[1..]);
      HarmComesLater(s, Other(ls[0]));
    }
  }

  /** With room in the table, another listener may admit a client on that number: it is closed under it. */
  lemma RoomIsHarmful(s: State, a: nat)
    requires Waits(s) && a in s.listeners && a != s.self && s.self !in s.w.starting && a !in s.w.starting
    requires |s.w.conns| < s.w.max
    ensures !NobodyLoses(s)
  {
    var accept := Other(Accept(a, BaseStream, s.fd, true, false));
    var s1 := Step(s, accept);
    assert s1.w.conns[|s.w.conns|] == |s.w.objs| && s1.w.objs[|s.w.objs|].fd == s.fd;
    var s2 := Step(s1, JoinReturns);
    assert !MembersOpen(s2.w);
    assert AreMoves(s2, []) && Moved(s2, []) == s2;
    HarmComesLater(s1, JoinReturns);
    HarmComesLater(s, accept);
  }

  /** Otherwise a member that has a coroutine leaves first, which makes room. */
  lemma UncrowdedIsHarmful(s: State, a: nat)
    requires Waits(s) && a in s.listeners && a != s.self && s.self !in s.w.starting && a !in s.w.starting
    requires !Crowded(s.w)
    ensures !NobodyLoses(s)
  {
    if |s.w.conns| < s.w.max {
      RoomIsHarmful(s, a);
    } else {
      var c := UnstuckMember(s.w);
      var ls := MemberLeaves(s.w, c);
      ServedRun(s.w, ls);
      FewerMembers(s.w, Exec(s.w, ls), c);
      RoomIsHarmful(s.(w := Exec(s.w, ls)), a);
      HarmComesAfter(s, ls);
    }
  }

  lemma FewerMembers(w: World, v: World, c: nat)
    requires Inv(w) && Inv(v) && Shrinks(w, v) && c in w.conns && c !in v.conns
    ensures |v.conns| < v.max
  {
    MembersCount(w.conns);
    MembersCount(v.conns);
    SubsetSize(Members(v.conns), Members(w.conns) - {c});
  }

  lemma UnstuckMember(w: World) returns (c: nat)
    requires Inv(w) && !Crowded(w) && |w.conns| >= w.max
    ensures c in w.conns && w.objs[c].pc.Some?
  {
    MembersCount(w.conns);
    if Members(w.conns) <= Stuck(w) {
      SubsetSize(Members(w.conns), Stuck(w));
    }
    c :| c in Members(w.conns) && c !in Stuck(w);
  }

  lemma StaysUncrowded(w: World, v: World)
    requires Inv(w) && Inv(v) && Shrinks(w, v) && !Crowded(w)
    ensures !Crowded(v)
  {
    forall c | c in Stuck(v)
      ensures c in Stuck(w)
    {
      assert c in w.conns;
    }
    SubsetSize(Stuck(v), Stuck(w));
  }

  /** Both coroutines, that of the listener and that of the other one, first come out of start(). */
  lemma OtherListenerIsHarmful(s: State, a: nat)
    requires Waits(s) && a in s.listeners && a != s.self && !Crowded(s.w)
    ensures !NobodyLoses(s)
  {
    var ls := StartEnds(s.w, s.self);
    ServedRun(s.w, ls);
    var w1 := Exec(s.w, ls);
    StaysUncrowded(s.w, w1);
    var ms := StartEnds(w1, a);
    ServedRun(w1, ms);
    var w2 := Exec(w1, ms);
    StaysUncrowded(w1, w2);
    UncrowdedIsHarmful(s.(w := w2), a);
    HarmComesAfter(s.(w := w1), ms);
    HarmComesAfter(s, ls);
  }

  /**
   Destroying a listener can never cost a client its descriptor exactly when the listener never got a
   coroutine, so that nobody runs between the two closes, or when the table is full of connections that
   have none and so never leave it, or when there is no other listener to accept a client. Otherwise
   some run closes a member's descriptor.
   */
  lemma {:induction false} DestructorIsSafeIff(w: World, self: nat, listeners: set<nat>, fd: int, thread: bool)
    requires Inv(w) && fd !in w.fds && (self in w.starting ==> thread)
    ensures NobodyLoses(State(w, self, listeners, fd, Listening(thread)))
       <==> !thread || Crowded(w) || listeners <= {self}
  {
    var s := State(w, self, listeners, fd, Listening(thread));
    if !thread || Crowded(w) || listeners <= {self} {
      forall ms | AreMoves(s, ms)
        ensures MembersOpen(Moved(s, ms).w)
      {
        HarmlessHolds(s, ms);
      }
    } else {
      var a :| a in listeners && a != self;
      assert CloseNumber(w, fd) == w;
      OtherListenerIsHarmful(Step(s, Destroy), a);
      HarmComesLater(s, Destroy);
    }
  }
}
