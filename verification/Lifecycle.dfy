/**
 A joinable SrsThread and its owner (src/base/app_thread.cpp:59-164), over every interleaving.

 The owner calls start() and stop() in any order and any number of times. Between any two control
 points of the owner and of its children, anybody may call stop_loop(). Context switches happen
 only at st_usleep, at st_thread_join and inside callbacks; st_thread_create only makes the child
 runnable, and every join succeeds once the child has exited.
 */
module Lifecycle {
  import opened Base
  import opened Thread
  import Context

  /** A child: the control point where it waits, and the steps that brought it there. */
  datatype Child = Child(pc: Pc, past: seq<Step>)

  datatype Owner = Idle | InStart | InStop(child: nat)

  datatype State = State(f: Fields, children: seq<Child>, owner: Owner)

  const INITIAL := State(NEW_THREAD, [], Idle)

  datatype Label =
    | CallStart(create: bool)                  // the owner calls start(); st_thread_create may fail
    | WakeStart                                // st_usleep in start() returns
    | CallStop                                 // the owner calls stop()
    | Joined                                   // st_thread_join in stop() returns
    | Schedule(child: nat, code: int, id: int) // a child is scheduled
    | StopLoop                                 // anybody calls stop_loop()

  predicate Enabled(s: State, l: Label) {
    match l
    case CallStart(_) => s.owner.Idle?
    case WakeStart => s.owner.InStart?
    case CallStop => s.owner.Idle?
    case Joined => s.owner.InStop? && s.owner.child < |s.children| && s.children[s.owner.child].pc.Exited?
    case Schedule(k, _, id) => k < |s.children| && !s.children[k].pc.Exited? && id >= Context.FIRST_ID
    case StopLoop => true
  }

  function OwnerAfter(r: StartResult): Owner {
    if r.Asleep? then InStart else Idle
  }

  /** The child goes on from its control point; a fresh one first sets the thread's cid. */
  function RunChild(s: State, k: nat, code: int, id: int): State
    requires k < |s.children|
  {
    var c := s.children[k];
    var step := Step(c.pc, code, s.f.loop, s.f.canRun);
    s.(f := if c.pc.Fresh? then s.f.(cid := id) else s.f,
       children := s.children[k := Child(After(step), c.past + [step])])
  }

  function Apply(s: State, l: Label): State
    requires Enabled(s, l)
  {
    match l
    case CallStart(create) =>
      var (f, r) := BeginStart(s.f, if create then Some(|s.children|) else None);
      State(f, if f.tid != s.f.tid then s.children + [Child(Fresh, [])] else s.children, OwnerAfter(r))
    case WakeStart =>
      var (f, r) := PollStart(s.f);
      s.(f := f, owner := OwnerAfter(r))
    case CallStop => if s.f.tid.Some? then s.(f := s.f.(loop := false), owner := InStop(s.f.tid.value)) else s
    case Joined => s.(f := s.f.(tid := None), owner := Idle)
    case Schedule(k, code, id) => RunChild(s, k, code, id)
    case StopLoop => s.(f := s.f.(loop := false))
  }

  predicate IsRunOf(s: State, ls: seq<Label>)
    decreases ls
  {
    ls == [] || (Enabled(s, ls[0]) && IsRunOf(Apply(s, ls[0]), ls[1..]))
  }

  function Exec(s: State, ls: seq<Label>): State
    requires IsRunOf(s, ls)
    decreases ls
  {
    if ls == [] then s else Exec(Apply(s, ls[0]), ls[1..])
  }

  // ----- the invariant

  predicate ChildInv(c: Child) {
    && IsRun(c.past)
    && c.pc == if c.past == [] then Fresh else After(c.past[|c.past| - 1])
  }

  /** The flags that the child saw last, compared with the flags now. */
  predicate FlagsInv(c: Child, f: Fields) {
    c.past != [] ==>
      && (f.loop ==> c.past[|c.past| - 1].loop)
      && (c.past[|c.past| - 1].canRun ==> f.canRun)
  }

  ghost predicate Inv(s: State) {
    && (forall k :: 0 <= k < |s.children| ==> ChildInv(s.children[k]))
    && (s.f.cid < 0 || s.f.cid >= Context.FIRST_ID)
    && (s.owner.Idle? || s.f.tid.Some?)
    && match s.f.tid
       case None => forall k :: 0 <= k < |s.children| ==> s.children[k].pc.Exited?
       case Some(t) =>
         && t + 1 == |s.children|
         && (forall k :: 0 <= k < t ==> s.children[k].pc.Exited?)
         && FlagsInv(s.children[t], s.f)
         && (s.owner.InStop? ==> s.owner.child == t && !s.f.loop)
  }

  /** What the first start() adds: until the child has run there is no cid, and can_run waits for the return. */
  predicate FirstInv(s: State) {
    && (s.children == [] ==> s.f.cid < 0 && !s.f.canRun)
    && (|s.children| == 1 && s.owner.InStart? ==> !s.f.canRun)
    && (|s.children| == 1 && s.children[0].pc.Fresh? ==> s.f.cid < 0)
    && (|s.children| == 1 && s.owner.Idle? ==> s.f.cid >= Context.FIRST_ID || !s.f.loop)
  }

  lemma InvStep(s: State, l: Label)
    requires Inv(s) && Enabled(s, l)
    ensures Inv(Apply(s, l))
  {
    match l
    case Schedule(k, code, id) => ChildStep(s, k, code, id);
    case _ =>
  }

  lemma ChildStep(s: State, k: nat, code: int, id: int)
    requires Inv(s) && Enabled(s, Schedule(k, code, id))
    ensures Inv(RunChild(s, k, code, id))
  {
    var c := s.children[k];
    var step := Step(c.pc, code, s.f.loop, s.f.canRun);
    assert (c.past + [step])[..|c.past|] == c.past;
    assert s.f.tid == Some(k);
  }

  lemma FirstInvStep(s: State, l: Label)
    requires Inv(s) && FirstInv(s) && Enabled(s, l)
    ensures FirstInv(Apply(s, l))
  {
  }

  lemma {:induction false} InvHolds(s: State, ls: seq<Label>)
    requires Inv(s) && FirstInv(s) && IsRunOf(s, ls)
    ensures Inv(Exec(s, ls)) && FirstInv(Exec(s, ls))
    decreases ls
  {
    if ls != [] {
      InvStep(s, ls[0]);
      FirstInvStep(s, ls[0]);
      InvHolds(Apply(s, ls[0]), ls[1..]);
    }
  }

  // ----- the results, for every run from a new thread

  /** However start() and stop() alternate, at most one child is alive. */
  lemma {:induction false} AtMostOneChildAlive(ls: seq<Label>, i: nat, j: nat)
    requires IsRunOf(INITIAL, ls)
    requires i < |Exec(INITIAL, ls).children| && j < |Exec(INITIAL, ls).children|
    requires !Exec(INITIAL, ls).children[i].pc.Exited? && !Exec(INITIAL, ls).children[j].pc.Exited?
    ensures i == j
  {
    InvHolds(INITIAL, ls);
  }

  /** A child inside an iteration has seen can_run. */
  lemma InRoundMeansReleased(s: State, k: nat)
    requires Inv(s) && k < |s.children| && InRound(s.children[k].pc)
    ensures s.f.canRun
  {
    var p := s.children[k].past;
    if InRound(p[|p| - 1].pc) {
      NoRoundBeforeRelease(p, |p| - 1);
      StepFollows(p, |p| - 1);
    }
  }

  /**
   The handshake of the first start(). While the owner is still inside start(), the child is in no
   iteration. When start() has returned, the child has set a cid of at least 100, or the loop was
   stopped. No iteration ever begins before the owner set can_run.
   */
  lemma {:induction false} FirstStartHandshake(ls: seq<Label>)
    requires IsRunOf(INITIAL, ls) && |Exec(INITIAL, ls).children| == 1
    ensures var s := Exec(INITIAL, ls);
            && (InRound(s.children[0].pc) ==> s.f.canRun)
            && (s.owner.InStart? ==> !InRound(s.children[0].pc))
            && (s.owner.Idle? ==> s.f.cid >= 100 || !s.f.loop)
            && (s.f.cid >= 100 ==> !s.children[0].pc.Fresh?)
  {
    InvHolds(INITIAL, ls);
    var s := Exec(INITIAL, ls);
    if InRound(s.children[0].pc) {
      InRoundMeansReleased(s, 0);
    }
  }

  /** As long as there is no cid, no child has run. */
  predicate CidInv(s: State) {
    s.f.cid < 0 ==> forall k :: 0 <= k < |s.children| ==> s.children[k].pc.Fresh?
  }

  lemma {:induction false} CidInvHolds(s: State, ls: seq<Label>)
    requires CidInv(s) && IsRunOf(s, ls)
    ensures CidInv(Exec(s, ls))
    decreases ls
  {
    if ls != [] {
      CidInvHolds(Apply(s, ls[0]), ls[1..]);
    }
  }

  /**
   start() waits for its child only the first time. In every state that a new thread can come to,
   a call that creates a child goes to sleep exactly when no child was ever created before;
   otherwise it returns at once, with can_run set.
   */
  lemma {:induction false} StartWaitsIff(ls: seq<Label>)
    requires IsRunOf(INITIAL, ls)
    requires Exec(INITIAL, ls).owner.Idle? && Exec(INITIAL, ls).f.tid.None?
    ensures var s := Exec(INITIAL, ls);
            var t := Apply(s, CallStart(true));
            && (t.owner.InStart? <==> s.children == [])
            && (t.owner.Idle? <==> s.children != [])
            && (t.owner.Idle? ==> t.f.canRun && t.f.loop)
  {
    InvHolds(INITIAL, ls);
    CidInvHolds(INITIAL, ls);
    var s := Exec(INITIAL, ls);
    if s.children != [] {
      assert s.children[0].pc.Exited?;
    }
  }

  /** So a second start() returns, with the loop running, while its child has not run at all. */
  lemma RestartSkipsHandshake()
    ensures exists ls :: IsRunOf(INITIAL, ls) && RestartedEarly(Exec(INITIAL, ls))
  {
    var steps := [Step(Fresh, 0, true, false), Step(OnStart, 0, false, true), Step(OnStop, 0, false, true)];
    var s1 := State(Fields(Some(0), -1, true, false), [Child(Fresh, [])], InStart);
    var s2 := State(Fields(Some(0), 100, true, false), [Child(OnStart, steps[..1])], InStart);
    var s3 := State(Fields(Some(0), 100, true, true), [Child(OnStart, steps[..1])], Idle);
    var s4 := State(Fields(Some(0), 100, false, true), [Child(OnStart, steps[..1])], InStop(0));
    var s5 := State(Fields(Some(0), 100, false, true), [Child(OnStop, steps[..2])], InStop(0));
    var s6 := State(Fields(Some(0), 100, false, true), [Child(Exited, steps)], InStop(0));
    var s7 := State(Fields(None, 100, false, true), [Child(Exited, steps)], Idle);
    var s8 := State(Fields(Some(1), 100, true, true), [Child(Exited, steps), Child(Fresh, [])], Idle);
    assert [] + [steps[0]] == steps[..1] && steps[..1] + [steps[1]] == steps[..2] && steps[..2] + [steps[2]] == steps;
    var r8 := Prepend(s7, CallStart(true), s8, []);
    var r7 := Prepend(s6, Joined, s7, r8);
    var r6 := Prepend(s5, Schedule(0, 0, 100), s6, r7);
    var r5 := Prepend(s4, Schedule(0, 0, 100), s5, r6);
    var r4 := Prepend(s3, CallStop, s4, r5);
    var r3 := Prepend(s2, WakeStart, s3, r4);
    var r2 := Prepend(s1, Schedule(0, 0, 100), s2, r3);
    var r1 := Prepend(INITIAL, CallStart(true), s1, r2);
    assert RestartedEarly(s8);
  }

  predicate RestartedEarly(s: State) {
    s.owner.Idle? && s.f.loop && s.f.canRun && |s.children| == 2 && s.children[1].pc.Fresh?
  }

  lemma Prepend(s: State, l: Label, t: State, ls: seq<Label>) returns (ms: seq<Label>)
    requires Enabled(s, l) && Apply(s, l) == t && IsRunOf(t, ls)
    ensures IsRunOf(s, ms) && Exec(s, ms) == Exec(t, ls)
  {
    ms := [l] + ls;
    assert ms[1..] == ls;
  }

  /** The callbacks of every child, at every moment, have the shape of TraceShape. */
  lemma {:induction false} EveryChildKeepsTheShape(ls: seq<Label>, k: nat)
    requires IsRunOf(INITIAL, ls) && k < |Exec(INITIAL, ls).children|
    requires |Exec(INITIAL, ls).children[k].past| >= 2
    ensures var p := Exec(INITIAL, ls).children[k].past;
            Trace(p) == [Callback.Start] + (Shapes(Rounds(p)) + Tail(p[|p| - 1]))
  {
    InvHolds(INITIAL, ls);
    TraceShape(Exec(INITIAL, ls).children[k].past);
  }

  /**
   After stop() there is no thread; each child ever started has exited, with exactly one
   on_thread_stop; and another stop() changes nothing.
   */
  lemma {:induction false} AfterStop(ls: seq<Label>)
    requires IsRunOf(INITIAL, ls) && Enabled(Exec(INITIAL, ls), Joined)
    ensures var s := Apply(Exec(INITIAL, ls), Joined);
            && s.f.tid.None?
            && (forall k :: 0 <= k < |s.children| ==> ExitedOnce(s.children[k]))
            && Enabled(s, CallStop) && Apply(s, CallStop) == s
  {
    InvHolds(INITIAL, ls);
    JoinedState(Exec(INITIAL, ls));
  }

  predicate ExitedOnce(c: Child) {
    c.pc.Exited? && multiset(Trace(c.past))[Callback.Stop] == 1
  }

  lemma JoinedState(s: State)
    requires Inv(s) && Enabled(s, Joined)
    ensures var t := Apply(s, Joined);
            && t.f.tid.None?
            && (forall k :: 0 <= k < |t.children| ==> ExitedOnce(t.children[k]))
            && Enabled(t, CallStop) && Apply(t, CallStop) == t
  {
    forall k | 0 <= k < |s.children|
      ensures ExitedOnce(s.children[k])
    {
      ExitedChildStoppedOnce(s.children[k]);
    }
  }

  lemma ExitedChildStoppedOnce(c: Child)
    requires ChildInv(c) && c.pc.Exited?
    ensures ExitedOnce(c)
  {
    StopCount(c.past);
    TailStops(c.past[|c.past| - 1]);
  }

  /** How often child `k` is scheduled in a run. */
  function Turns(ls: seq<Label>, k: nat): nat {
    if ls == [] then 0
    else (if ls[0].Schedule? && ls[0].child == k then 1 else 0) + Turns(ls[1..], k)
  }

  /**
   Once `loop` is cleared, by stop() or by stop_loop(), it stays so until a join, and each time the
   child is scheduled its rank falls: a child whose callbacks return exits after at most Rank turns.
   Until it has exited it can be scheduled.
   */
  lemma {:induction false} ClearedLoopForcesExit(s: State, ls: seq<Label>)
    requires Inv(s) && s.f.tid.Some? && !s.f.loop && IsRunOf(s, ls) && Joined !in ls
    ensures var (t, k) := (Exec(s, ls), s.f.tid.value);
            && t.f.tid == s.f.tid && !t.f.loop && k < |s.children| == |t.children|
            && Turns(ls, k) + Rank(t.children[k].pc) <= Rank(s.children[k].pc)
            && (forall code :: t.children[k].pc.Exited? || Enabled(t, Schedule(k, code, Context.FIRST_ID)))
    decreases ls
  {
    if ls != [] {
      assert ls[0] in ls;
      InvStep(s, ls[0]);
      if ls[0].Schedule? {
        RankDecreases(s.children[s.f.tid.value].pc, ls[0].code, s.f.canRun);
      }
      assert Joined !in ls[1..];
      ClearedLoopForcesExit(Apply(s, ls[0]), ls[1..]);
    }
  }
}
