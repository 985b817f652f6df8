/**
 SrsThread (src/base/app_thread.h, src/base/app_thread.cpp).

 The class has the fields of the source. thread_cycle is given twice: as the loop of the source,
 run against an arbitrary environment, and as the function Next, which says where a child goes
 when it is resumed at a control point. The loop is proved to follow Next; the interleaving
 machines of Lifecycle.dfy and World.dfy move their children by Next.
 */
module Thread {
  import opened Base

  const ERROR_ST_CREATE_CYCLE_THREAD := 1017

  /** Where a child can lose the processor: inside a callback, in st_usleep, before and after its run. */
  datatype Pc =
    | Fresh     // created, never scheduled
    | OnStart   // in on_thread_start
    | WaitRun   // asleep, waiting for can_run
    | Before    // in on_before_cycle
    | Cycling   // in cycle
    | Ending    // in on_end_cycle
    | Nap       // asleep between two iterations
    | OnStop    // in on_thread_stop
    | Exited

  /** The test that follows the `failed` label. */
  function AfterRound(loop: bool): Pc {
    if loop then Nap else OnStop
  }

  function AtLoop(loop: bool): Pc {
    if loop then Before else OnStop
  }

  /** Where a child that is resumed at `pc` goes; `code` is what the callback returned. */
  function Next(pc: Pc, code: int, loop: bool, canRun: bool): Pc {
    match pc
    case Fresh => OnStart
    case OnStart | WaitRun => if !canRun && loop then WaitRun else AtLoop(loop)
    case Before => if code != ERROR_SUCCESS then AfterRound(loop) else Cycling
    case Cycling => if code != ERROR_SUCCESS then AfterRound(loop) else Ending
    case Ending => AfterRound(loop)
    case Nap => AtLoop(loop)
    case OnStop | Exited => Exited
  }

  /** One resumption: the control point, the callback's return code, and the fields the child then saw. */
  datatype Step = Step(pc: Pc, code: int, loop: bool, canRun: bool)

  function After(s: Step): Pc {
    Next(s.pc, s.code, s.loop, s.canRun)
  }

  /** A run of one child: each step is where the step before it led, and flags change only one way. */
  predicate IsRun(p: seq<Step>) {
    p != [] ==>
      && p[|p| - 1].pc != Exited
      && if |p| == 1 then p[0].pc == Fresh else IsRun(p[..|p| - 1]) && Follows(p[|p| - 2], p[|p| - 1])
  }

  predicate Follows(s: Step, t: Step) {
    && t.pc == After(s)
    && (t.loop ==> s.loop)
    && (s.canRun ==> t.canRun)
  }

  /** The fields of an SrsThread object. */
  datatype Fields = Fields(tid: Option<nat>, cid: int, loop: bool, canRun: bool)

  const NEW_THREAD := Fields(None, -1, false, false)

  datatype StartResult = Asleep | Returned(code: int)

  /** start() from its wait loop on */
  function PollStart(f: Fields): (Fields, StartResult) {
    if f.cid < 0 && f.loop then (f, Asleep) else (f.(canRun := true), Returned(ERROR_SUCCESS))
  }

  /** start() from the call to its first sleep or its return; `created` is what st_thread_create gave. */
  function BeginStart(f: Fields, created: Option<nat>): (Fields, StartResult) {
    if f.tid.Some? then (f, Returned(ERROR_SUCCESS))
    else if created.None? then (f, Returned(ERROR_ST_CREATE_CYCLE_THREAD))
    else PollStart(f.(tid := created, loop := true))
  }

  /** What happened around a child while it did not run: see ThreadCycle. */
  datatype Turn = Turn(code: int, stop: bool, release: bool)

  /** What the child sees at its next step, when the turn `e` has passed since the step `s`. */
  predicate Sees(s: Step, e: Turn, t: Step) {
    t.code == e.code && t.loop == (s.loop && !e.stop) && t.canRun == (s.canRun || e.release)
  }

  /** `p` is the run of a child whose n-th step comes after the turn `env[n - 1]`. */
  predicate Obeys(p: seq<Step>, env: seq<Turn>) {
    p != [] ==>
      && p[|p| - 1].pc != Exited
      && if |p| == 1 then p[0].pc == Fresh
         else
           && |p| - 2 < |env|
           && Obeys(p[..|p| - 1], env)
           && p[|p| - 1].pc == After(p[|p| - 2])
           && Sees(p[|p| - 2], env[|p| - 2], p[|p| - 1])
  }

  /** Such a run obeys the law that holds in every environment. */
  lemma {:induction false} ObeysIsRun(p: seq<Step>, env: seq<Turn>)
    requires Obeys(p, env)
    ensures IsRun(p)
  {
    if |p| > 1 {
      ObeysIsRun(p[..|p| - 1], env);
    }
  }

  lemma {:induction false} ObeysEverywhere(p: seq<Step>, env: seq<Turn>)
    requires Obeys(p, env)
    ensures |p| > 1 ==> |p| - 2 < |env|
    ensures forall n :: 0 < n < |p| ==> Sees(p[n - 1], env[n - 1], p[n])
  {
    if |p| > 1 {
      ObeysEverywhere(p[..|p| - 1], env);
    }
  }

  /** `p` ends with `s` and went as the environment says. */
  predicate Recorded(p: seq<Step>, s: Step, env: seq<Turn>) {
    p != [] && p[|p| - 1] == s && Obeys(p, env)
  }

  class SrsThread {
    var tid: Option<nat>
    var cid: int
    var loop: bool
    var canRun: bool

    ghost function View(): Fields
      reads this
    {
      Fields(tid, cid, loop, canRun)
    }

    constructor ()
      ensures View() == NEW_THREAD
    {
      tid, loop, cid, canRun := None, false, -1, false;
    }

    /** start(), up to its first st_usleep */
    method Start(created: Option<nat>) returns (r: StartResult)
      modifies this
      ensures (View(), r) == BeginStart(old(View()), created)
    {
      if tid.Some? {
        return Returned(ERROR_SUCCESS);
      }
      tid := created;
      if tid.None? {
        return Returned(ERROR_ST_CREATE_CYCLE_THREAD);
      }
      loop := true;
      r := ResumeStart();
    }

    /** start(), whenever its st_usleep returns */
    method ResumeStart() returns (r: StartResult)
      modifies this
      ensures (View(), r) == PollStart(old(View()))
    {
      if cid < 0 && loop {
        return Asleep;
      }
      canRun := true;
      r := Returned(ERROR_SUCCESS);
    }

    /** stop(), up to st_thread_join */
    method Stop() returns (joining: bool)
      modifies this
      ensures joining == old(tid).Some?
      ensures View() == if joining then old(View()).(loop := false) else old(View())
    {
      joining := tid.Some?;
      if joining {
        loop := false;
      }
    }

    /** stop(), after st_thread_join */
    method FinishStop()
      modifies this
      ensures View() == old(View()).(tid := None)
    {
      tid := None;
    }

    method StopLoop()
      modifies this
      ensures View() == old(View()).(loop := false)
    {
      loop := false;
    }

    /** The child comes back at `pc`, after others had their turn; the step is added to `p`. */
    method Resume(p: seq<Step>, pc: Pc, ghost s: Step, env: seq<Turn>) returns (q: seq<Step>, t: Step)
      requires Recorded(p, s, env) && After(s) == pc && pc != Exited && |p| <= |env|
      requires s.loop == loop && s.canRun == canRun
      modifies `loop, `canRun
      ensures Recorded(q, t, env) && |q| == |p| + 1 && q[0] == p[0]
      ensures t.pc == pc && t.loop == loop && t.canRun == canRun
      ensures loop == (old(loop) && !env[|p| - 1].stop)
    {
      var turn := env[|p| - 1];
      if turn.stop {
        loop := false;
      }
      if turn.release {
        canRun := true;
      }
      t := Step(pc, turn.code, loop, canRun);
      q := p + [t];
      assert q[..|p|] == p;
    }

    /**
     thread_cycle. The environment `env` fixes, for the n-th control point, the code that the
     callback returns and whether meanwhile somebody cleared `loop` or start() set `can_run`.
     All that termination needs is some moment `bound` at which `loop` is cleared; the child then
     passes at most three more control points. The result lists its steps.
     */
    method ThreadCycle(id: int, env: seq<Turn>, ghost bound: nat) returns (p: seq<Step>)
      requires bound + 4 <= |env| && env[bound].stop
      modifies `cid, `loop, `canRun
      ensures |p| >= 2 && p[|p| - 1].pc == OnStop
      ensures p[0] == Step(Fresh, 0, old(loop), old(canRun))
      ensures Obeys(p, env) && IsRun(p)
      ensures |p| - 2 < |env| && !p[|p| - 2].loop
      ensures forall n :: 0 < n < |p| ==>
                && p[n].code == env[n - 1].code
                && p[n].loop == (p[n - 1].loop && !env[n - 1].stop)
                && p[n].canRun == (p[n - 1].canRun || env[n - 1].release)
      ensures cid == id
    {
      var s := Step(Fresh, 0, loop, canRun);
      p := [s];
      cid := id;

      p, s := Resume(p, OnStart, s, env); // on_thread_start

      p, s := AwaitRelease(p, s, env, bound);

      p, s := RunRounds(p, s, env, bound);

      p, s := Resume(p, OnStop, s, env); // on_thread_stop
      ObeysIsRun(p, env);
      ObeysEverywhere(p, env);
      StopsOnlyWhenCleared(p, |p| - 1);
    }

    /** The loop in which the child waits for `can_run` */
    method AwaitRelease(before: seq<Step>, ghost last: Step, env: seq<Turn>, ghost bound: nat)
      returns (p: seq<Step>, s: Step)
      requires bound + 4 <= |env| && env[bound].stop && |before| == 2
      requires Recorded(before, last, env) && last.pc == OnStart
      requires last.loop == loop && last.canRun == canRun
      modifies `loop, `canRun
      ensures Recorded(p, s, env) && |p| >= 2 && p[0] == before[0]
      ensures s.loop == loop && s.canRun == canRun && After(s) == AtLoop(loop)
      ensures |p| <= bound + 4 && (loop ==> |p| <= bound + 1)
    {
      p, s := before, before[1];
      while !canRun && loop
        invariant Recorded(p, s, env) && |p| >= 2 && p[0] == before[0]
        invariant s.loop == loop && s.canRun == canRun
        invariant s.pc == OnStart || s.pc == WaitRun
        invariant |p| <= bound + 4 && (loop ==> |p| <= bound + 1)
        decreases bound + 2 - |p|
      {
        p, s := Resume(p, WaitRun, s, env); // st_usleep
      }
    }

    /** The main loop */
    method RunRounds(before: seq<Step>, last: Step, env: seq<Turn>, ghost bound: nat)
      returns (p: seq<Step>, s: Step)
      requires bound + 4 <= |env| && env[bound].stop && |before| <= bound + 4 && (loop ==> |before| <= bound + 1)
      requires Recorded(before, last, env) && After(last) == AtLoop(loop)
      requires last.loop == loop && last.canRun == canRun
      modifies `loop, `canRun
      ensures Recorded(p, s, env) && |p| >= |before| && p[0] == before[0]
      ensures s.loop == loop && s.canRun == canRun && After(s) == OnStop
      ensures |p| <= bound + 4
    {
      p, s := before, last;
      while loop
        invariant Recorded(p, s, env) && |p| >= |before| && p[0] == before[0]
        invariant s.loop == loop && s.canRun == canRun
        invariant After(s) == AtLoop(loop)
        invariant |p| <= bound + 4 && (loop ==> |p| <= bound + 1)
        decreases bound + 2 - |p|
      {
        p, s := OneRound(p, s, env, bound);
        // failed:
        if !loop {
          break;
        }
        p, s := Resume(p, Nap, s, env); // st_usleep
      }
    }

    /** The body of the main loop, up to the label `failed` */
    method OneRound(p: seq<Step>, ghost s: Step, env: seq<Turn>, ghost bound: nat)
      returns (q: seq<Step>, t: Step)
      requires bound + 4 <= |env| && env[bound].stop && |p| <= bound + 1
      requires Recorded(p, s, env) && After(s) == Before
      requires s.loop == loop && s.canRun == canRun
      modifies `loop, `canRun
      ensures Recorded(q, t, env) && |q| > |p| && q[0] == p[0]
      ensures t.loop == loop && t.canRun == canRun && After(t) == AfterRound(loop)
      ensures |q| <= bound + 4 && (loop ==> |q| <= bound + 1)
    {
      q, t := Resume(p, Before, s, env); // on_before_cycle
      assert |q| <= bound + 2 && (loop ==> |q| <= bound + 1);
      if t.code == ERROR_SUCCESS {
        q, t := Resume(q, Cycling, t, env); // cycle
        assert |q| <= bound + 3 && (loop ==> |q| <= bound + 1);
        if t.code == ERROR_SUCCESS {
          q, t := Resume(q, Ending, t, env); // on_end_cycle
        }
      }
    }
  }

  // ----- the callback trace of one run

  datatype Callback = Start | BeforeCycle(code: int) | Cycle(code: int) | EndCycle(code: int) | Stop

  /** The callback that a step completes, if it is not a sleep. */
  function CallbackOf(s: Step): seq<Callback> {
    match s.pc
    case OnStart => [Start]
    case Before => [BeforeCycle(s.code)]
    case Cycling => [Cycle(s.code)]
    case Ending => [EndCycle(s.code)]
    case OnStop => [Stop]
    case _ => []
  }

  function Trace(p: seq<Step>): seq<Callback> {
    if p == [] then [] else Trace(p[..|p| - 1]) + CallbackOf(p[|p| - 1])
  }

  /** The return codes of one iteration; those after the first failure do not matter. */
  datatype Round = Round(before: int, cycle: int, end: int)

  /** The return codes alone fix which callbacks an iteration makes. */
  function Shape(r: Round): seq<Callback> {
    if r.before != ERROR_SUCCESS then [BeforeCycle(r.before)]
    else if r.cycle != ERROR_SUCCESS then [BeforeCycle(r.before), Cycle(r.cycle)]
    else [BeforeCycle(r.before), Cycle(r.cycle), EndCycle(r.end)]
  }

  function Shapes(rs: seq<Round>): seq<Callback> {
    if rs == [] then [] else Shapes(rs[..|rs| - 1]) + Shape(rs[|rs| - 1])
  }

  /** The iteration that a step completes, if it completes one. */
  function Done(s: Step): seq<Round> {
    match s.pc
    case Before => if s.code != ERROR_SUCCESS then [Round(s.code, 0, 0)] else []
    case Cycling => if s.code != ERROR_SUCCESS then [Round(ERROR_SUCCESS, s.code, 0)] else []
    case Ending => [Round(ERROR_SUCCESS, ERROR_SUCCESS, s.code)]
    case _ => []
  }

  function Rounds(p: seq<Step>): seq<Round> {
    if p == [] then [] else Rounds(p[..|p| - 1]) + Done(p[|p| - 1])
  }

  /** What follows the completed iterations of a run that ends with `s`: a begun one, or the stop. */
  function Tail(s: Step): seq<Callback> {
    if s.pc.Before? && s.code == ERROR_SUCCESS then [BeforeCycle(ERROR_SUCCESS)]
    else if s.pc.Cycling? && s.code == ERROR_SUCCESS then [BeforeCycle(ERROR_SUCCESS), Cycle(ERROR_SUCCESS)]
    else if s.pc.OnStop? then [Stop]
    else []
  }

  function DoneShape(s: Step): seq<Callback> {
    if Done(s) == [] then [] else Shape(Done(s)[0])
  }

  lemma ShapesAppend(rs: seq<Round>, s: Step)
    ensures Shapes(rs + Done(s)) == Shapes(rs) + DoneShape(s)
  {
    if Done(s) == [] {
      assert rs + Done(s) == rs;
    } else {
      assert (rs + Done(s))[..|rs|] == rs;
    }
  }

  lemma TailAppend(prev: Step, s: Step)
    requires Follows(prev, s) && !prev.pc.Fresh? && s.pc != Exited
    ensures Tail(prev) + CallbackOf(s) == DoneShape(s) + Tail(s)
  {
  }

  /**
   The callbacks of any run are: start, then completed iterations whose shape the return codes
   fix, then what one more iteration made so far, or the stop. A finished run ends with the stop.
   */
  lemma {:induction false} TraceShape(p: seq<Step>)
    requires IsRun(p) && |p| >= 2
    ensures Trace(p) == [Start] + (Shapes(Rounds(p)) + Tail(p[|p| - 1]))
    ensures Tail(p[|p| - 1]) == [Stop] <==> After(p[|p| - 1]) == Exited
  {
    TailStops(p[|p| - 1]);
    if |p| == 2 {
      ShortRun(p);
    } else {
      var before, s := p[..|p| - 1], p[|p| - 1];
      assert Trace(p) == Trace(before) + CallbackOf(s);
      assert Rounds(p) == Rounds(before) + Done(s);
      assert Trace(before) == [Start] + (Shapes(Rounds(before)) + Tail(p[|p| - 2])) by {
        TraceShape(before);
      }
      assert Tail(p[|p| - 2]) + CallbackOf(s) == DoneShape(s) + Tail(s) by {
        StepFollows(p, |p| - 2);
        TailAppend(p[|p| - 2], s);
      }
      TraceStep(Trace(before), Rounds(before), Tail(p[|p| - 2]), s);
    }
  }

  lemma TailStops(s: Step)
    ensures Tail(s) == [Stop] <==> s.pc.OnStop?
    ensures s.pc != Exited ==> (After(s) == Exited <==> s.pc.OnStop?)
  {
  }

  lemma TraceStep(trace: seq<Callback>, rs: seq<Round>, tail: seq<Callback>, s: Step)
    requires trace == [Start] + (Shapes(rs) + tail)
    requires tail + CallbackOf(s) == DoneShape(s) + Tail(s)
    ensures trace + CallbackOf(s) == [Start] + (Shapes(rs + Done(s)) + Tail(s))
  {
    ShapesAppend(rs, s);
    Regroup([Start], Shapes(rs), tail, CallbackOf(s), DoneShape(s), Tail(s));
  }

  lemma Regroup<T>(a: seq<T>, b: seq<T>, c: seq<T>, d: seq<T>, e: seq<T>, f: seq<T>)
    requires c + d == e + f
    ensures (a + (b + c)) + d == a + ((b + e) + f)
  {
    assert (a + (b + c)) + d == a + (b + (c + d));
    assert a + ((b + e) + f) == a + (b + (e + f));
  }

  lemma ShortRun(p: seq<Step>)
    requires IsRun(p) && |p| == 2
    ensures Trace(p) == [Start] + (Shapes(Rounds(p)) + Tail(p[1]))
  {
    FirstIsFresh(p);
    StepFollows(p, 1);
    var first := p[..1];
    assert first[..0] == [] && first[0].pc == Fresh;
    assert Trace(first) == [] by {
      assert Trace(first[..0]) == [];
    }
    assert Rounds(first) == [] by {
      assert Rounds(first[..0]) == [];
    }
  }

  lemma {:induction false} StopCount(p: seq<Step>)
    requires IsRun(p)
    ensures multiset(Trace(p))[Stop] == if p != [] && p[|p| - 1].pc.OnStop? then 1 else 0
  {
    if |p| >= 2 {
      StopCount(p[..|p| - 1]);
      assert multiset(CallbackOf(p[|p| - 1]))[Stop] == if p[|p| - 1].pc.OnStop? then 1 else 0;
    } else if |p| == 1 {
      assert Trace(p[..0]) == [];
    }
  }

  // ----- what the flags guarantee

  lemma {:induction false} FlagsFlow(p: seq<Step>, i: nat, j: nat)
    requires IsRun(p) && i <= j < |p|
    ensures p[j].loop ==> p[i].loop
    ensures p[i].canRun ==> p[j].canRun
  {
    if j < |p| - 1 {
      FlagsFlow(p[..|p| - 1], i, j);
    } else if i < j {
      FlagsFlow(p[..|p| - 1], i, j - 1);
    }
  }

  lemma {:induction false} StepFollows(p: seq<Step>, j: nat)
    requires IsRun(p) && 0 < j < |p|
    ensures Follows(p[j - 1], p[j])
  {
    if j < |p| - 1 {
      StepFollows(p[..|p| - 1], j);
    }
  }

  /** Once the child has seen `loop` false, it begins no further iteration. */
  lemma {:induction false} NoRoundOnceStopped(p: seq<Step>, i: nat, j: nat)
    requires IsRun(p) && i < j < |p| && !p[i].loop
    ensures !p[j].pc.Before? && !p[j].pc.Nap?
  {
    FlagsFlow(p, i, j - 1);
    StepFollows(p, j);
  }

  /** on_thread_stop is reached only from a control point at which `loop` was false: nobody quits early. */
  lemma {:induction false} StopsOnlyWhenCleared(p: seq<Step>, j: nat)
    requires IsRun(p) && j < |p| && p[j].pc.OnStop?
    ensures j > 0 && !p[j - 1].loop
  {
    FirstIsFresh(p);
    StepFollows(p, j);
  }

  /** The step ends an iteration: a callback failed, or on_end_cycle has returned. */
  predicate EndsRound(s: Step) {
    ((s.pc.Before? || s.pc.Cycling?) && s.code != 0) || s.pc.Ending?
  }

  /**
   After an iteration, failed or not, a child whose loop still runs sleeps once and then, unless the loop
   is cleared meanwhile, begins the next one. A callback that succeeds leads to the next callback.
   */
  lemma {:induction false} RoundsGoOn(p: seq<Step>, j: nat)
    requires IsRun(p) && j + 1 < |p|
    ensures EndsRound(p[j]) ==> if p[j].loop then p[j + 1].pc.Nap? else p[j + 1].pc.OnStop?
    ensures p[j].pc.Nap? ==> if p[j].loop then p[j + 1].pc.Before? else p[j + 1].pc.OnStop?
    ensures p[j].pc.Before? && p[j].code == 0 ==> p[j + 1].pc.Cycling?
    ensures p[j].pc.Cycling? && p[j].code == 0 ==> p[j + 1].pc.Ending?
  {
    StepFollows(p, j + 1);
  }

  /** The child first calls on_thread_start, then waits as long as it is neither released nor stopped. */
  lemma {:induction false} WaitsForRelease(p: seq<Step>, j: nat)
    requires IsRun(p) && j + 1 < |p|
    ensures j == 0 ==> p[1].pc.OnStart?
    ensures p[j].pc.OnStart? || p[j].pc.WaitRun? ==>
              if !p[j].loop then p[j + 1].pc.OnStop?
              else if p[j].canRun then p[j + 1].pc.Before?
              else p[j + 1].pc.WaitRun?
  {
    FirstIsFresh(p);
    StepFollows(p, j + 1);
  }

  /** What start() does to the fields, and what it returns, in each of its cases. */
  lemma StartOutcome(f: Fields, created: Option<nat>)
    ensures var (g, r) := BeginStart(f, created);
            && (f.tid.Some? ==> g == f && r == Returned(0))
            && (f.tid.None? && created.None? ==> g == f && r == Returned(1017))
            && (f.tid.None? && created.Some? ==>
                  && g.tid == created && g.loop && g.cid == f.cid
                  && (f.cid < 0 ==> r == Asleep && g.canRun == f.canRun)
                  && (f.cid >= 0 ==> r == Returned(0) && g.canRun))
  {
  }

  /** Each time start() wakes up, it goes back to sleep exactly while there is no cid and the loop runs. */
  lemma WakeOutcome(f: Fields)
    ensures var (g, r) := PollStart(f);
            && (r == Asleep <==> f.cid < 0 && f.loop)
            && (r == Asleep ==> g == f)
            && (r != Asleep ==> r == Returned(0) && g == f.(canRun := true))
  {
  }

  predicate InRound(pc: Pc) {
    pc.Before? || pc.Cycling? || pc.Ending? || pc.Nap?
  }

  /** No on_before_cycle, cycle or on_end_cycle is called before the child has seen `can_run`. */
  lemma {:induction false} NoRoundBeforeRelease(p: seq<Step>, j: nat)
    requires IsRun(p) && j < |p| && InRound(p[j].pc)
    ensures j > 0 && p[j - 1].canRun
    decreases j
  {
    FirstIsFresh(p);
    StepFollows(p, j);
    if InRound(p[j - 1].pc) {
      NoRoundBeforeRelease(p, j - 1);
      StepFollows(p, j - 1);
    }
  }

  lemma {:induction false} FirstIsFresh(p: seq<Step>)
    requires IsRun(p) && p != []
    ensures p[0].pc == Fresh
  {
    if |p| > 1 {
      FirstIsFresh(p[..|p| - 1]);
    }
  }

  /** How many steps a child can still make once `loop` is false. */
  function Rank(pc: Pc): nat {
    match pc
    case Fresh => 8
    case OnStart => 7
    case WaitRun => 6
    case Before => 5
    case Cycling => 4
    case Ending => 3
    case Nap => 2
    case OnStop => 1
    case Exited => 0
  }

  lemma RankDecreases(pc: Pc, code: int, canRun: bool)
    requires pc != Exited
    ensures Rank(Next(pc, code, false, canRun)) < Rank(pc)
  {
  }
}
