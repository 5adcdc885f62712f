/**
 The phase machine of the FirmAE pipeline under its threads: the caller of start and stop, the runner that monitors the
 process, and the timeout watchdog.  Every read of a phase followed by a write is two steps here, so the threads may
 interleave between them.
 */
module PipelinePhases {
  type SessionId = string

  datatype Phase = PENDING | EXTRACTING | DETECTING_ARCH | PREPARING_IMAGE | BOOTING | CHECKING | RUNNING
                 | FAILED | STOPPED | TIMEOUT

  function Order(p: Phase): nat {
    match p
    case PENDING => 0
    case EXTRACTING => 1
    case DETECTING_ARCH => 2
    case PREPARING_IMAGE => 3
    case BOOTING => 4
    case CHECKING => 5
    case RUNNING => 6
    case _ => 99
  }

  predicate IsTerminal(p: Phase) {
    p in {FAILED, STOPPED, TIMEOUT}
  }

  // ---------------------------------------------------------------- threads and steps

  /** Where the thread of one run is; `Decided` and `WillFail` sit between a comparison and its write. */
  datatype Runner =
    | NotBegun | Launching | Monitoring | Decided(next: Phase) | Exiting | WillFail(status: int) | Ended(code: int)

  datatype Watchdog = Off | Watching | Firing

  /** `stopping` counts the calls of stop that found the run live and have not yet written. */
  datatype Run = Run(session: SessionId, phase: Phase, runner: Runner, watchdog: Watchdog, stopping: nat)

  /** Every run ever created, oldest first, and the one registered for each session. */
  datatype System = System(runs: seq<Run>, sessions: map<SessionId, nat>)

  const EMPTY := System([], map[])

  datatype Event = Start(id: SessionId) | StopLooks(id: SessionId) | On(k: nat, step: RunStep)

  datatype RunStep =
    | Begin | ScriptMissing | Launched | Crash                       // the runner, up to and around the process
    | Compare(hit: Phase) | Write | OutputEnds                       // the runner, per output line
    | ExitLooks(code: int) | ExitWrites                              // the runner, after the process is gone
    | WatchdogLooks(late: bool) | WatchdogWrites
    | StopWrites

  function RunAfter(r: Run, e: RunStep): Run {
    match e
    case Begin => if r.runner.NotBegun? then r.(phase := EXTRACTING, runner := Launching) else r
    case ScriptMissing => if r.runner.Launching? then r.(phase := FAILED, runner := Ended(0)) else r
    case Launched => if r.runner.Launching? then r.(runner := Monitoring, watchdog := Watching) else r
    case Crash =>
      if r.runner.Launching? || r.runner.Monitoring? || r.runner.Exiting? then r.(phase := FAILED, runner := Ended(0))
        else r
    case Compare(hit) =>
      if r.runner.Monitoring? && !IsTerminal(hit) && Order(hit) > Order(r.phase) then r.(runner := Decided(hit)) else r
    case Write => if r.runner.Decided? then r.(phase := r.runner.next, runner := Monitoring) else r
    case OutputEnds => if r.runner.Monitoring? then r.(runner := Exiting) else r
    case ExitLooks(code) =>
      if !r.runner.Exiting? then r
      else if r.phase == RUNNING
      then if code != 0 && !IsTerminal(r.phase) then r.(runner := WillFail(code)) else r.(runner := Ended(code))
      else if !IsTerminal(r.phase) then r.(runner := WillFail(code))
      else r.(runner := Ended(code))
    case ExitWrites => if r.runner.WillFail? then r.(phase := FAILED, runner := Ended(r.runner.status)) else r
    case WatchdogLooks(late) =>
      if !r.watchdog.Watching? then r
      else if IsTerminal(r.phase) || r.phase == RUNNING || r.phase == CHECKING then r.(watchdog := Off)
      else if late then r.(watchdog := Firing)
      else r
    case WatchdogWrites => if r.watchdog.Firing? then r.(phase := TIMEOUT, watchdog := Off) else r
    case StopWrites => if r.stopping > 0 then r.(phase := STOPPED, stopping := r.stopping - 1) else r
  }

  predicate Registered(s: System, id: SessionId) {
    id in s.sessions && s.sessions[id] < |s.runs|
  }

  function Step(s: System, e: Event): System {
    match e
    case Start(id) =>
      if Registered(s, id) && !IsTerminal(s.runs[s.sessions[id]].phase) then s
      else System(s.runs + [Run(id, PENDING, NotBegun, Off, 0)], s.sessions[id := |s.runs|])
    case StopLooks(id) =>
      if !Registered(s, id) then s
      else
        var r := s.runs[s.sessions[id]];
        if IsTerminal(r.phase) then s else s.(runs := s.runs[s.sessions[id] := r.(stopping := r.stopping + 1)])
    case On(k, step) => if k < |s.runs| then s.(runs := s.runs[k := RunAfter(s.runs[k], step)]) else s
  }

  function After(s: System, es: seq<Event>): System
    decreases |es|
  {
    if es == [] then s else After(Step(s, es[0]), es[1..])
  }

  // ---------------------------------------------------------------- terminal phases and races

  /** The step brings a finished run back to life. */
  ghost predicate Revives(s: System, e: Event) {
    exists k :: 0 <= k < |s.runs| && IsTerminal(s.runs[k].phase) && !IsTerminal(Step(s, e).runs[k].phase)
  }

  /** The runner has a write in hand: the initial one, or one already decided by a comparison. */
  predicate Committed(r: Run) {
    r.runner.NotBegun? || r.runner.Decided?
  }

  /** The step ends a run from another thread while the run's own thread has a write in hand. */
  predicate Races(s: System, e: Event) {
    e.On? && e.k < |s.runs| && Committed(s.runs[e.k])
    && ((e.step.StopWrites? && s.runs[e.k].stopping > 0) || (e.step.WatchdogWrites? && s.runs[e.k].watchdog.Firing?))
  }

  ghost predicate RaceFree(s: System, es: seq<Event>)
    decreases |es|
  {
    es == [] || (!Races(s, es[0]) && RaceFree(Step(s, es[0]), es[1..]))
  }

  ghost predicate NeverRevives(s: System, es: seq<Event>)
    decreases |es|
  {
    es == [] || (!Revives(s, es[0]) && NeverRevives(Step(s, es[0]), es[1..]))
  }

  ghost predicate NeverBackward(s: System, es: seq<Event>)
    decreases |es|
  {
    es == [] || (Forward(s, Step(s, es[0])) && NeverBackward(Step(s, es[0]), es[1..]))
  }

  ghost predicate Forward(s: System, s': System) {
    |s.runs| <= |s'.runs| && forall k :: 0 <= k < |s.runs| ==> Order(s.runs[k].phase) <= Order(s'.runs[k].phase)
  }

  /** A run with a write in hand is live, and the write moves its phase forward. */
  predicate CalmRun(r: Run) {
    && (r.runner.NotBegun? ==> r.phase == PENDING)
    && (r.runner.Decided? ==> Order(r.phase) < Order(r.runner.next) < 99)
  }

  /** Only the registered run of a session can be live. */
  ghost predicate OneLive(s: System) {
    forall k :: 0 <= k < |s.runs| && !IsTerminal(s.runs[k].phase) ==>
      s.runs[k].session in s.sessions && s.sessions[s.runs[k].session] == k
  }

  ghost predicate Calm(s: System) {
    OneLive(s) && forall k :: 0 <= k < |s.runs| ==> CalmRun(s.runs[k])
  }

  /** A run whose thread has ended is over, unless the process left normally while the firmware was up. */
  predicate EndsProperly(r: Run) {
    r.runner.Ended? ==> IsTerminal(r.phase) || (r.phase == RUNNING && r.runner.code == 0)
  }

  lemma CalmStepOfRun(r: Run, e: RunStep)
    requires CalmRun(r)
    requires !(Committed(r) && ((e.StopWrites? && r.stopping > 0) || (e.WatchdogWrites? && r.watchdog.Firing?)))
    ensures CalmRun(RunAfter(r, e)) && Order(r.phase) <= Order(RunAfter(r, e).phase)
    ensures RunAfter(r, e).session == r.session
  {
  }

  lemma CalmStep(s: System, e: Event)
    requires Calm(s) && !Races(s, e)
    ensures Calm(Step(s, e)) && Forward(s, Step(s, e)) && !Revives(s, e)
  {
    if e.On? && e.k < |s.runs| {
      CalmStepOfRun(s.runs[e.k], e.step);
    }
  }

  /**
   Without a race, over any interleaving: phases only move forward, no finished run comes back, and no session ever has
   two live runs.
   */
  lemma {:induction false} RaceFreeRuns(s: System, es: seq<Event>)
    requires Calm(s) && RaceFree(s, es)
    ensures Calm(After(s, es)) && NeverRevives(s, es) && NeverBackward(s, es)
    decreases |es|
  {
    if es != [] {
      CalmStep(s, es[0]);
      RaceFreeRuns(Step(s, es[0]), es[1..]);
    }
  }

  lemma AtMostOneLiveRun(es: seq<Event>, j: nat, k: nat)
    requires RaceFree(EMPTY, es)
    requires var s := After(EMPTY, es);
      && j < |s.runs| && k < |s.runs| && s.runs[j].session == s.runs[k].session
      && !IsTerminal(s.runs[j].phase) && !IsTerminal(s.runs[k].phase)
    ensures j == k
  {
    RaceFreeRuns(EMPTY, es);
  }

  // ---------------------------------------------------------------- whole starts and whole compare-and-sets

  /**
   A start together with its thread's first write, one output line with its comparison and write, or any other step.
   */
  datatype Whole = StartAndBegin(id: SessionId) | ReadLine(k: nat, hit: Phase) | Other(e: Event)

  predicate IsPart(e: Event) {
    e.Start? || (e.On? && (e.step.Begin? || e.step.Compare? || e.step.Write?))
  }

  /** The steps a whole one is made of. */
  function Parts(s: System, w: Whole): seq<Event> {
    match w
    case StartAndBegin(id) => if |Step(s, Start(id)).runs| == |s.runs| then [Start(id)]
      else [Start(id), On(|s.runs|, Begin)]
    case ReadLine(k, hit) => [On(k, Compare(hit)), On(k, Write)]
    case Other(e) => if IsPart(e) then [] else [e]
  }

  function AllParts(s: System, ws: seq<Whole>): seq<Event>
    decreases |ws|
  {
    if ws == [] then [] else Parts(s, ws[0]) + AllParts(After(s, Parts(s, ws[0])), ws[1..])
  }

  /** No thread is between a comparison, or its start, and the write. */
  ghost predicate Settled(s: System) {
    forall k :: 0 <= k < |s.runs| ==> !Committed(s.runs[k])
  }

  lemma {:induction false} RaceFreeJoin(s: System, a: seq<Event>, b: seq<Event>)
    requires RaceFree(s, a) && RaceFree(After(s, a), b)
    ensures RaceFree(s, a + b) && After(s, a + b) == After(After(s, a), b)
    decreases |a|
  {
    hide Step, Races;
    if a == [] {
      assert a + b == b;
    } else {
      assert (a + b)[0] == a[0] && (a + b)[1..] == a[1..] + b;
      RaceFreeJoin(Step(s, a[0]), a[1..], b);
    }
  }

  lemma OneStep(s: System, e: Event)
    ensures After(s, [e]) == Step(s, e) && (RaceFree(s, [e]) <==> !Races(s, e))
  {
    hide Step, Races;
    assert [e][1..] == [];
  }

  lemma TwoSteps(s: System, e: Event, f: Event)
    ensures After(s, [e, f]) == Step(Step(s, e), f)
    ensures RaceFree(s, [e, f]) <==> !Races(s, e) && !Races(Step(s, e), f)
  {
    OneStep(Step(s, e), f);
    hide Step, Races;
    assert [e, f][1..] == [f];
  }

  lemma PartsSettle(s: System, w: Whole)
    requires Settled(s)
    ensures RaceFree(s, Parts(s, w)) && Settled(After(s, Parts(s, w)))
  {
    hide RaceFree, After;
    match w
    case StartAndBegin(id) =>
      OneStep(s, Start(id));
      TwoSteps(s, Start(id), On(|s.runs|, Begin));
    case ReadLine(k, hit) => TwoSteps(s, On(k, Compare(hit)), On(k, Write));
    case Other(e) =>
      if IsPart(e) {
        NoSteps(s);
      } else {
        OneStep(s, e);
      }
  }

  lemma NoSteps(s: System)
    ensures RaceFree(s, []) && After(s, []) == s
  {
  }

  lemma {:induction false} WholeStepsAreRaceFree(s: System, ws: seq<Whole>)
    requires Settled(s)
    ensures RaceFree(s, AllParts(s, ws))
    decreases |ws|
  {
    hide Step, Races, RaceFree, Parts, Settled, After;
    if ws == [] {
      NoSteps(s);
    } else {
      var parts := Parts(s, ws[0]);
      PartsSettle(s, ws[0]);
      WholeStepsAreRaceFree(After(s, parts), ws[1..]);
      RaceFreeJoin(s, parts, AllParts(After(s, parts), ws[1..]));
    }
  }

  /** With starts and compare-and-sets as single steps nothing is ever revived and no session has two live runs. */
  lemma WholeRunsAreCalm(ws: seq<Whole>)
    ensures var es := AllParts(EMPTY, ws); Calm(After(EMPTY, es)) && NeverRevives(EMPTY, es) && NeverBackward(EMPTY, es)
  {
    WholeStepsAreRaceFree(EMPTY, ws);
    hide AllParts;
    RaceFreeRuns(EMPTY, AllParts(EMPTY, ws));
  }

  // ---------------------------------------------------------------- a race always shows

  /** Steps that are not the write run `k` has in hand, and do not bring its thread down. */
  predicate LeavesWritePending(e: Event, k: nat) {
    e.On? && e.k == k ==> e.step in {StopWrites, WatchdogWrites, OutputEnds} || e.step.WatchdogLooks? || e.step.Compare?
  }

  ghost predicate DoomedRun(s: System, k: nat) {
    k < |s.runs| && IsTerminal(s.runs[k].phase) && Committed(s.runs[k])
    && (s.runs[k].runner.Decided? ==> !IsTerminal(s.runs[k].runner.next))
  }

  lemma {:induction false} DoomedStays(s: System, es: seq<Event>, k: nat)
    requires DoomedRun(s, k) && forall e :: e in es ==> LeavesWritePending(e, k)
    ensures DoomedRun(After(s, es), k) && After(s, es).runs[k].runner == s.runs[k].runner
    decreases |es|
  {
    if es != [] {
      assert LeavesWritePending(es[0], k);
      DoomedStays(Step(s, es[0]), es[1..], k);
    }
  }

  /** Decisions are only ever about live phases, whatever the interleaving. */
  lemma {:induction false} DecisionsAreLive(s: System, es: seq<Event>)
    requires forall r :: r in s.runs && r.runner.Decided? ==> !IsTerminal(r.runner.next)
    ensures forall r :: r in After(s, es).runs && r.runner.Decided? ==> !IsTerminal(r.runner.next)
    decreases |es|
  {
    if es != [] {
      DecisionsAreLive(Step(s, es[0]), es[1..]);
    }
  }

  /**
   The condition is exact: once a race happens, then however the other threads interleave, the pending write revives the
   finished run.
   */
  lemma RacesRevive(before: seq<Event>, e: Event, es: seq<Event>)
    requires Races(After(EMPTY, before), e)
    requires forall f :: f in es ==> LeavesWritePending(f, e.k)
    ensures var s := After(EMPTY, before);
      Revives(After(Step(s, e), es), On(e.k, if s.runs[e.k].runner.NotBegun? then Begin else Write))
  {
    var s := After(EMPTY, before);
    DecisionsAreLive(EMPTY, before);
    assert s.runs[e.k] in s.runs;
    var m := After(Step(s, e), es);
    DoomedStays(Step(s, e), es, e.k);
    var w := On(e.k, if s.runs[e.k].runner.NotBegun? then Begin else Write);
    assert IsTerminal(m.runs[e.k].phase) && !IsTerminal(Step(m, w).runs[e.k].phase);
  }

  lemma {:induction false} AfterOneMore(s: System, es: seq<Event>, e: Event)
    ensures After(s, es + [e]) == Step(After(s, es), e)
    decreases |es|
  {
    if es == [] {
      assert (es + [e])[1..] == [];
    } else {
      assert (es + [e])[0] == es[0] && (es + [e])[1..] == es[1..] + [e];
      AfterOneMore(Step(s, es[0]), es[1..], e);
    }
  }

  /** A stop undone by the thread it came too early for. */
  lemma StopCanBeUndone(id: SessionId)
    ensures var stopped := [Start(id), StopLooks(id), On(0, StopWrites)];
      && After(EMPTY, stopped) == System([Run(id, STOPPED, NotBegun, Off, 0)], map[id := 0])
      && After(EMPTY, stopped + [On(0, Begin)]) == System([Run(id, EXTRACTING, Launching, Off, 0)], map[id := 0])
  {
    AfterOneMore(EMPTY, [], Start(id));
    AfterOneMore(EMPTY, [Start(id)], StopLooks(id));
    AfterOneMore(EMPTY, [Start(id), StopLooks(id)], On(0, StopWrites));
    AfterOneMore(EMPTY, [Start(id), StopLooks(id), On(0, StopWrites)], On(0, Begin));
    assert [] + [Start(id)] == [Start(id)];
    assert [Start(id)] + [StopLooks(id)] == [Start(id), StopLooks(id)];
    assert [Start(id), StopLooks(id)] + [On(0, StopWrites)] == [Start(id), StopLooks(id), On(0, StopWrites)];
  }

  /** The same early stop lets a second run of the session start beside the first. */
  lemma TwoRunsCanBeLive(id: SessionId)
    ensures After(EMPTY, [Start(id), StopLooks(id), On(0, StopWrites)] + [Start(id)] + [On(0, Begin)])
         == System([Run(id, EXTRACTING, Launching, Off, 0), Run(id, PENDING, NotBegun, Off, 0)], map[id := 1])
  {
    StopCanBeUndone(id);
    var stopped := [Start(id), StopLooks(id), On(0, StopWrites)];
    AfterOneMore(EMPTY, stopped, Start(id));
    AfterOneMore(EMPTY, stopped + [Start(id)], On(0, Begin));
  }

  // ---------------------------------------------------------------- after the process is gone

  lemma ThreadEndsProperly(r: Run, e: RunStep)
    requires EndsProperly(r)
    ensures EndsProperly(RunAfter(r, e))
  {
  }

  /** With or without races: a run whose thread has ended is over, unless its process left with 0 while RUNNING. */
  lemma {:induction false} EndedRunsAreOver(s: System, es: seq<Event>)
    requires forall k :: 0 <= k < |s.runs| ==> EndsProperly(s.runs[k])
    ensures forall k :: 0 <= k < |After(s, es).runs| ==> EndsProperly(After(s, es).runs[k])
    decreases |es|
  {
    if es != [] {
      if es[0].On? && es[0].k < |s.runs| {
        ThreadEndsProperly(s.runs[es[0].k], es[0].step);
      }
      EndedRunsAreOver(Step(s, es[0]), es[1..]);
    }
  }

  // ---------------------------------------------------------------- what each thread decides

  /** The phases a run goes through, in order. */
  const LADDER: seq<Phase> := [PENDING, EXTRACTING, DETECTING_ARCH, PREPARING_IMAGE, BOOTING, CHECKING, RUNNING]

  ghost predicate ComesLater(p: Phase, q: Phase) {
    exists i, j :: 0 <= i < j < |LADDER| && LADDER[i] == p && LADDER[j] == q
  }

  lemma OrderIsLadder(p: Phase, q: Phase)
    ensures !IsTerminal(q) && Order(q) > Order(p) <==> ComesLater(p, q)
  {
    if Order(q) < 99 && Order(p) < Order(q) {
      assert LADDER[Order(p)] == p && LADDER[Order(q)] == q;
    }
  }

  /** A start is refused exactly while the registered run is live; an accepted one begins a new, registered run. */
  lemma StartDecides(s: System, id: SessionId)
    ensures After(s, [Start(id), On(|s.runs|, Begin)])
         == if id in s.sessions && s.sessions[id] < |s.runs|
               && s.runs[s.sessions[id]].phase !in {FAILED, STOPPED, TIMEOUT}
            then s
            else System(s.runs + [Run(id, EXTRACTING, Launching, Off, 0)], s.sessions[id := |s.runs|])
  {
    TwoSteps(s, Start(id), On(|s.runs|, Begin));
  }

  /** A stop ends a live run and leaves one that is over as it was. */
  lemma StopDecides(s: System, id: SessionId)
    requires id in s.sessions && s.sessions[id] < |s.runs| && s.runs[s.sessions[id]].stopping == 0
    ensures var k := s.sessions[id];
      After(s, [StopLooks(id), On(k, StopWrites)])
      == if s.runs[k].phase in {FAILED, STOPPED, TIMEOUT} then s
         else s.(runs := s.runs[k := s.runs[k].(phase := STOPPED)])
  {
    TwoSteps(s, StopLooks(id), On(s.sessions[id], StopWrites));
    assert s.runs[s.sessions[id] := s.runs[s.sessions[id]]] == s.runs;
  }

  /** A line's hit becomes the phase exactly if it comes later on the ladder. */
  lemma LineDecides(s: System, k: nat, hit: Phase)
    requires k < |s.runs| && s.runs[k].runner == Monitoring
    ensures After(s, [On(k, Compare(hit)), On(k, Write)])
         == if ComesLater(s.runs[k].phase, hit) then s.(runs := s.runs[k := s.runs[k].(phase := hit)]) else s
  {
    TwoSteps(s, On(k, Compare(hit)), On(k, Write));
    OrderIsLadder(s.runs[k].phase, hit);
    assert s.runs[k := s.runs[k]] == s.runs;
    hide ComesLater, Order, IsTerminal, After;
  }

  /**
   The watchdog times a run out exactly if its time is up before CHECKING; it stops watching then, and when the run is
   over or far enough.
   */
  lemma WatchdogDecides(s: System, k: nat, late: bool)
    requires k < |s.runs| && s.runs[k].watchdog == Watching
    ensures After(s, [On(k, WatchdogLooks(late)), On(k, WatchdogWrites)])
         == if s.runs[k].phase in {FAILED, STOPPED, TIMEOUT, RUNNING, CHECKING}
            then s.(runs := s.runs[k := s.runs[k].(watchdog := Off)])
            else if late then s.(runs := s.runs[k := s.runs[k].(phase := TIMEOUT, watchdog := Off)])
            else s
  {
    TwoSteps(s, On(k, WatchdogLooks(late)), On(k, WatchdogWrites));
    assert s.runs[k := s.runs[k]] == s.runs;
  }

  /** What a process that leaves with `code` leaves a run in. */
  function LeftIn(p: Phase, code: int): (q: Phase)
    ensures q == RUNNING <==> p == RUNNING && code == 0
    ensures p in {FAILED, STOPPED, TIMEOUT} ==> q == p
    ensures q != p ==> q == FAILED
    ensures q in {FAILED, STOPPED, TIMEOUT, RUNNING}
  {
    if p in {FAILED, STOPPED, TIMEOUT} || (p == RUNNING && code == 0) then p else FAILED
  }

  /** The exit of the process: RUNNING stays only with code 0, a finished run stays, and every other run has failed. */
  lemma ExitDecides(s: System, k: nat, code: int)
    requires k < |s.runs| && s.runs[k].runner == Exiting
    ensures After(s, [On(k, ExitLooks(code)), On(k, ExitWrites)])
         == s.(runs := s.runs[k := s.runs[k].(phase := LeftIn(s.runs[k].phase, code), runner := Ended(code))])
  {
    TwoSteps(s, On(k, ExitLooks(code)), On(k, ExitWrites));
    hide After, RaceFree, Races, RunAfter;
    ExitMoves(s.runs[k], code);
  }

  lemma ExitMoves(r: Run, code: int)
    requires r.runner == Exiting
    ensures RunAfter(RunAfter(r, ExitLooks(code)), ExitWrites)
         == r.(phase := LeftIn(r.phase, code), runner := Ended(code))
  {
  }

  /** A run whose thread did not get the process up, or broke down while it was watched, has failed. */
  lemma BreakdownFails(s: System, k: nat, e: RunStep)
    requires k < |s.runs|
    requires (e == ScriptMissing && s.runs[k].runner == Launching)
          || (e == Crash && s.runs[k].runner in {Launching, Monitoring, Exiting})
    ensures After(s, [On(k, e)]) == s.(runs := s.runs[k := s.runs[k].(phase := FAILED, runner := Ended(0))])
  {
    OneStep(s, On(k, e));
  }

  // ---------------------------------------------------------------- a run among the others

  /** The steps of run `k` in `es`, in order. */
  function Moves(es: seq<Event>, k: nat): seq<RunStep> {
    if es == [] then []
    else (if es[0].On? && es[0].k == k then [es[0].step] else []) + Moves(es[1..], k)
  }

  function Moved(r: Run, steps: seq<RunStep>): Run
    decreases |steps|
  {
    if steps == [] then r else Moved(RunAfter(r, steps[0]), steps[1..])
  }

  /** The same run, whatever callers of stop have looked at it. */
  predicate SameBut(r: Run, q: Run) {
    r.(stopping := 0) == q.(stopping := 0)
  }

  lemma MoveKeepsSame(r: Run, q: Run, e: RunStep)
    requires SameBut(r, q) && e != StopWrites
    ensures SameBut(RunAfter(r, e), RunAfter(q, e))
  {
  }

  lemma OthersLeave(s: System, e: Event, k: nat)
    requires k < |s.runs| && !(e.On? && e.k == k)
    ensures k < |Step(s, e).runs| && SameBut(s.runs[k], Step(s, e).runs[k])
  {
  }

  /** Without a stop's write, a run goes where its own steps take it, whatever all other threads do in between. */
  lemma {:induction false} OwnMovesDecide(s: System, es: seq<Event>, k: nat, r: Run)
    requires k < |s.runs| && SameBut(s.runs[k], r) && StopWrites !in Moves(es, k)
    ensures k < |After(s, es).runs| && SameBut(After(s, es).runs[k], Moved(r, Moves(es, k)))
    decreases |es|
  {
    hide RunAfter;
    if es != [] {
      var t, rest := Step(s, es[0]), Moves(es[1..], k);
      if es[0].On? && es[0].k == k {
        assert es[0].step in Moves(es, k);
        MoveKeepsSame(s.runs[k], r, es[0].step);
        assert Moves(es, k)[0] == es[0].step && Moves(es, k)[1..] == rest;
        assert forall m :: m in rest ==> m in Moves(es, k);
        OwnMovesDecide(t, es[1..], k, RunAfter(r, es[0].step));
      } else {
        OthersLeave(s, es[0], k);
        assert Moves(es, k) == rest;
        OwnMovesDecide(t, es[1..], k, r);
      }
    }
  }

  /** The comparison and the write of each line's hit. */
  function Lines(hits: seq<Phase>): seq<RunStep> {
    if hits == [] then [] else [Compare(hits[0]), Write] + Lines(hits[1..])
  }

  lemma {:induction false} MovedJoin(r: Run, a: seq<RunStep>, b: seq<RunStep>)
    ensures Moved(r, a + b) == Moved(Moved(r, a), b)
    decreases |a|
  {
    hide RunAfter;
    if a == [] {
      assert a + b == b;
    } else {
      assert (a + b)[0] == a[0] && (a + b)[1..] == a[1..] + b;
      MovedJoin(RunAfter(r, a[0]), a[1..], b);
    }
  }

  lemma TwoMoves(r: Run, e: RunStep, f: RunStep)
    ensures Moved(r, [e, f]) == RunAfter(RunAfter(r, e), f)
  {
    hide RunAfter;
    assert [e, f][1..] == [f] && [f][1..] == [];
    assert Moved(RunAfter(r, e), [f]) == RunAfter(RunAfter(r, e), f);
  }

  lemma {:induction false} LinesMove(r: Run, hits: seq<Phase>)
    requires r.runner == Monitoring && r.phase !in {FAILED, STOPPED, TIMEOUT}
    ensures var q := Moved(r, Lines(hits));
      && q.runner == Monitoring && q.phase !in {FAILED, STOPPED, TIMEOUT}
      && (q.phase == RUNNING <==> r.phase == RUNNING || RUNNING in hits)
    decreases |hits|
  {
    if hits != [] {
      var q := Moved(r, [Compare(hits[0]), Write]);
      TwoMoves(r, Compare(hits[0]), Write);
      assert q.phase == RUNNING <==> r.phase == RUNNING || RUNNING == hits[0];
      MovedJoin(r, [Compare(hits[0]), Write], Lines(hits[1..]));
      LinesMove(q, hits[1..]);
    }
  }

  /** The steps of a run that nothing ends early. */
  function FullLife(hits: seq<Phase>, code: int): seq<RunStep> {
    [Begin, Launched] + Lines(hits) + [OutputEnds, ExitLooks(code), ExitWrites]
  }

  lemma LinesNeverStop(hits: seq<Phase>)
    ensures StopWrites !in Lines(hits)
  {
  }

  /**
   A new run that is left alone ends RUNNING exactly if some line showed RUNNING and the process left with 0, and FAILED
   otherwise, however the steps of all other threads fall between its own.
   */
  lemma UndisturbedRun(s: System, es: seq<Event>, k: nat, hits: seq<Phase>, code: int)
    requires k < |s.runs| && s.runs[k].phase == PENDING && s.runs[k].runner == NotBegun
    requires Moves(es, k) == FullLife(hits, code)
    ensures k < |After(s, es).runs| && After(s, es).runs[k].runner == Ended(code)
    ensures After(s, es).runs[k].phase == if RUNNING in hits && code == 0 then RUNNING else FAILED
  {
    hide After, Step;
    LinesNeverStop(hits);
    OwnMovesDecide(s, es, k, s.runs[k]);
    var r, first, last := s.runs[k], [Begin, Launched], [OutputEnds, ExitLooks(code), ExitWrites];
    MovedJoin(r, first + Lines(hits), last);
    MovedJoin(r, first, Lines(hits));
    FirstMoves(r);
    LinesMove(Moved(r, first), hits);
    LastMoves(Moved(Moved(r, first), Lines(hits)), code);
  }

  lemma FirstMoves(r: Run)
    requires r.runner == NotBegun
    ensures Moved(r, [Begin, Launched]) == r.(phase := EXTRACTING, runner := Monitoring, watchdog := Watching)
  {
    TwoMoves(r, Begin, Launched);
  }

  lemma LastMoves(r: Run, code: int)
    requires r.runner == Monitoring
    ensures Moved(r, [OutputEnds, ExitLooks(code), ExitWrites])
         == r.(phase := LeftIn(r.phase, code), runner := Ended(code))
  {
    assert [OutputEnds, ExitLooks(code), ExitWrites] == [OutputEnds, ExitLooks(code)] + [ExitWrites];
    MovedJoin(r, [OutputEnds, ExitLooks(code)], [ExitWrites]);
    TwoMoves(r, OutputEnds, ExitLooks(code));
  }

  /** After a normal exit in RUNNING the run stays RUNNING until a stop writes. */
  lemma {:induction false} StaysRunning(s: System, es: seq<Event>, k: nat)
    requires k < |s.runs| && s.runs[k].phase == RUNNING && s.runs[k].runner.Ended?
    requires On(k, StopWrites) !in es && (On(k, WatchdogWrites) !in es || s.runs[k].watchdog != Firing)
    ensures k < |After(s, es).runs| && After(s, es).runs[k].phase == RUNNING
    decreases |es|
  {
    if es != [] {
      StaysRunning(Step(s, es[0]), es[1..], k);
    }
  }

  /** An exit with 0 while RUNNING, then any run of all threads without a stop's write: still RUNNING. */
  lemma RunningOutlivesProcess(s: System, es: seq<Event>, k: nat)
    requires k < |s.runs| && s.runs[k].phase == RUNNING && s.runs[k].runner == Exiting
    requires On(k, StopWrites) !in es && (On(k, WatchdogWrites) !in es || s.runs[k].watchdog != Firing)
    ensures var t := After(After(s, [On(k, ExitLooks(0)), On(k, ExitWrites)]), es);
      k < |t.runs| && t.runs[k].phase == RUNNING
  {
    ExitDecides(s, k, 0);
    StaysRunning(After(s, [On(k, ExitLooks(0)), On(k, ExitWrites)]), es, k);
  }
}
