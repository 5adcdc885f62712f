/**
 Any number of coverage updaters around one file and one lock file. An updater's edit is an arbitrary partial function
 of the text it reads: None is an edit that writes nothing, because it failed or was run without --write. Nothing is
 assumed about a killed updater but that it stops: it may leave the file half written and the lock file in place.
 */
module CoverageLock {
  import opened Wrappers

  type Id = int
  type Edit = (Id, string) -> Option<string>

  const LOCK_TIMEOUT_SEC := 20

  datatype Stage = Entered | Holding(text: string) | Writing(text: string) | Finished

  datatype Phase =
    | Waiting(deadline: int) | In(stage: Stage) | Left | TimedOut
    | LostWaiting | LostInside(stage: Stage) | LockStayed

  /**
   `turns` lists the updaters in the order in which they made the lock file; `maker` made the one that is there now;
   `raised` has the updaters whose read, edit or write raised, with what a write that raised half way left in the file.
   */
  datatype State = State(
    now: int, file: string, maker: Option<Id>, turns: seq<Id>, updaters: map<Id, Phase>,
    raised: map<Id, Option<string>>)

  function Fresh(file: string): State {
    State(0, file, None, [], map[], map[])
  }

  datatype Event = Tick(seconds: nat) | Arrive(id: Id) | By(id: Id, move: Move)

  datatype Move =
    | TryLock | Read | WriteSome(partial: string) | WriteAll | WriteNothing | Raise | Unlink | UnlinkFails | Kill

  // ---------------------------------------------------------------- steps

  function After(edit: Edit, s: State, e: Event): State {
    match e
    case Tick(seconds) => s.(now := s.now + seconds)
    case Arrive(id) => if id in s.updaters then s
      else s.(updaters := s.updaters[id := Waiting(s.now + LOCK_TIMEOUT_SEC)])
    case By(id, move) => if id in s.updaters then Moved(edit, s, id, s.updaters[id], move) else s
  }

  function Moved(edit: Edit, s: State, id: Id, phase: Phase, move: Move): State {
    match phase
    case Waiting(deadline) => WaitingMoved(s, id, deadline, move)
    case In(stage) => InsideMoved(edit, s, id, stage, move)
    case _ => s
  }

  function To(s: State, id: Id, phase: Phase): State {
    s.(updaters := s.updaters[id := phase])
  }

  /** O_EXCL makes the lock file only if there is none; an updater past its deadline gives up instead of sleeping. */
  function WaitingMoved(s: State, id: Id, deadline: int, move: Move): State {
    match move
    case TryLock =>
      if s.maker == None then To(s, id, In(Entered)).(maker := Some(id), turns := s.turns + [id])
      else if s.now >= deadline then To(s, id, TimedOut)
      else s
    case Kill => To(s, id, LostWaiting)
    case _ => s
  }

  function InsideMoved(edit: Edit, s: State, id: Id, stage: Stage, move: Move): State {
    match move
    case Kill => To(s, id, LostInside(stage))
    case Unlink => if stage.Finished? then To(s, id, Left).(maker := None) else s
    case UnlinkFails => if stage.Finished? then To(s, id, LockStayed) else s
    case Read => if stage.Entered? then To(s, id, In(Holding(s.file))) else s
    case WriteNothing => if stage.Holding? && edit(id, stage.text) == None then To(s, id, In(Finished)) else s
    case Raise => Raised(s, id, stage)
    case WriteSome(partial) => WroteSome(edit, s, id, stage, partial)
    case WriteAll => if stage.Writing? then To(s, id, In(Finished)).(file := stage.text) else s
    case TryLock => s
  }

  /**
   An exception anywhere inside goes through the `finally` that removes the lock file; what is written stays written.
   */
  function Raised(s: State, id: Id, stage: Stage): State {
    if stage.Finished? then s
    else To(s, id, In(Finished)).(raised := s.raised[id := if stage.Writing? then Some(s.file) else None])
  }

  /** Opening the file for writing truncates it, and it may be seen with any part of the new text in it. */
  function WroteSome(edit: Edit, s: State, id: Id, stage: Stage, partial: string): State {
    match stage
    case Holding(text) =>
      (match edit(id, text)
       case Some(text') => To(s, id, In(Writing(text'))).(file := partial)
       case None => s)
    case Writing(text) => s.(file := partial)
    case _ => s
  }

  function Run(edit: Edit, s: State, events: seq<Event>): State {
    if events == [] then s else After(edit, Run(edit, s, events[..|events| - 1]), events[|events| - 1])
  }

  // ---------------------------------------------------------------- one after another

  /** One edit of a text; an edit that writes nothing leaves it. */
  function Edited(edit: Edit, id: Id, text: string): string {
    match edit(id, text)
    case Some(edited) => edited
    case None => text
  }

  /** What one updater makes of a text; one that raised leaves it, or whatever its write had got to. */
  function Made(edit: Edit, raised: map<Id, Option<string>>, id: Id, text: string): string {
    if id !in raised then Edited(edit, id, text)
    else
      match raised[id]
      case None => text
      case Some(left) => left
  }

  /** The updaters run one at a time, in turn, each to its end. */
  function Serial(edit: Edit, raised: map<Id, Option<string>>, text: string, turns: seq<Id>): string {
    if turns == [] then text
    else Made(edit, raised, turns[|turns| - 1], Serial(edit, raised, text, turns[..|turns| - 1]))
  }

  // ---------------------------------------------------------------- invariant

  predicate Holds(phase: Phase) {
    phase.In? || phase.LostInside? || phase.LockStayed?
  }

  /** What the file is while the last updater in turn is at a stage; half way through its write it may be anything. */
  predicate FileAt(edit: Edit, init: string, s: State, stage: Stage)
    requires s.turns != []
  {
    var id, before := s.turns[|s.turns| - 1], Serial(edit, s.raised, init, s.turns[..|s.turns| - 1]);
    match stage
    case Entered => id !in s.raised && s.file == before
    case Holding(text) => id !in s.raised && s.file == before && text == before
    case Writing(text) => id !in s.raised && edit(id, before) == Some(text)
    case Finished => s.file == Made(edit, s.raised, id, before)
  }

  predicate LockFits(s: State) {
    && (forall p :: p in s.updaters && Holds(s.updaters[p]) ==> s.maker == Some(p))
    && (s.maker.Some? ==>
          && s.turns != [] && s.turns[|s.turns| - 1] == s.maker.value
          && s.maker.value in s.updaters && Holds(s.updaters[s.maker.value]))
  }

  predicate FileFits(edit: Edit, init: string, s: State)
    requires LockFits(s)
  {
    match s.maker
    case None => s.file == Serial(edit, s.raised, init, s.turns)
    case Some(p) =>
      match s.updaters[p]
      case In(stage) => FileAt(edit, init, s, stage)
      case LostInside(stage) => FileAt(edit, init, s, stage)
      case _ => s.file == Serial(edit, s.raised, init, s.turns)
  }

  predicate HadTurn(phase: Phase) {
    Holds(phase) || phase.Left?
  }

  predicate TurnsFit(s: State) {
    && (forall i, j :: 0 <= i < j < |s.turns| ==> s.turns[i] != s.turns[j])
    && (forall i :: 0 <= i < |s.turns| ==> s.turns[i] in s.updaters && HadTurn(s.updaters[s.turns[i]]))
    && (forall p :: p in s.updaters && HadTurn(s.updaters[p]) ==> p in s.turns)
    && (forall p :: p in s.raised ==> p in s.turns)
  }

  predicate Inv(edit: Edit, init: string, s: State) {
    LockFits(s) && FileFits(edit, init, s) && TurnsFit(s)
  }

  lemma SerialStep(edit: Edit, raised: map<Id, Option<string>>, init: string, turns: seq<Id>, id: Id)
    ensures Serial(edit, raised, init, turns + [id]) == Made(edit, raised, id, Serial(edit, raised, init, turns))
    ensures (turns + [id])[..|turns|] == turns
  {
  }

  /** That an updater raised says nothing about the turns before its own. */
  lemma {:induction false} SerialIgnores(edit: Edit, raised: map<Id, Option<string>>, init: string, turns: seq<Id>,
      id: Id, left: Option<string>)
    requires id !in turns
    ensures Serial(edit, raised[id := left], init, turns) == Serial(edit, raised, init, turns)
  {
    if turns != [] {
      SerialIgnores(edit, raised, init, turns[..|turns| - 1], id, left);
    }
  }

  lemma EntersKeepTurns(s: State, id: Id)
    requires LockFits(s) && TurnsFit(s) && id in s.updaters && s.updaters[id].Waiting? && s.maker == None
    ensures var t := To(s, id, In(Entered)).(maker := Some(id), turns := s.turns + [id]); LockFits(t) && TurnsFit(t)
  {
    var t := To(s, id, In(Entered)).(maker := Some(id), turns := s.turns + [id]);
    assert t.turns[|s.turns|] == id;
    assert forall p :: p in s.turns ==> p in t.turns;
  }

  lemma EntersKeepInv(edit: Edit, init: string, s: State, id: Id)
    requires Inv(edit, init, s) && id in s.updaters && s.updaters[id].Waiting? && s.maker == None
    ensures Inv(edit, init, To(s, id, In(Entered)).(maker := Some(id), turns := s.turns + [id]))
  {
    assert id !in s.turns && id !in s.raised;
    hide Serial, TurnsFit;
    EntersKeepTurns(s, id);
    SerialStep(edit, s.raised, init, s.turns, id);
    assert FileAt(edit, init, To(s, id, In(Entered)).(maker := Some(id), turns := s.turns + [id]), Entered);
  }

  lemma WaitingKeepsInv(edit: Edit, init: string, s: State, id: Id, deadline: int, move: Move)
    requires Inv(edit, init, s) && id in s.updaters && s.updaters[id] == Waiting(deadline)
    ensures Inv(edit, init, WaitingMoved(s, id, deadline, move))
  {
    hide Serial;
    if move.TryLock? && s.maker == None {
      EntersKeepInv(edit, init, s, id);
    }
  }

  /** A move of the updater inside that keeps it a holder keeps everything but what it does to the file. */
  lemma InsideKeepsTurns(s: State, id: Id, phase: Phase, file: string, raised: map<Id, Option<string>>)
    requires LockFits(s) && TurnsFit(s) && id in s.updaters && s.updaters[id].In? && Holds(phase)
    requires raised.Keys <= s.raised.Keys + {id}
    ensures var t := To(s, id, phase).(file := file, raised := raised);
      LockFits(t) && TurnsFit(t) && s.maker == Some(id)
  {
  }

  lemma LeavingKeepsTurns(s: State, id: Id)
    requires LockFits(s) && TurnsFit(s) && id in s.updaters && s.updaters[id].In?
    ensures var t := To(s, id, Left).(maker := None); LockFits(t) && TurnsFit(t)
  {
  }

  lemma SerialOfTurns(edit: Edit, init: string, s: State)
    requires s.turns != []
    ensures Serial(edit, s.raised, init, s.turns)
         == Made(edit, s.raised, s.turns[|s.turns| - 1], Serial(edit, s.raised, init, s.turns[..|s.turns| - 1]))
  {
  }

  lemma WritingKeepsFile(edit: Edit, init: string, s: State, id: Id, stage: Stage, partial: string)
    requires id in s.updaters && s.updaters[id] == In(stage) && s.turns != [] && s.turns[|s.turns| - 1] == id
    requires s.maker == Some(id) && FileAt(edit, init, s, stage)
    ensures var t := WroteSome(edit, s, id, stage, partial);
      t.turns == s.turns && t.updaters[id].In? && FileAt(edit, init, t, t.updaters[id].stage)
  {
    hide Serial, TurnsFit;
  }

  predicate MovedFits(edit: Edit, init: string, s: State, id: Id, t: State)
    requires s.turns != []
  {
    && t.turns == s.turns && id in t.updaters && t.updaters == s.updaters[id := t.updaters[id]]
    && t.raised.Keys <= s.raised.Keys + {id}
    && match t.updaters[id]
       case In(now) => t.maker == s.maker && FileAt(edit, init, t, now)
       case LostInside(now) => t.maker == s.maker && FileAt(edit, init, t, now)
       case LockStayed => t.maker == s.maker && t.file == Serial(edit, s.raised, init, s.turns)
       case _ => t == To(s, id, Left).(maker := None) && t.file == Serial(edit, s.raised, init, s.turns)
  }

  lemma RaisingKeepsFile(edit: Edit, init: string, s: State, id: Id, stage: Stage)
    requires id in s.updaters && s.updaters[id] == In(stage) && s.turns != [] && s.turns[|s.turns| - 1] == id
    requires id !in s.turns[..|s.turns| - 1] && s.maker == Some(id) && FileAt(edit, init, s, stage)
    ensures MovedFits(edit, init, s, id, Raised(s, id, stage))
  {
    SerialIgnores(edit, s.raised, init, s.turns[..|s.turns| - 1], id, if stage.Writing? then Some(s.file) else None);
    hide Serial, TurnsFit;
  }

  lemma StayingKeepsFile(edit: Edit, init: string, s: State, id: Id, stage: Stage, move: Move)
    requires id in s.updaters && s.updaters[id] == In(stage) && s.turns != [] && s.turns[|s.turns| - 1] == id
    requires id !in s.turns[..|s.turns| - 1] && s.maker == Some(id) && FileAt(edit, init, s, stage)
    ensures MovedFits(edit, init, s, id, InsideMoved(edit, s, id, stage, move))
  {
    SerialOfTurns(edit, init, s);
    if move.Raise? {
      RaisingKeepsFile(edit, init, s, id, stage);
      hide *;
      assert InsideMoved(edit, s, id, stage, move) == Raised(s, id, stage) by { RaiseIsRaised(edit, s, id, stage); }
    } else {
      hide Serial, TurnsFit, Raised;
      if move.WriteSome? {
        WritingKeepsFile(edit, init, s, id, stage, move.partial);
      }
    }
  }

  lemma RaiseIsRaised(edit: Edit, s: State, id: Id, stage: Stage)
    ensures InsideMoved(edit, s, id, stage, Raise) == Raised(s, id, stage)
  {
  }

  lemma LastTurn(s: State, id: Id)
    requires LockFits(s) && TurnsFit(s) && id in s.updaters && s.updaters[id].In?
    ensures s.maker == Some(id) && s.turns != [] && s.turns[|s.turns| - 1] == id && id !in s.turns[..|s.turns| - 1]
  {
  }

  lemma InsideKeepsInv(edit: Edit, init: string, s: State, id: Id, stage: Stage, move: Move)
    requires Inv(edit, init, s) && id in s.updaters && s.updaters[id] == In(stage)
    ensures Inv(edit, init, InsideMoved(edit, s, id, stage, move))
  {
    LastTurn(s, id);
    hide Serial, TurnsFit, InsideMoved, FileAt;
    var t := InsideMoved(edit, s, id, stage, move);
    StayingKeepsFile(edit, init, s, id, stage, move);
    if t.maker == None {
      LeavingKeepsTurns(s, id);
    } else {
      NowUnchanged(edit, s, id, stage, move);
      InsideKeepsTurns(s, id, t.updaters[id], t.file, t.raised);
    }
  }

  lemma NowUnchanged(edit: Edit, s: State, id: Id, stage: Stage, move: Move)
    ensures InsideMoved(edit, s, id, stage, move).now == s.now
  {
  }

  lemma StepKeepsInv(edit: Edit, init: string, s: State, e: Event)
    requires Inv(edit, init, s)
    ensures Inv(edit, init, After(edit, s, e))
  {
    hide Serial, InsideMoved, WaitingMoved;
    match e
    case Tick(seconds) =>
    case Arrive(id) =>
    case By(id, move) =>
      if id in s.updaters {
        match s.updaters[id]
        case Waiting(deadline) => WaitingKeepsInv(edit, init, s, id, deadline, move);
        case In(stage) => InsideKeepsInv(edit, init, s, id, stage, move);
        case _ =>
      }
  }

  lemma {:induction false} RunKeepsInv(edit: Edit, init: string, events: seq<Event>)
    ensures Inv(edit, init, Run(edit, Fresh(init), events))
  {
    hide Inv, After;
    if events == [] {
      FreshFits(edit, init);
    } else {
      RunKeepsInv(edit, init, events[..|events| - 1]);
      StepKeepsInv(edit, init, Run(edit, Fresh(init), events[..|events| - 1]), events[|events| - 1]);
    }
  }

  lemma FreshFits(edit: Edit, init: string)
    ensures Inv(edit, init, Fresh(init))
  {
  }

  // ---------------------------------------------------------------- main results

  /** In every run, no two updaters are inside, no updater has two turns, and one that timed out never had any. */
  lemma OneInside(edit: Edit, init: string, events: seq<Event>)
    ensures var s := Run(edit, Fresh(init), events);
      && (forall p, q :: p in s.updaters && q in s.updaters && s.updaters[p].In? && s.updaters[q].In? ==> p == q)
      && (forall i, j :: 0 <= i < j < |s.turns| ==> s.turns[i] != s.turns[j])
      && (forall p :: p in s.updaters && s.updaters[p].TimedOut? ==> p !in s.turns)
  {
    RunKeepsInv(edit, init, events);
  }

  /**
   In every run, whenever the lock file is gone the file is what the updaters make of it one after another: each its
   edit, or nothing if it raised before writing, or what was written when it raised in the middle.
   */
  lemma UpdatesAreSerial(edit: Edit, init: string, events: seq<Event>)
    ensures var s := Run(edit, Fresh(init), events); s.maker == None ==> s.file == Serial(edit, s.raised, init, s.turns)
  {
    hide Serial;
    RunKeepsInv(edit, init, events);
  }

  predicate NoHalfWrite(s: State) {
    forall p :: p in s.raised ==> s.raised[p] == None
  }

  /** The edits of some of the updaters, one after another. */
  function EditsOf(edit: Edit, text: string, turns: seq<Id>, skipped: set<Id>): string {
    if turns == [] then text
    else
      var id, before := turns[|turns| - 1], EditsOf(edit, text, turns[..|turns| - 1], skipped);
      if id in skipped then before else Edited(edit, id, before)
  }

  lemma {:induction false} WholeEdits(edit: Edit, s: State, init: string, turns: seq<Id>)
    requires NoHalfWrite(s)
    ensures Serial(edit, s.raised, init, turns) == EditsOf(edit, init, turns, s.raised.Keys)
  {
    if turns != [] {
      WholeEdits(edit, s, init, turns[..|turns| - 1]);
    }
  }

  /**
   Unless a write raised in the middle, the file is the whole edits, in lock order, of the updaters that did not raise.
   */
  lemma WithoutHalfWrites(edit: Edit, init: string, events: seq<Event>)
    ensures var s := Run(edit, Fresh(init), events);
      s.maker == None && NoHalfWrite(s) ==> s.file == EditsOf(edit, init, s.turns, s.raised.Keys)
  {
    hide Serial, EditsOf, NoHalfWrite, Run;
    UpdatesAreSerial(edit, init, events);
    var s := Run(edit, Fresh(init), events);
    if NoHalfWrite(s) {
      WholeEdits(edit, s, init, s.turns);
    }
  }

  /**
   A write that raises in the middle leaves the half-written file, and no lock file to keep the next updater from it.
   */
  lemma HalfWriteStays(edit: Edit, init: string, partial: string)
    requires edit(0, init).Some?
    ensures var events :=
      [Arrive(0), By(0, TryLock), By(0, Read), By(0, WriteSome(partial)), By(0, Raise), By(0, Unlink)];
      var s := Run(edit, Fresh(init), events); s.file == partial && s.maker == None && !NoHalfWrite(s)
  {
    var e0, e1, e2 := [Arrive(0)], [Arrive(0), By(0, TryLock)], [Arrive(0), By(0, TryLock), By(0, Read)];
    var e3 := e2 + [By(0, WriteSome(partial))];
    var e4 := e3 + [By(0, Raise)];
    var e5 := e4 + [By(0, Unlink)];
    RunStep(edit, Fresh(init), [], Arrive(0));
    RunStep(edit, Fresh(init), e0, By(0, TryLock));
    RunStep(edit, Fresh(init), e1, By(0, Read));
    RunStep(edit, Fresh(init), e2, By(0, WriteSome(partial)));
    RunStep(edit, Fresh(init), e3, By(0, Raise));
    RunStep(edit, Fresh(init), e4, By(0, Unlink));
    assert [] + [Arrive(0)] == e0 && e0 + [By(0, TryLock)] == e1 && e1 + [By(0, Read)] == e2;
    assert e5 == [Arrive(0), By(0, TryLock), By(0, Read), By(0, WriteSome(partial)), By(0, Raise), By(0, Unlink)];
    assert Run(edit, Fresh(init), e5).raised[0] == Some(partial);
  }

  lemma RunStep(edit: Edit, s: State, events: seq<Event>, e: Event)
    ensures Run(edit, s, []) == s && Run(edit, s, events + [e]) == After(edit, Run(edit, s, events), e)
  {
    assert (events + [e])[..|events|] == events;
  }

  /**
   In every run, the text an updater has read is what the turns before its own left, never a write still under way.
   */
  lemma ReadsAreSettled(edit: Edit, init: string, events: seq<Event>, p: Id)
    ensures var s := Run(edit, Fresh(init), events);
      p in s.updaters && s.updaters[p].In? && s.updaters[p].stage.Holding? ==>
        && s.turns != [] && s.turns[|s.turns| - 1] == p
        && s.updaters[p].stage.text == Serial(edit, s.raised, init, s.turns[..|s.turns| - 1])
  {
    hide Serial;
    RunKeepsInv(edit, init, events);
  }

  /** The lock file of an updater that is gone: killed inside, or left without removing it. */
  predicate Stuck(s: State) {
    exists p :: p in s.updaters && (s.updaters[p].LostInside? || s.updaters[p].LockStayed?)
  }

  predicate Frozen(s: State, t: State) {
    t.file == s.file && t.turns == s.turns && t.maker == s.maker
  }

  lemma StuckStep(edit: Edit, init: string, s: State, e: Event)
    requires Inv(edit, init, s) && Stuck(s)
    ensures Stuck(After(edit, s, e)) && Frozen(s, After(edit, s, e))
  {
    hide FileFits, TurnsFit;
    var t := After(edit, s, e);
    var p :| p in s.updaters && (s.updaters[p].LostInside? || s.updaters[p].LockStayed?);
    assert p in t.updaters && t.updaters[p] == s.updaters[p];
  }

  /** After such an updater nobody enters again: the file, half written or not, and the turns stay as they are. */
  lemma {:induction false} StaleLockFreezes(edit: Edit, init: string, before: seq<Event>, after: seq<Event>)
    requires Stuck(Run(edit, Fresh(init), before))
    ensures Stuck(Run(edit, Fresh(init), before + after))
    ensures Frozen(Run(edit, Fresh(init), before), Run(edit, Fresh(init), before + after))
  {
    hide Inv, After;
    if after == [] {
      assert before + after == before;
    } else {
      var init' := after[..|after| - 1];
      StaleLockFreezes(edit, init, before, init');
      assert (before + after)[..|before + after| - 1] == before + init';
      RunKeepsInv(edit, init, before + init');
      StuckStep(edit, init, Run(edit, Fresh(init), before + init'), after[|after| - 1]);
    }
  }

  /** Without such updaters, an updater that tries when nobody is inside gets its turn. */
  lemma NoWedgeWithoutOne(edit: Edit, init: string, events: seq<Event>, p: Id)
    ensures var s := Run(edit, Fresh(init), events);
      p in s.updaters && s.updaters[p].Waiting? && !Stuck(s) && (forall q :: q in s.updaters ==> !s.updaters[q].In?)
      ==> After(edit, s, By(p, TryLock)).turns == s.turns + [p]
  {
    hide FileFits, TurnsFit;
    RunKeepsInv(edit, init, events);
  }

  // ---------------------------------------------------------------- progress

  /** An updater waits for twenty seconds from its arrival: only then does it give up, and only if the lock is taken. */
  lemma GivesUpAfterTwentySeconds(edit: Edit, s: State, p: Id, arrival: int)
    ensures p !in s.updaters ==> After(edit, s, Arrive(p)).updaters == s.updaters[p := Waiting(s.now + 20)]
    ensures p in s.updaters && s.updaters[p] == Waiting(arrival + 20) ==>
              After(edit, s, By(p, TryLock))
              == if s.maker == None then s.(updaters := s.updaters[p := In(Entered)], maker := Some(p),
                                            turns := s.turns + [p])
                 else if s.now - arrival >= 20 then s.(updaters := s.updaters[p := TimedOut])
                 else s
  {
    assert s.updaters[p := Waiting(0)][p := In(Entered)] == s.updaters[p := In(Entered)];
  }

  /** The moves of updater `p`, in order. */
  function Moves(events: seq<Event>, p: Id): seq<Move> {
    if events == [] then []
    else (if events[0].By? && events[0].id == p then [events[0].move] else []) + Moves(events[1..], p)
  }

  /** The moves of an undisturbed updater from a stage on; `file` is what it will read or has read. */
  predicate Proper(edit: Edit, p: Id, stage: Stage, file: string, moves: seq<Move>)
    decreases |moves|
  {
    moves != [] &&
    match stage
    case Entered => moves[0] == Read && Proper(edit, p, Holding(file), file, moves[1..])
    case Holding(text) =>
      (match edit(p, text)
       case None => moves == [WriteNothing, Unlink]
       case Some(text') => moves[0].WriteSome? && Proper(edit, p, Writing(text'), file, moves[1..]))
    case Writing(text) =>
      moves == [WriteAll, Unlink] || (moves[0].WriteSome? && Proper(edit, p, Writing(text), file, moves[1..]))
    case Finished => moves == [Unlink]
  }

  /** Updater `p` is inside with its moves still to make, or has left after them. */
  predicate OnItsWay(edit: Edit, s: State, p: Id, turns: seq<Id>, file: string, moves: seq<Move>) {
    && p in s.updaters && p !in s.raised && turns <= s.turns
    && match s.updaters[p]
       case In(stage) =>
         s.maker == Some(p) && s.turns == turns && (stage.Entered? ==> s.file == file)
         && Proper(edit, p, stage, file, moves)
       case Left => moves == []
       case _ => false
  }

  lemma OthersStepAside(edit: Edit, s: State, p: Id, turns: seq<Id>, file: string, moves: seq<Move>, e: Event)
    requires LockFits(s) && OnItsWay(edit, s, p, turns, file, moves) && !(e.By? && e.id == p)
    ensures OnItsWay(edit, After(edit, s, e), p, turns, file, moves)
  {
    hide Proper;
    if e.By? && e.id in s.updaters {
      assert s.updaters[p].In? ==> !Holds(s.updaters[e.id]);
      if s.updaters[e.id].In? {
        OtherInside(edit, s, e.id, s.updaters[e.id].stage, e.move);
        hide InsideMoved;
      }
    }
  }

  lemma OtherInside(edit: Edit, s: State, id: Id, stage: Stage, move: Move)
    ensures var t := InsideMoved(edit, s, id, stage, move);
      && t.turns == s.turns && t.raised.Keys <= s.raised.Keys + {id}
      && forall p :: p != id ==> (p in t.updaters <==> p in s.updaters)
                                 && (p in s.updaters ==> t.updaters[p] == s.updaters[p])
  {
  }

  lemma OwnStepGoesOn(edit: Edit, s: State, p: Id, turns: seq<Id>, file: string, moves: seq<Move>)
    requires moves != [] && OnItsWay(edit, s, p, turns, file, moves)
    ensures OnItsWay(edit, After(edit, s, By(p, moves[0])), p, turns, file, moves[1..])
  {
    assert moves == [moves[0]] + moves[1..];
  }

  lemma FirstMove(events: seq<Event>, p: Id)
    requires events != []
    ensures if events[0].By? && events[0].id == p
            then Moves(events, p) != [] && Moves(events, p)[0] == events[0].move
                 && Moves(events, p)[1..] == Moves(events[1..], p)
            else Moves(events, p) == Moves(events[1..], p)
  {
  }

  lemma {:induction false} Arrives(edit: Edit, init: string, before: seq<Event>, events: seq<Event>, p: Id,
      turns: seq<Id>, file: string)
    requires OnItsWay(edit, Run(edit, Fresh(init), before), p, turns, file, Moves(events, p))
    ensures OnItsWay(edit, Run(edit, Fresh(init), before + events), p, turns, file, [])
    decreases |events|
  {
    var s := Run(edit, Fresh(init), before);
    hide Run, After, OnItsWay, FileFits, TurnsFit;
    if events == [] {
      assert before + events == before;
    } else {
      var e := events[0];
      RunKeepsInv(edit, init, before);
      RunStep(edit, Fresh(init), before, e);
      assert (before + [e]) + events[1..] == before + events;
      FirstMove(events, p);
      if e.By? && e.id == p {
        OwnStepGoesOn(edit, s, p, turns, file, Moves(events, p));
      } else {
        hide LockFits;
        OthersStepAside(edit, s, p, turns, file, Moves(events, p), e);
      }
      Arrives(edit, init, before + [e], events[1..], p, turns, file);
    }
  }

  /**
   From any reachable state with the lock free: an updater that takes it, reads, writes what its edit makes of the file
   in any number of pieces (or nothing if the edit is None) and removes the lock file has had its turn next and has not
   raised, whatever all the others do in between; so its whole edit is in the serial result.
   */
  lemma UpdatersArrive(edit: Edit, init: string, before: seq<Event>, events: seq<Event>, p: Id)
    requires var s := Run(edit, Fresh(init), before);
      && s.maker == None && p in s.updaters && s.updaters[p].Waiting?
      && Proper(edit, p, Entered, s.file, Moves(events, p))
    ensures var s := Run(edit, Fresh(init), before);
            var t := Run(edit, Fresh(init), (before + [By(p, TryLock)]) + events);
      p in t.updaters && t.updaters[p] == Left && p !in t.raised && s.turns + [p] <= t.turns
  {
    var s := Run(edit, Fresh(init), before);
    RunKeepsInv(edit, init, before);
    RunStep(edit, Fresh(init), before, By(p, TryLock));
    hide Run, FileFits, LockFits;
    Arrives(edit, init, before + [By(p, TryLock)], events, p, s.turns + [p], s.file);
  }
}
