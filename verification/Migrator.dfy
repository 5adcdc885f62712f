/**
 Any number of processes that run `alembic upgrade head` against one database, each behind the session-level advisory
 lock.  The revisions are a chain of distinct identifiers; a migrator plans its work from the version it reads.
 */
module Migrator {
  import opened Sequences
  import opened Wrappers

  type Id = int
  type Revision = string

  /** The version table, and (for the record) every revision whose upgrade is in the database, in the order applied. */
  datatype Database = Database(version: Option<Revision>, applied: seq<Revision>)

  /**
   `Locked` still has the transaction open that took the lock; `Migrating` has its own uncommitted view of the
   database.
   */
  datatype Phase =
    | Started | Locked | Ready | Migrating(plan: seq<Revision>, work: Database) | Committed | RolledBack
    | Ended(ok: bool) | Crashed

  datatype State = State(db: Database, holder: Option<Id>, migrators: map<Id, Phase>)

  const FRESH := State(Database(None, []), None, map[])

  datatype Event = Start(id: Id) | By(id: Id, move: Move)

  datatype Move = Lock | CommitLock | Begin | Apply | Fail | Commit | Unlock | Crash

  // ---------------------------------------------------------------- steps

  /** The revisions above a version, oldest first; an unknown version is refused. */
  function Plan(chain: seq<Revision>, version: Option<Revision>): Option<seq<Revision>> {
    match version
    case None => Some(chain)
    case Some(r) => Above(chain, r)
  }

  function Above(chain: seq<Revision>, r: Revision): Option<seq<Revision>> {
    if chain == [] then None else if chain[0] == r then Some(chain[1..]) else Above(chain[1..], r)
  }

  function Upgraded(db: Database, r: Revision): Database {
    Database(Some(r), db.applied + [r])
  }

  predicate Inside(phase: Phase) {
    phase.Locked? || phase.Ready? || phase.Migrating? || phase.Committed? || phase.RolledBack?
  }

  function To(s: State, id: Id, phase: Phase): State {
    s.(migrators := s.migrators[id := phase])
  }

  function After(chain: seq<Revision>, s: State, e: Event): State {
    match e
    case Start(id) => if id in s.migrators then s else To(s, id, Started)
    case By(id, move) => if id in s.migrators then Moved(chain, s, id, s.migrators[id], move) else s
  }

  /** A crash closes the connection: the server rolls the transaction back and releases the session's lock. */
  function Moved(chain: seq<Revision>, s: State, id: Id, phase: Phase, move: Move): State {
    if move.Crash? && !phase.Ended? && !phase.Crashed?
    then To(s, id, Crashed).(holder := if s.holder == Some(id) then None else s.holder)
    else
      match phase
      case Started => if move.Lock? && s.holder == None then To(s, id, Locked).(holder := Some(id)) else s
      case Locked => if move.CommitLock? then To(s, id, Ready) else s
      case Ready => if move.Begin? then Begun(chain, s, id) else s
      case Migrating(plan, work) => MigrationMoved(s, id, plan, work, move)
      case Committed => if move.Unlock? then To(s, id, Ended(true)).(holder := None) else s
      case RolledBack => if move.Unlock? then To(s, id, Ended(false)).(holder := None) else s
      case _ => s
  }

  function Begun(chain: seq<Revision>, s: State, id: Id): State {
    match Plan(chain, s.db.version)
    case Some(plan) => To(s, id, Migrating(plan, s.db))
    case None => To(s, id, RolledBack)
  }

  function MigrationMoved(s: State, id: Id, plan: seq<Revision>, work: Database, move: Move): State {
    if move.Fail? then To(s, id, RolledBack)
    else if move.Apply? && plan != [] then To(s, id, Migrating(plan[1..], Upgraded(work, plan[0])))
    else if move.Commit? && plan == [] then To(s, id, Committed).(db := work)
    else s
  }

  function Run(chain: seq<Revision>, events: seq<Event>): State {
    if events == [] then FRESH else After(chain, Run(chain, events[..|events| - 1]), events[|events| - 1])
  }

  // ---------------------------------------------------------------- invariant

  /** The database is some way up the chain, and its version table says how far. */
  predicate UpTo(chain: seq<Revision>, db: Database) {
    db.applied <= chain && db.version == if db.applied == [] then None else Some(db.applied[|db.applied| - 1])
  }

  predicate PhaseFits(chain: seq<Revision>, s: State, phase: Phase) {
    match phase
    case Migrating(plan, work) => UpTo(chain, work) && s.db.applied <= work.applied && work.applied + plan == chain
    case Committed => s.db.applied == chain
    case Ended(ok) => ok ==> s.db.applied == chain
    case _ => true
  }

  predicate LockFits(s: State) {
    && (forall p :: p in s.migrators && Inside(s.migrators[p]) ==> s.holder == Some(p))
    && (s.holder.Some? ==> s.holder.value in s.migrators && Inside(s.migrators[s.holder.value]))
  }

  predicate Inv(chain: seq<Revision>, s: State) {
    && LockFits(s) && UpTo(chain, s.db)
    && forall p :: p in s.migrators ==> PhaseFits(chain, s, s.migrators[p])
  }

  lemma {:induction false} AboveIsRest(chain: seq<Revision>, k: nat)
    requires Distinct(chain) && k < |chain|
    ensures Above(chain, chain[k]) == Some(chain[k + 1..])
  {
    if k > 0 {
      assert chain[0] != chain[k];
      AboveIsRest(chain[1..], k - 1);
    }
  }

  /** The plan made from the version table is exactly the part of the chain that is not applied. */
  lemma PlanIsRest(chain: seq<Revision>, db: Database)
    requires Distinct(chain) && UpTo(chain, db)
    ensures Plan(chain, db.version) == Some(chain[|db.applied|..]) && db.applied + chain[|db.applied|..] == chain
  {
    var k := |db.applied|;
    if k > 0 {
      assert db.applied[k - 1] == chain[k - 1];
      AboveIsRest(chain, k - 1);
    }
    assert db.applied == chain[..k];
  }

  lemma UpgradeGoesUp(chain: seq<Revision>, plan: seq<Revision>, work: Database)
    requires UpTo(chain, work) && work.applied + plan == chain && plan != []
    ensures UpTo(chain, Upgraded(work, plan[0])) && Upgraded(work, plan[0]).applied + plan[1..] == chain
    ensures work.applied <= Upgraded(work, plan[0]).applied
  {
    assert [plan[0]] + plan[1..] == plan;
    assert (work.applied + [plan[0]]) + plan[1..] == work.applied + ([plan[0]] + plan[1..]);
  }

  lemma BeginKeepsInv(chain: seq<Revision>, s: State, id: Id)
    requires Distinct(chain) && Inv(chain, s) && id in s.migrators && s.migrators[id].Ready?
    ensures Inv(chain, Begun(chain, s, id))
  {
    PlanIsRest(chain, s.db);
    hide Plan, UpTo, Distinct;
  }

  lemma MigrationKeepsInv(chain: seq<Revision>, s: State, id: Id, plan: seq<Revision>, work: Database, move: Move)
    requires Inv(chain, s) && id in s.migrators && s.migrators[id] == Migrating(plan, work)
    ensures Inv(chain, MigrationMoved(s, id, plan, work, move))
  {
    assert PhaseFits(chain, s, s.migrators[id]);
    if move.Apply? && plan != [] {
      UpgradeGoesUp(chain, plan, work);
      hide UpTo;
      assert PhaseFits(chain, s, Migrating(plan[1..], Upgraded(work, plan[0])));
    } else if move.Commit? && plan == [] {
      CommitKeepsInv(chain, s, id, work);
    }
  }

  lemma CommitKeepsInv(chain: seq<Revision>, s: State, id: Id, work: Database)
    requires Inv(chain, s) && id in s.migrators && s.migrators[id] == Migrating([], work)
    ensures Inv(chain, To(s, id, Committed).(db := work))
  {
    assert PhaseFits(chain, s, s.migrators[id]);
    assert work.applied + [] == work.applied;
    var t := To(s, id, Committed).(db := work);
    hide UpTo;
    forall p | p in t.migrators ensures PhaseFits(chain, t, t.migrators[p]) {
      assert p == id || (PhaseFits(chain, s, s.migrators[p]) && !Inside(s.migrators[p]));
    }
  }

  lemma StepKeepsInv(chain: seq<Revision>, s: State, e: Event)
    requires Distinct(chain) && Inv(chain, s)
    ensures Inv(chain, After(chain, s, e))
  {
    hide UpTo, Distinct, Begun, MigrationMoved;
    if e.By? && e.id in s.migrators && !e.move.Crash? {
      match s.migrators[e.id]
      case Ready => BeginKeepsInv(chain, s, e.id);
      case Migrating(plan, work) => MigrationKeepsInv(chain, s, e.id, plan, work, e.move);
      case _ =>
    }
  }

  lemma {:induction false} RunKeepsInv(chain: seq<Revision>, events: seq<Event>)
    requires Distinct(chain)
    ensures Inv(chain, Run(chain, events))
  {
    if events != [] {
      hide Distinct, After;
      RunKeepsInv(chain, events[..|events| - 1]);
      StepKeepsInv(chain, Run(chain, events[..|events| - 1]), events[|events| - 1]);
    }
  }

  // ---------------------------------------------------------------- main results

  /** In every run at most one migrator is inside, and what is committed is a prefix of the chain. */
  lemma MigratorsSerialize(chain: seq<Revision>, events: seq<Event>)
    requires Distinct(chain)
    ensures var s := Run(chain, events);
      && (forall p, q :: p in s.migrators && q in s.migrators && Inside(s.migrators[p]) && Inside(s.migrators[q]) ==>
        p == q)
      && s.db.applied <= chain
  {
    RunKeepsInv(chain, events);
  }

  /** In every run no revision is applied twice. */
  lemma EachRevisionOnce(chain: seq<Revision>, events: seq<Event>)
    requires Distinct(chain)
    ensures Distinct(Run(chain, events).db.applied)
  {
    RunKeepsInv(chain, events);
    hide PhaseFits, LockFits;
  }

  /** A migrator that ended well has left the database at head, and there it stays. */
  lemma EndedMeansHead(chain: seq<Revision>, events: seq<Event>, p: Id)
    requires Distinct(chain)
    requires var s := Run(chain, events); p in s.migrators && s.migrators[p] == Ended(true)
    ensures var s := Run(chain, events);
      s.db.applied == chain && (chain != [] ==> s.db.version == Some(chain[|chain| - 1]))
  {
    RunKeepsInv(chain, events);
    assert PhaseFits(chain, Run(chain, events), Ended(true));
  }

  lemma StepGoesUp(chain: seq<Revision>, s: State, e: Event)
    requires Inv(chain, s)
    ensures s.db.applied <= After(chain, s, e).db.applied
  {
    if e.By? && e.id in s.migrators {
      assert PhaseFits(chain, s, s.migrators[e.id]);
    }
  }

  /** What is committed is never taken back, whoever fails or crashes; at head every later migrator changes nothing. */
  lemma {:induction false} CommittedStays(chain: seq<Revision>, before: seq<Event>, after: seq<Event>)
    requires Distinct(chain)
    ensures Run(chain, before).db.applied <= Run(chain, before + after).db.applied
    ensures Run(chain, before).db.applied == chain ==> Run(chain, before + after).db == Run(chain, before).db
  {
    if after == [] {
      assert before + after == before;
    } else {
      var init := after[..|after| - 1];
      CommittedStays(chain, before, init);
      RunOneMore(chain, before + init, after[|after| - 1]);
      assert (before + init) + [after[|after| - 1]] == before + after;
      hide Run;
      RunKeepsInv(chain, before);
      RunKeepsInv(chain, before + init);
      RunKeepsInv(chain, before + after);
      StepGoesUp(chain, Run(chain, before + init), after[|after| - 1]);
      hide Inv, PhaseFits, LockFits, After, Distinct;
      AtHead(chain, Run(chain, before), Run(chain, before + after));
    }
  }

  lemma AtHead(chain: seq<Revision>, s: State, t: State)
    requires Inv(chain, s) && Inv(chain, t) && s.db.applied <= t.db.applied
    ensures s.db.applied == chain ==> t.db == s.db
  {
  }

  /** A crashed migrator never wedges the lock: with no live one inside, whoever asks next gets it. */
  lemma CrashesDoNotWedge(chain: seq<Revision>, events: seq<Event>, p: Id)
    requires Distinct(chain)
    requires var s := Run(chain, events); p in s.migrators && s.migrators[p].Started?
    ensures var s := Run(chain, events);
      (forall q :: q in s.migrators ==> !Inside(s.migrators[q])) <==> After(chain, s, By(p, Lock)).holder == Some(p)
  {
    RunKeepsInv(chain, events);
    hide UpTo, PhaseFits, Run;
    var s := Run(chain, events);
    if s.holder.Some? {
      var q := s.holder.value;
      assert q in s.migrators && Inside(s.migrators[q]) && q != p;
      assert After(chain, s, By(p, Lock)).holder == Some(q);
    } else {
      assert forall q :: q in s.migrators ==> !Inside(s.migrators[q]);
      assert After(chain, s, By(p, Lock)).holder == Some(p);
    }
  }

  // ---------------------------------------------------------------- progress

  /** Committing with nothing left to apply makes the whole chain the committed history. */
  lemma CommitMakesHead(chain: seq<Revision>, events: seq<Event>, p: Id)
    requires Distinct(chain)
    requires var s := Run(chain, events); p in s.migrators && s.migrators[p].Migrating? && s.migrators[p].plan == []
    ensures var t := Run(chain, events + [By(p, Commit)]);
      t.db.applied == chain && (chain != [] ==> t.db.version == Some(chain[|chain| - 1])) && t.migrators[p] == Committed
  {
    var s := Run(chain, events);
    RunKeepsInv(chain, events);
    RunOneMore(chain, events, By(p, Commit));
    hide Run, Distinct;
    WorkAtEnd(chain, s, p);
    CommitPublishes(chain, s, p);
  }

  lemma WorkAtEnd(chain: seq<Revision>, s: State, p: Id)
    requires Inv(chain, s) && p in s.migrators && s.migrators[p].Migrating? && s.migrators[p].plan == []
    ensures var work := s.migrators[p].work;
      work.applied == chain && (chain != [] ==> work.version == Some(chain[|chain| - 1]))
  {
    assert PhaseFits(chain, s, s.migrators[p]);
    var work := s.migrators[p].work;
    assert work.applied + [] == work.applied;
  }

  lemma CommitPublishes(chain: seq<Revision>, s: State, p: Id)
    requires p in s.migrators && s.migrators[p].Migrating? && s.migrators[p].plan == []
    ensures After(chain, s, By(p, Commit)) == State(s.migrators[p].work, s.holder, s.migrators[p := Committed])
  {
  }

  /** A failed migration leaves the database as it was and lets the next one in. */
  lemma FailureRollsBack(chain: seq<Revision>, events: seq<Event>, p: Id)
    requires var s := Run(chain, events); p in s.migrators && s.migrators[p].Migrating?
    ensures var s := Run(chain, events);
      Run(chain, (events + [By(p, Fail)]) + [By(p, Unlock)]) == State(s.db, None, s.migrators[p := Ended(false)])
  {
    var s := Run(chain, events);
    hide Run;
    RunOneMore(chain, events, By(p, Fail));
    RunOneMore(chain, events + [By(p, Fail)], By(p, Unlock));
    assert s.migrators[p := RolledBack][p := Ended(false)] == s.migrators[p := Ended(false)];
  }

  lemma RunOneMore(chain: seq<Revision>, events: seq<Event>, e: Event)
    ensures Run(chain, events + [e]) == After(chain, Run(chain, events), e)
  {
    hide After;
    assert (events + [e])[..|events|] == events;
  }

  /** The moves of migrator `p`, in order. */
  function Moves(events: seq<Event>, p: Id): seq<Move> {
    if events == [] then []
    else (if events[0].By? && events[0].id == p then [events[0].move] else []) + Moves(events[1..], p)
  }

  function Applies(n: nat): seq<Move> {
    seq(n, i => Apply)
  }

  /** What a migrator that is inside still has to do, with `left` revisions not applied when it began. */
  function Todo(phase: Phase, left: nat): seq<Move> {
    match phase
    case Locked => [CommitLock, Begin] + Applies(left) + [Commit, Unlock]
    case Ready => [Begin] + Applies(left) + [Commit, Unlock]
    case Migrating(plan, _) => Applies(|plan|) + [Commit, Unlock]
    case Committed => [Unlock]
    case _ => []
  }

  /** Migrator `p` is on its way, or has arrived. */
  predicate OnItsWay(s: State, p: Id) {
    && p in s.migrators
    && (s.migrators[p] == Ended(true) || (Inside(s.migrators[p]) && !s.migrators[p].RolledBack? && s.holder == Some(p)))
  }

  function Left(chain: seq<Revision>, s: State): nat {
    if |s.db.applied| <= |chain| then |chain| - |s.db.applied| else 0
  }

  lemma OthersStepAside(chain: seq<Revision>, s: State, p: Id, e: Event)
    requires Inv(chain, s) && OnItsWay(s, p) && !(e.By? && e.id == p)
    ensures var t := After(chain, s, e);
      OnItsWay(t, p) && t.migrators[p] == s.migrators[p] && (Inside(s.migrators[p]) ==> t.db == s.db)
  {
    hide UpTo, PhaseFits, Plan;
    if e.By? && e.id in s.migrators {
      assert Inside(s.migrators[p]) ==> !Inside(s.migrators[e.id]);
    }
  }

  lemma ApplyOnce(n: nat, after: seq<Move>)
    requires n > 0
    ensures Applies(n) + after == [Apply] + (Applies(n - 1) + after)
  {
  }

  /** The list of things to do is worked off from its front. */
  lemma TodoStarts(plan: seq<Revision>, work: Database, left: nat)
    ensures Todo(Locked, left)[0] == CommitLock && Todo(Locked, left)[1..] == Todo(Ready, left)
    ensures Todo(Ready, left)[0] == Begin && Todo(Ready, left)[1..] == Applies(left) + [Commit, Unlock]
    ensures var todo := Todo(Migrating(plan, work), left);
      if plan == [] then todo == [Commit, Unlock] && todo[1..] == [Unlock]
      else todo[0] == Apply && todo[1..] == Applies(|plan| - 1) + [Commit, Unlock]
  {
    NoApplies();
    if plan != [] {
      ApplyOnce(|plan|, [Commit, Unlock]);
    }
  }

  /** A step of the migrator that takes it on, with the rest of its list left to do. */
  ghost predicate GoesOn(chain: seq<Revision>, s: State, p: Id, m: Move)
    requires p in s.migrators
  {
    var t, todo := After(chain, s, By(p, m)), Todo(s.migrators[p], Left(chain, s));
    todo != [] && m == todo[0] && OnItsWay(t, p) && Todo(t.migrators[p], Left(chain, t)) == todo[1..]
  }

  lemma LockedGoesOn(chain: seq<Revision>, s: State, p: Id)
    requires OnItsWay(s, p) && s.migrators[p] == Locked
    ensures GoesOn(chain, s, p, CommitLock)
  {
    TodoStarts([], s.db, Left(chain, s));
    hide Applies;
  }

  lemma ReadyGoesOn(chain: seq<Revision>, s: State, p: Id)
    requires Distinct(chain) && UpTo(chain, s.db) && OnItsWay(s, p) && s.migrators[p] == Ready
    ensures GoesOn(chain, s, p, Begin)
  {
    PlanIsRest(chain, s.db);
    assert Left(chain, s) == |chain[|s.db.applied|..]|;
    TodoStarts([], s.db, Left(chain, s));
    hide Applies, Distinct, UpTo, Plan, Left;
  }

  lemma MigratingGoesOn(chain: seq<Revision>, s: State, p: Id)
    requires OnItsWay(s, p) && s.migrators[p].Migrating?
    ensures GoesOn(chain, s, p, if s.migrators[p].plan == [] then Commit else Apply)
  {
    var plan, work := s.migrators[p].plan, s.migrators[p].work;
    TodoStarts(plan, work, Left(chain, s));
    if plan == [] {
      CommitPublishes(chain, s, p);
      hide After, Applies, Left;
    } else {
      ApplyGoesUp(chain, s, p);
      hide After, Applies, Left;
    }
  }

  lemma ApplyGoesUp(chain: seq<Revision>, s: State, p: Id)
    requires p in s.migrators && s.migrators[p].Migrating? && s.migrators[p].plan != []
    ensures var plan, work := s.migrators[p].plan, s.migrators[p].work;
      After(chain, s, By(p, Apply)) == To(s, p, Migrating(plan[1..], Upgraded(work, plan[0])))
  {
  }

  lemma CommittedGoesOn(chain: seq<Revision>, s: State, p: Id)
    requires OnItsWay(s, p) && s.migrators[p] == Committed
    ensures GoesOn(chain, s, p, Unlock)
  {
  }

  lemma OwnStepGoesOn(chain: seq<Revision>, s: State, p: Id, m: Move)
    requires Distinct(chain) && Inv(chain, s) && OnItsWay(s, p) && Inside(s.migrators[p])
    requires Todo(s.migrators[p], Left(chain, s)) != [] && m == Todo(s.migrators[p], Left(chain, s))[0]
    ensures GoesOn(chain, s, p, m)
  {
    hide After, Todo, Left, Distinct, UpTo, LockFits, PhaseFits;
    match s.migrators[p]
    case Locked => LockedGoesOn(chain, s, p);
    case Ready => ReadyGoesOn(chain, s, p);
    case Migrating(_, _) => MigratingGoesOn(chain, s, p);
    case Committed => CommittedGoesOn(chain, s, p);
  }

  lemma NoApplies()
    ensures Applies(0) == [] && Applies(0) + [Commit, Unlock] == [Commit, Unlock]
  {
  }

  lemma {:induction false} Arrives(chain: seq<Revision>, before: seq<Event>, events: seq<Event>, p: Id)
    requires Distinct(chain) && OnItsWay(Run(chain, before), p)
    requires Moves(events, p) == Todo(Run(chain, before).migrators[p], Left(chain, Run(chain, before)))
    ensures var t := Run(chain, before + events); p in t.migrators && t.migrators[p] == Ended(true)
    decreases |events|
  {
    var s := Run(chain, before);
    hide Run, After, OnItsWay, Todo, Left, Inv, Distinct;
    if events == [] {
      assert before + events == before;
      NothingLeft(s, p, Left(chain, s));
    } else {
      var e := events[0];
      RunKeepsInv(chain, before);
      RunOneMore(chain, before, e);
      assert (before + [e]) + events[1..] == before + events;
      FirstMove(events, p);
      if e.By? && e.id == p {
        StillInside(s, p, Left(chain, s));
        OwnStepGoesOn(chain, s, p, e.move);
      } else {
        OthersStepAside(chain, s, p, e);
        SameTodo(chain, s, After(chain, s, e), p);
      }
      Arrives(chain, before + [e], events[1..], p);
    }
  }

  lemma FirstMove(events: seq<Event>, p: Id)
    requires events != []
    ensures if events[0].By? && events[0].id == p
            then Moves(events, p) != [] && Moves(events, p)[0] == events[0].move
                 && Moves(events, p)[1..] == Moves(events[1..], p)
            else Moves(events, p) == Moves(events[1..], p)
  {
  }

  lemma NothingLeft(s: State, p: Id, left: nat)
    requires OnItsWay(s, p) && Todo(s.migrators[p], left) == []
    ensures p in s.migrators && s.migrators[p] == Ended(true)
  {
  }

  lemma StillInside(s: State, p: Id, left: nat)
    requires OnItsWay(s, p) && Todo(s.migrators[p], left) != []
    ensures Inside(s.migrators[p])
  {
  }

  lemma SameTodo(chain: seq<Revision>, s: State, t: State, p: Id)
    requires OnItsWay(s, p) && OnItsWay(t, p) && t.migrators[p] == s.migrators[p]
    requires Inside(s.migrators[p]) ==> t.db == s.db
    ensures Todo(t.migrators[p], Left(chain, t)) == Todo(s.migrators[p], Left(chain, s))
  {
  }

  /**
   From any reachable state with the lock free: a migrator that takes it, begins, applies every missing revision,
   commits and unlocks ends well with the database at head, whatever all the others do in between.
   */
  lemma MigratorsArrive(chain: seq<Revision>, before: seq<Event>, events: seq<Event>, p: Id)
    requires Distinct(chain)
    requires var s := Run(chain, before); s.holder == None && p in s.migrators && s.migrators[p] == Started
    requires Moves(events, p)
          == [CommitLock, Begin] + Applies(Left(chain, Run(chain, before))) + [Commit, Unlock]
    ensures var t := Run(chain, (before + [By(p, Lock)]) + events);
      && p in t.migrators && t.migrators[p] == Ended(true)
      && t.db.applied == chain && (chain != [] ==> t.db.version == Some(chain[|chain| - 1]))
  {
    RunOneMore(chain, before, By(p, Lock));
    hide Run;
    Arrives(chain, before + [By(p, Lock)], events, p);
    EndedMeansHead(chain, (before + [By(p, Lock)]) + events, p);
  }
}
