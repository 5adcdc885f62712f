/**
 The serial manager of the UART bridge: one event loop, many coroutines, one shared byte buffer.

 Coroutines interleave only at their `await` points, so every stretch of code between two awaits is one atomic
 step.  `Step` gives the effect of each such stretch on the whole system; `SerialManager` executes the stretches on
 mutable fields.  The `received` and `log` parts are history: every byte ever handed to the buffer, and where each
 byte that has left the buffer went.
 */
module UartBuffer {
  import opened Octets
  import opened Sequences
  import opened Wrappers

  const RING_BUFFER_MAX_BYTES: nat := 1024 * 1024

  /**
   A coroutine is known by the number of the call that started it; a port and its reader by the connect that opened it.
   */
  type TaskId = nat

  /** What a suspended coroutine is waiting for. */
  datatype Task =
    | Opening                                // connect: the port to open
    | StoppingReader(reader: TaskId)         // disconnect: a cancelled reader to finish
    | ClosingPort(port: TaskId)              // disconnect: the port to close
    | Reading                                // background reader: bytes from the port
    | ReadBackoff                            // background reader: the pause after an error
    | ReadCancelled                          // background reader: cancelled, not yet finished
    | WantLock                               // send_command: the serial lock
    | Writing                                // send_command: the write to finish, lock held
    | Waiting(collected: seq<Byte>)          // send_command: the data event, lock held
    | RawWantLock                            // send_raw or send_break: the serial lock
    | RawWriting                             // send_raw or send_break: the write to finish, lock held
    | ReadWaiting                            // read_buffer: the data event
    | ReadDelay                              // read_buffer: the accumulation delay

  /** Where bytes that left the buffer went. */
  datatype Fate = ToCommand(id: TaskId) | ToRead(id: TaskId) | ClearedByCommand(id: TaskId)
                | ClearedByConnect | ClearedByDisconnect | DroppedByCap

  datatype Segment = Segment(fate: Fate, bytes: seq<Byte>)

  datatype Buffer = Buffer(ring: seq<Byte>, dataEvent: bool, received: seq<Byte>, log: seq<Segment>)

  datatype Port = Port(connected: bool, serial: Option<TaskId>, openPorts: set<TaskId>, readerTask: Option<TaskId>)

  datatype State = State(buf: Buffer, port: Port, lock: Option<TaskId>,
                         tasks: map<TaskId, Task>, used: set<TaskId>, outputs: map<TaskId, seq<Byte>>)

  const INIT := State(Buffer([], false, [], []), Port(false, None, {}, None), None, map[], {}, map[])

  /** One atomic stretch of one coroutine, or of an executor thread, grouped by the method it belongs to. */
  datatype Event = OfPort(p: PortEvent) | OfReader(r: ReaderEvent) | OfCommand(c: CommandEvent) | OfRead(d: ReadEvent)

  datatype PortEvent = Connect(id: TaskId) | OpenDone(id: TaskId) | OpenFails(id: TaskId)
                     | Disconnect(id: TaskId) | ReaderStopped(id: TaskId) | PortCloses(id: TaskId)
                     | CloseDone(id: TaskId)

  datatype ReaderEvent = Rx(id: TaskId, data: seq<Byte>) | RxFails(id: TaskId) | BackoffOver(id: TaskId)
                       | PortLost(id: TaskId) | ReaderEnds(id: TaskId)

  datatype CommandEvent = SendCommand(id: TaskId) | LockAcquired(id: TaskId) | WriteDone(id: TaskId, expired: bool)
                        | WriteFails(id: TaskId) | Grab(id: TaskId, done: bool)
                        | SendRaw(id: TaskId) | RawLockAcquired(id: TaskId) | RawDone(id: TaskId)

  datatype ReadEvent = Read(id: TaskId) | ReadWakes(id: TaskId) | ReadDrains(id: TaskId)

  // ---------------------------------------------------------------- the step function

  predicate Connected(p: Port) {
    p.connected && p.serial.Some? && p.serial.value in p.openPorts
  }

  predicate At(s: State, t: TaskId, k: Task) {
    t in s.tasks && s.tasks[t] == k
  }

  predicate ReaderAlive(s: State) {
    s.port.readerTask.Some? && s.port.readerTask.value in s.tasks
  }

  function Spawn(s: State, t: TaskId, k: Task): State {
    s.(tasks := s.tasks[t := k], used := s.used + {t})
  }

  function Goes(s: State, t: TaskId, k: Task): State {
    s.(tasks := s.tasks[t := k])
  }

  function Ends(s: State, t: TaskId): State {
    s.(tasks := s.tasks - {t})
  }

  /** The whole buffer leaves, all of it for one reason. */
  function Drain(b: Buffer, fate: Fate, dataEvent: bool): Buffer {
    Buffer([], dataEvent, b.received, b.log + [Segment(fate, b.ring)])
  }

  function Excess(all: seq<Byte>): nat {
    if |all| > RING_BUFFER_MAX_BYTES then |all| - RING_BUFFER_MAX_BYTES else 0
  }

  /** The newest bytes are kept; the oldest beyond the cap are dropped. */
  function Receive(b: Buffer, data: seq<Byte>): Buffer {
    var all := b.ring + data;
    Buffer(all[Excess(all)..], true, b.received + data,
           if Excess(all) > 0 then b.log + [Segment(DroppedByCap, all[..Excess(all)])] else b.log)
  }

  function FinishDisconnect(s: State, t: TaskId): State {
    Ends(s, t).(buf := Drain(s.buf, ClearedByDisconnect, s.buf.dataEvent),
      port := s.port.(connected := false, serial := None))
  }

  /** The second half of disconnect, once no reader is in the way. */
  function CloseOrFinish(s: State, t: TaskId): State {
    if s.port.serial.Some? && s.port.serial.value in s.port.openPorts then Goes(s, t, ClosingPort(s.port.serial.value))
    else FinishDisconnect(s, t)
  }

  function PortStep(s: State, e: PortEvent): State {
    match e
    case Connect(t) => if t !in s.used && !Connected(s.port) then Spawn(s, t, Opening) else s
    case OpenFails(t) => if At(s, t, Opening) then Ends(s, t) else s
    case OpenDone(t) =>
      if At(s, t, Opening)
      then Goes(s, t, Reading).(buf := Drain(s.buf, ClearedByConnect, false),
                                port := Port(true, Some(t), s.port.openPorts + {t}, Some(t)))
      else s
    case Disconnect(t) =>
      if t in s.used then s
      else if ReaderAlive(s)
      then Goes(Spawn(s, t, StoppingReader(s.port.readerTask.value)), s.port.readerTask.value, ReadCancelled)
      else CloseOrFinish(s.(used := s.used + {t}), t)
    case ReaderStopped(t) =>
      if t in s.tasks && s.tasks[t].StoppingReader? && s.tasks[t].reader !in s.tasks
      then CloseOrFinish(s.(port := s.port.(readerTask := None)), t) else s
    case PortCloses(p) =>
      if exists t :: t in s.tasks && s.tasks[t] == ClosingPort(p)
      then s.(port := s.port.(openPorts := s.port.openPorts - {p})) else s
    case CloseDone(t) =>
      if t in s.tasks && s.tasks[t].ClosingPort? && s.tasks[t].port !in s.port.openPorts then FinishDisconnect(s, t)
        else s
  }

  function ReaderStep(s: State, e: ReaderEvent): State {
    match e
    case Rx(r, data) => if At(s, r, Reading) && data != [] then s.(buf := Receive(s.buf, data)) else s
    case RxFails(r) => if At(s, r, Reading) then Goes(s, r, ReadBackoff) else s
    case BackoffOver(r) => if At(s, r, ReadBackoff) then Goes(s, r, Reading) else s
    case PortLost(r) => if At(s, r, Reading) then Ends(s, r).(port := s.port.(connected := false)) else s
    case ReaderEnds(r) => if At(s, r, ReadCancelled) then Ends(s, r) else s
  }

  function CommandStep(s: State, e: CommandEvent): State {
    match e
    case SendCommand(t) => if t !in s.used && Connected(s.port) then Spawn(s, t, WantLock) else s
    case SendRaw(t) => if t !in s.used && Connected(s.port) then Spawn(s, t, RawWantLock) else s
    case LockAcquired(t) =>
      if s.lock.None? && At(s, t, WantLock)
      then Goes(s, t, Writing).(buf := Drain(s.buf, ClearedByCommand(t), false), lock := Some(t)) else s
    case RawLockAcquired(t) =>
      if s.lock.None? && At(s, t, RawWantLock) then Goes(s, t, RawWriting).(lock := Some(t)) else s
    case WriteFails(t) => if At(s, t, Writing) then Ends(s, t).(lock := None) else s
    case WriteDone(t, expired) =>
      if !At(s, t, Writing) then s
      else if expired then Ends(s, t).(lock := None, outputs := s.outputs[t := []])
      else Goes(s, t, Waiting([]))
    case Grab(t, done) =>
      if !(t in s.tasks && s.tasks[t].Waiting?) then s
      else
        var collected := s.tasks[t].collected + s.buf.ring;
        var buf := Drain(s.buf, ToCommand(t), false);
        if done then Ends(s, t).(buf := buf, lock := None, outputs := s.outputs[t := collected])
        else Goes(s, t, Waiting(collected)).(buf := buf)
    case RawDone(t) => if At(s, t, RawWriting) then Ends(s, t).(lock := None) else s
  }

  function ReadStep(s: State, e: ReadEvent): State {
    match e
    case Read(t) => if t !in s.used && Connected(s.port) then Spawn(s, t, ReadWaiting) else s
    case ReadWakes(t) =>
      if At(s, t, ReadWaiting) then Goes(s, t, ReadDelay).(buf := s.buf.(dataEvent := false)) else s
    case ReadDrains(t) =>
      if At(s, t, ReadDelay)
      then Ends(s, t).(buf := Drain(s.buf, ToRead(t), s.buf.dataEvent), outputs := s.outputs[t := s.buf.ring]) else s
  }

  function Step(s: State, e: Event): State {
    match e
    case OfPort(p) => PortStep(s, p)
    case OfReader(r) => ReaderStep(s, r)
    case OfCommand(c) => CommandStep(s, c)
    case OfRead(d) => ReadStep(s, d)
  }

  function Run(s: State, es: seq<Event>): State
    decreases |es|
  {
    if es == [] then s else Run(Step(s, es[0]), es[1..])
  }

  // ---------------------------------------------------------------- reading the history

  ghost function Flatten(log: seq<Segment>): seq<Byte> {
    if log == [] then [] else Flatten(log[..|log| - 1]) + log[|log| - 1].bytes
  }

  /** The bytes that call `t` was given, in the order it was given them. */
  ghost function Given(log: seq<Segment>, t: TaskId): seq<Byte> {
    if log == [] then []
    else
      var g := log[|log| - 1];
      Given(log[..|log| - 1], t) + if g.fate == ToCommand(t) || g.fate == ToRead(t) then g.bytes else []
  }

  lemma LogGrows(log: seq<Segment>, g: Segment, t: TaskId)
    ensures Flatten(log + [g]) == Flatten(log) + g.bytes
    ensures Given(log + [g], t) == Given(log, t) + if g.fate == ToCommand(t) || g.fate == ToRead(t) then g.bytes else []
  {
    assert (log + [g])[..|log|] == log;
  }

  // ---------------------------------------------------------------- what every step keeps

  /** Every received byte is accounted for exactly once, in arrival order, and the buffer is capped. */
  ghost predicate Conserved(b: Buffer) {
    b.received == Flatten(b.log) + b.ring && |b.ring| <= RING_BUFFER_MAX_BYTES
  }

  /** A coroutine waiting for data is never left asleep beside a buffer with bytes in it. */
  ghost predicate NoLostWakeup(b: Buffer, tasks: map<TaskId, Task>) {
    b.ring != [] ==> b.dataEvent || exists t :: t in tasks && tasks[t].ReadDelay?
  }

  predicate HoldsLock(k: Task) {
    k.Writing? || k.Waiting? || k.RawWriting?
  }

  predicate IsReader(k: Task) {
    k.Reading? || k.ReadBackoff? || k.ReadCancelled?
  }

  /** Exactly one live call holds a taken lock. */
  ghost predicate LockHeld(lock: Option<TaskId>, tasks: map<TaskId, Task>) {
    && (lock.Some? ==> lock.value in tasks)
    && (forall t :: t in tasks ==> (HoldsLock(tasks[t]) <==> lock == Some(t)))
  }

  /** Numbers are not reused and the reader handle names a reader. */
  ghost predicate Numbered(reader: Option<TaskId>, used: set<TaskId>, tasks: map<TaskId, Task>) {
    && tasks.Keys <= used
    && (reader.Some? ==> reader.value in used && (reader.value in tasks ==> IsReader(tasks[reader.value])))
  }

  /** What a call has been handed so far: its return value once it has returned, its collected bytes before. */
  function Holding(s: State, t: TaskId): seq<Byte> {
    if t in s.outputs then s.outputs[t]
    else if t in s.tasks && s.tasks[t].Waiting? then s.tasks[t].collected
    else []
  }

  /** Calls hold exactly what the history says they were given. */
  ghost predicate OutputsAgree(s: State) {
    && s.outputs.Keys <= s.used
    && s.outputs.Keys !! s.tasks.Keys
    && forall t :: Given(s.buf.log, t) == Holding(s, t)
  }

  ghost predicate Inv(s: State) {
    && Conserved(s.buf)
    && NoLostWakeup(s.buf, s.tasks)
    && LockHeld(s.lock, s.tasks)
    && Numbered(s.port.readerTask, s.used, s.tasks)
    && OutputsAgree(s)
  }

  // ---------------------------------------------------------------- proofs, one concern at a time

  lemma ReceiveConserves(b: Buffer, data: seq<Byte>)
    requires Conserved(b)
    ensures Conserved(Receive(b, data))
  {
    hide Flatten;
    var all := b.ring + data;
    var cut, kept := all[..Excess(all)], all[Excess(all)..];
    LogGrows(b.log, Segment(DroppedByCap, cut), 0);
    assert cut + kept == all;
    Regroup(Flatten(b.log), b.ring, data);
    Regroup(Flatten(b.log), cut, kept);
  }

  lemma DrainConserves(b: Buffer, fate: Fate, dataEvent: bool)
    requires Conserved(b)
    ensures Conserved(Drain(b, fate, dataEvent))
  {
    LogGrows(b.log, Segment(fate, b.ring), 0);
  }

  function FateOf(e: Event): Fate {
    match e
    case OfPort(OpenDone(_)) => ClearedByConnect
    case OfPort(_) => ClearedByDisconnect
    case OfReader(_) => DroppedByCap
    case OfCommand(Grab(t, _)) => ToCommand(t)
    case OfCommand(c) => ClearedByCommand(c.id)
    case OfRead(d) => ToRead(d.id)
  }

  predicate Takes(s: State, e: Event, t: TaskId) {
    || (e == OfRead(ReadDrains(t)) && At(s, t, ReadDelay))
    || (e.OfCommand? && e.c.Grab? && e.c.id == t && t in s.tasks && s.tasks[t].Waiting?)
  }

  predicate GivesTo(f: Fate, t: TaskId) {
    f == ToCommand(t) || f == ToRead(t)
  }

  ghost predicate BufferStep(b: Buffer, fate: Fate, data: seq<Byte>, b': Buffer) {
    || b' == b.(dataEvent := b'.dataEvent)
    || b' == Drain(b, fate, b'.dataEvent)
    || b' == Receive(b, data)
  }

  function DataOf(e: Event): seq<Byte> {
    if e.OfReader? && e.r.Rx? then e.r.data else []
  }

  /** What a step can do to the buffer: leave its bytes, drain it for the step's own reason, or receive. */
  lemma BufferSteps(s: State, e: Event)
    ensures BufferStep(s.buf, FateOf(e), DataOf(e), Step(s, e).buf)
    ensures Step(s, e).buf.received == s.buf.received ||
      (DataOf(e) != [] && Step(s, e).buf == Receive(s.buf, DataOf(e)))
  {
  }

  lemma TakingSteps(s: State, e: Event, t: TaskId)
    requires Takes(s, e, t)
    ensures GivesTo(FateOf(e), t) && Step(s, e).buf == Drain(s.buf, FateOf(e), Step(s, e).buf.dataEvent)
  {
  }

  lemma OtherSteps(s: State, e: Event, t: TaskId)
    requires GivesTo(FateOf(e), t) && !Takes(s, e, t)
    ensures Step(s, e).buf == s.buf.(dataEvent := Step(s, e).buf.dataEvent)
  {
  }

  lemma KeepsConserved(s: State, e: Event)
    requires Conserved(s.buf)
    ensures Conserved(Step(s, e).buf)
  {
    BufferSteps(s, e);
    DrainConserves(s.buf, FateOf(e), Step(s, e).buf.dataEvent);
    ReceiveConserves(s.buf, DataOf(e));
  }

  lemma PortKeepsNumbered(s: State, e: PortEvent)
    requires Numbered(s.port.readerTask, s.used, s.tasks)
    ensures var s' := PortStep(s, e); Numbered(s'.port.readerTask, s'.used, s'.tasks)
  {
  }

  /** A reader's number keeps naming a reader, so cancelling it never overwrites another call. */
  lemma KeepsNumbered(s: State, e: Event)
    requires Numbered(s.port.readerTask, s.used, s.tasks)
    ensures var s' := Step(s, e); Numbered(s'.port.readerTask, s'.used, s'.tasks)
  {
    if e.OfPort? {
      PortKeepsNumbered(s, e.p);
    }
  }

  lemma PortKeepsLockHeld(s: State, e: PortEvent)
    requires LockHeld(s.lock, s.tasks) && Numbered(s.port.readerTask, s.used, s.tasks)
    ensures LockHeld(PortStep(s, e).lock, PortStep(s, e).tasks)
  {
  }

  lemma CommandKeepsLockHeld(s: State, e: CommandEvent)
    requires LockHeld(s.lock, s.tasks) && s.tasks.Keys <= s.used
    ensures LockHeld(CommandStep(s, e).lock, CommandStep(s, e).tasks)
  {
  }

  lemma KeepsLockHeld(s: State, e: Event)
    requires LockHeld(s.lock, s.tasks) && Numbered(s.port.readerTask, s.used, s.tasks)
    ensures LockHeld(Step(s, e).lock, Step(s, e).tasks)
  {
    if e.OfPort? {
      PortKeepsLockHeld(s, e.p);
    } else if e.OfCommand? {
      CommandKeepsLockHeld(s, e.c);
    }
  }

  /** A read in its delay stays there until it drains the buffer. */
  lemma DelayLasts(s: State, e: Event, t: TaskId)
    requires At(s, t, ReadDelay) && Numbered(s.port.readerTask, s.used, s.tasks)
    ensures At(Step(s, e), t, ReadDelay) || Step(s, e).buf.ring == []
  {
    match e
    case OfPort(p) => PortKeepsDelay(s, p, t);
    case OfReader(_) =>
    case OfCommand(_) =>
    case OfRead(_) =>
  }

  lemma PortKeepsDelay(s: State, e: PortEvent, t: TaskId)
    requires At(s, t, ReadDelay) && Numbered(s.port.readerTask, s.used, s.tasks)
    ensures At(PortStep(s, e), t, ReadDelay)
  {
  }

  /** Everything but a waking read that clears the event also empties the buffer. */
  lemma KeepsWakeup(s: State, e: Event)
    requires NoLostWakeup(s.buf, s.tasks) && Numbered(s.port.readerTask, s.used, s.tasks)
    ensures NoLostWakeup(Step(s, e).buf, Step(s, e).tasks)
  {
    var s' := Step(s, e);
    if s'.buf.ring != [] && !s'.buf.dataEvent {
      if e.OfRead? && e.d.ReadWakes? && At(s, e.d.id, ReadWaiting) {
        assert s'.tasks[e.d.id].ReadDelay?;
      } else {
        BufferSteps(s, e);
        var t :| t in s.tasks && s.tasks[t].ReadDelay?;
        DelayLasts(s, e, t);
      }
    }
  }

  lemma KeepsKeys(s: State, e: Event)
    requires s.outputs.Keys <= s.used && s.outputs.Keys !! s.tasks.Keys
    requires Numbered(s.port.readerTask, s.used, s.tasks)
    ensures var s' := Step(s, e); s'.outputs.Keys <= s'.used && s'.outputs.Keys !! s'.tasks.Keys
  {
  }

  ghost predicate Keyed(s: State) {
    s.outputs.Keys <= s.used && s.outputs.Keys !! s.tasks.Keys && Numbered(s.port.readerTask, s.used, s.tasks)
  }

  /** Only a grab or a drain of its own changes what a call holds. */
  lemma PortKeepsHoldings(s: State, e: PortEvent, t: TaskId)
    requires Keyed(s)
    ensures Holding(PortStep(s, e), t) == Holding(s, t)
  {
  }

  lemma CommandHoldings(s: State, e: CommandEvent, t: TaskId)
    requires Keyed(s)
    ensures Holding(CommandStep(s, e), t) == Holding(s, t) + if Takes(s, OfCommand(e), t) then s.buf.ring else []
  {
  }

  lemma HoldingSteps(s: State, e: Event, t: TaskId)
    requires Keyed(s)
    ensures Holding(Step(s, e), t) == Holding(s, t) + if Takes(s, e, t) then s.buf.ring else []
  {
    if e.OfPort? {
      PortKeepsHoldings(s, e.p, t);
    } else if e.OfCommand? {
      CommandHoldings(s, e.c, t);
    }
  }

  lemma GivenAfter(b: Buffer, fate: Fate, data: seq<Byte>, b': Buffer, t: TaskId)
    requires BufferStep(b, fate, data, b')
    ensures b' == Drain(b, fate, b'.dataEvent) ==> Given(b'.log, t) == Given(b.log, t) + if GivesTo(fate, t)
      then b.ring else []
    ensures b' != Drain(b, fate, b'.dataEvent) ==> Given(b'.log, t) == Given(b.log, t)
  {
    LogGrows(b.log, Segment(fate, b.ring), t);
    var all := b.ring + data;
    LogGrows(b.log, Segment(DroppedByCap, all[..Excess(all)]), t);
  }

  lemma KeepsHolding(s: State, e: Event, t: TaskId)
    requires Keyed(s) && Given(s.buf.log, t) == Holding(s, t)
    ensures Given(Step(s, e).buf.log, t) == Holding(Step(s, e), t)
  {
    HoldingSteps(s, e, t);
    BufferSteps(s, e);
    GivenAfter(s.buf, FateOf(e), DataOf(e), Step(s, e).buf, t);
    if Takes(s, e, t) {
      TakingSteps(s, e, t);
    } else if GivesTo(FateOf(e), t) {
      OtherSteps(s, e, t);
    }
  }

  lemma KeepsInv(s: State, e: Event)
    requires Inv(s)
    ensures Inv(Step(s, e))
  {
    KeepsConserved(s, e);
    KeepsWakeup(s, e);
    KeepsLockHeld(s, e);
    KeepsNumbered(s, e);
    KeepsKeys(s, e);
    forall t ensures Given(Step(s, e).buf.log, t) == Holding(Step(s, e), t) {
      KeepsHolding(s, e, t);
    }
  }

  // ---------------------------------------------------------------- main results

  /** Every interleaving, from a fresh manager, keeps all of the invariant. */
  lemma {:induction false} EveryRunFrom(s: State, es: seq<Event>)
    requires Inv(s)
    ensures Inv(Run(s, es))
    decreases |es|
  {
    if es != [] {
      KeepsInv(s, es[0]);
      EveryRunFrom(Step(s, es[0]), es[1..]);
    }
  }

  lemma EveryRun(es: seq<Event>)
    ensures var s := Run(INIT, es);
      && s.buf.received == Flatten(s.buf.log) + s.buf.ring
      && |s.buf.ring| <= RING_BUFFER_MAX_BYTES
      && s.buf.ring == s.buf.received[|s.buf.received| - |s.buf.ring|..]
      && (s.buf.ring != [] ==> s.buf.dataEvent || exists t :: t in s.tasks && s.tasks[t].ReadDelay?)
      && (forall t :: t in s.outputs ==> s.outputs[t] == Given(s.buf.log, t))
  {
    EveryRunFrom(INIT, es);
  }

  // ---------------------------------------------------------------- one command between its lock and its return

  /** A call that has given the lock back never has it again. */
  lemma {:induction false} LockKeptThroughout(s: State, es: seq<Event>, t: TaskId)
    requires Inv(s) && MayHold(s, t)
    requires Run(s, es).lock == Some(t)
    ensures s.lock == Some(t)
    decreases |es|
  {
    if es != [] {
      KeepsInv(s, es[0]);
      LockStaysGone(s, es[0], t);
      LockKeptThroughout(Step(s, es[0]), es[1..], t);
    }
  }

  predicate MayHold(s: State, t: TaskId) {
    t in s.used && (t !in s.tasks || HoldsLock(s.tasks[t]))
  }

  lemma PortKeepsMayHold(s: State, e: PortEvent, t: TaskId)
    requires Numbered(s.port.readerTask, s.used, s.tasks) && MayHold(s, t)
    ensures MayHold(PortStep(s, e), t) && PortStep(s, e).lock == s.lock
  {
  }

  lemma CommandKeepsMayHold(s: State, e: CommandEvent, t: TaskId)
    requires MayHold(s, t)
    ensures MayHold(CommandStep(s, e), t)
    ensures s.lock != Some(t) ==> CommandStep(s, e).lock != Some(t)
  {
  }

  lemma LockStaysGone(s: State, e: Event, t: TaskId)
    requires Numbered(s.port.readerTask, s.used, s.tasks) && MayHold(s, t)
    ensures MayHold(Step(s, e), t)
    ensures s.lock != Some(t) ==> Step(s, e).lock != Some(t)
  {
    if e.OfPort? {
      PortKeepsMayHold(s, e.p, t);
    } else if e.OfCommand? {
      CommandKeepsMayHold(s, e.c, t);
    }
  }

  /** Bytes leave the buffer neither to another command nor for another command's start. */
  ghost predicate NoOtherCommand(log: seq<Segment>, t: TaskId) {
    forall i :: 0 <= i < |log| ==>
      !(log[i].fate.ToCommand? && log[i].fate.id != t) && !log[i].fate.ClearedByCommand?
  }

  predicate ForAnother(f: Fate, t: TaskId) {
    (f.ToCommand? && f.id != t) || f.ClearedByCommand?
  }

  /** No other command gets to take or clear anything while the lock is held. */
  lemma OthersWait(s: State, e: CommandEvent, t: TaskId)
    requires LockHeld(s.lock, s.tasks) && s.lock == Some(t) && ForAnother(FateOf(OfCommand(e)), t)
    ensures CommandStep(s, e).buf == s.buf
  {
  }

  lemma BufferStepLog(b: Buffer, fate: Fate, data: seq<Byte>, b': Buffer, t: TaskId)
    requires BufferStep(b, fate, data, b') && (ForAnother(fate, t) ==> b' == b.(dataEvent := b'.dataEvent))
    ensures b.log <= b'.log && NoOtherCommand(b'.log[|b.log|..], t)
  {
    hide Excess;
  }

  lemma ExclusiveStep(s: State, e: Event, t: TaskId)
    requires Inv(s) && s.lock == Some(t)
    ensures s.buf.log <= Step(s, e).buf.log
    ensures NoOtherCommand(Step(s, e).buf.log[|s.buf.log|..], t)
  {
    if e.OfCommand? && ForAnother(FateOf(e), t) {
      OthersWait(s, e.c, t);
    }
    BufferSteps(s, e);
    assert ForAnother(FateOf(e), t) ==> Step(s, e).buf == s.buf.(dataEvent := Step(s, e).buf.dataEvent);
    hide Step, BufferStep, FateOf, DataOf, NoOtherCommand, ForAnother, Inv;
    BufferStepLog(s.buf, FateOf(e), DataOf(e), Step(s, e).buf, t);
  }

  lemma NoOthersJoin(a: seq<Segment>, b: seq<Segment>, t: TaskId)
    requires NoOtherCommand(a, t) && NoOtherCommand(b, t)
    ensures NoOtherCommand(a + b, t)
  {
  }

  /** While a command holds the lock, whatever else interleaves, no other command takes or clears a byte. */
  lemma {:induction false} CommandsExclude(s: State, es: seq<Event>, t: TaskId)
    requires Inv(s) && s.lock == Some(t) && Run(s, es).lock == Some(t)
    ensures s.buf.log <= Run(s, es).buf.log
    ensures NoOtherCommand(Run(s, es).buf.log[|s.buf.log|..], t)
    decreases |es|
  {
    hide Step, Conserved, OutputsAgree, NoLostWakeup;
    if es != [] {
      hide NoOtherCommand;
      var m := Step(s, es[0]);
      ExclusiveStep(s, es[0], t);
      KeepsInv(s, es[0]);
      LockStaysGone(s, es[0], t);
      LockKeptThroughout(m, es[1..], t);
      CommandsExclude(m, es[1..], t);
      var n, k, l := |s.buf.log|, |m.buf.log|, Run(s, es).buf.log;
      assert l[n..] == m.buf.log[n..] + l[k..];
      NoOthersJoin(m.buf.log[n..], l[k..], t);
    }
  }

  /** No connect, disconnect or read completes. */
  predicate Quiet(e: Event) {
    && !(e.OfPort? && (e.p.OpenDone? || e.p.Disconnect? || e.p.ReaderStopped? || e.p.CloseDone?))
    && !(e.OfRead? && e.d.ReadDrains?)
  }

  ghost predicate Sees(held: seq<Byte>, b: Buffer, n: nat) {
    n <= |b.received| && held + b.ring == b.received[n..]
  }

  ghost predicate SeesAll(s: State, t: TaskId, n: nat) {
    Sees(Holding(s, t), s.buf, n)
  }

  lemma ReceiveSees(held: seq<Byte>, b: Buffer, data: seq<Byte>, n: nat)
    requires Sees(held, b, n) && |b.received| + |data| - n <= RING_BUFFER_MAX_BYTES
    ensures Sees(held, Receive(b, data), n)
  {
    assert |b.ring + data| <= RING_BUFFER_MAX_BYTES;
    assert held + (b.ring + data) == (held + b.ring) + data == (b.received + data)[n..];
  }

  lemma {:induction false} ReceivedGrows(s: State, es: seq<Event>)
    ensures s.buf.received <= Run(s, es).buf.received
    decreases |es|
  {
    if es != [] {
      BufferSteps(s, es[0]);
      ReceivedGrows(Step(s, es[0]), es[1..]);
    }
  }

  lemma ReceiveAdds(b: Buffer, data: seq<Byte>)
    ensures Receive(b, data).received == b.received + data
  {
  }

  lemma QuietDrains(s: State, e: Event, t: TaskId)
    requires LockHeld(s.lock, s.tasks) && s.lock == Some(t) && Quiet(e)
    ensures var b := Step(s, e).buf;
      b == s.buf.(dataEvent := b.dataEvent) || Takes(s, e, t) || (b == Receive(s.buf, DataOf(e)) && !Takes(s, e, t))
  {
  }

  lemma QuietStep(s: State, e: Event, t: TaskId, n: nat)
    requires Keyed(s) && LockHeld(s.lock, s.tasks) && s.lock == Some(t) && SeesAll(s, t, n) && Quiet(e)
    requires |Step(s, e).buf.received| - n <= RING_BUFFER_MAX_BYTES
    ensures SeesAll(Step(s, e), t, n)
  {
    hide Step, Takes, Holding, Receive, Quiet, GivesTo, FateOf, DataOf;
    HoldingSteps(s, e, t);
    QuietDrains(s, e, t);
    if Takes(s, e, t) {
      TakingSteps(s, e, t);
      assert Holding(Step(s, e), t) + [] == Holding(s, t) + s.buf.ring;
    } else if Step(s, e).buf == Receive(s.buf, DataOf(e)) {
      ReceiveAdds(s.buf, DataOf(e));
      ReceiveSees(Holding(s, t), s.buf, DataOf(e), n);
    }
  }

  lemma {:induction false} QuietRun(s: State, es: seq<Event>, t: TaskId, n: nat)
    requires Inv(s) && s.lock == Some(t) && Run(s, es).lock == Some(t) && SeesAll(s, t, n)
    requires forall e :: e in es ==> Quiet(e)
    requires |Run(s, es).buf.received| - n <= RING_BUFFER_MAX_BYTES
    ensures SeesAll(Run(s, es), t, n)
    decreases |es|
  {
    if es != [] {
      var m := Step(s, es[0]);
      KeepsInv(s, es[0]);
      LockStaysGone(s, es[0], t);
      LockKeptThroughout(m, es[1..], t);
      ReceivedGrows(m, es[1..]);
      QuietStep(s, es[0], t, n);
      QuietRun(m, es[1..], t, n);
    }
  }

  /**
   A command returns exactly the bytes that arrived between taking the lock and its last look at the buffer, as long as
   at most a bufferful arrived and no connect, disconnect or read came in between.
   */
  lemma CommandReturnsItsBytes(s: State, t: TaskId, es: seq<Event>)
    requires Inv(s) && s.lock.None? && At(s, t, WantLock)
    requires forall e :: e in es ==> Quiet(e)
    requires var m := Run(Step(s, OfCommand(LockAcquired(t))), es);
      && t in m.tasks && m.tasks[t].Waiting?
      && |m.buf.received| - |s.buf.received| <= RING_BUFFER_MAX_BYTES
    ensures var m := Run(Step(s, OfCommand(LockAcquired(t))), es);
            var f := Step(m, OfCommand(Grab(t, true)));
      && |s.buf.received| <= |f.buf.received| && t in f.outputs
      && f.outputs[t] == f.buf.received[|s.buf.received|..]
      && f.buf.ring == [] && f.lock.None?
  {
    var start := Step(s, OfCommand(LockAcquired(t)));
    KeepsInv(s, OfCommand(LockAcquired(t)));
    EveryRunFrom(start, es);
    QuietRun(start, es, t, |s.buf.received|);
  }

  // ---------------------------------------------------------------- since the last connect

  /** The bytes in the buffer arrived after the first `n`. */
  ghost predicate Recent(b: Buffer, n: nat) {
    n + |b.ring| <= |b.received|
  }

  lemma RecentStep(s: State, e: Event, n: nat)
    requires Recent(s.buf, n)
    ensures Recent(Step(s, e).buf, n)
  {
    BufferSteps(s, e);
    hide Step, FateOf, DataOf;
  }

  lemma {:induction false} RecentRun(s: State, es: seq<Event>, n: nat)
    requires Recent(s.buf, n)
    ensures Recent(Run(s, es).buf, n)
    decreases |es|
  {
    if es != [] {
      RecentStep(s, es[0], n);
      RecentRun(Step(s, es[0]), es[1..], n);
    }
  }

  /** Opening the port empties the buffer, lowers the event and starts the reader. */
  lemma ConnectStartsEmpty(s: State, t: TaskId)
    requires At(s, t, Opening)
    ensures var m := Step(s, OfPort(OpenDone(t)));
      && m.buf.ring == [] && !m.buf.dataEvent && m.buf.received == s.buf.received
      && m.buf.log == s.buf.log + [Segment(ClearedByConnect, s.buf.ring)]
      && Connected(m.port) && m.port.readerTask == Some(t) && At(m, t, Reading)
  {
  }

  /**
   Whatever happens after a connect, a read returns the newest received bytes, and only ones that arrived since the
   connect.
   */
  lemma ReadsAreSinceConnect(s: State, t: TaskId, es: seq<Event>, r: TaskId)
    requires Inv(s) && At(s, t, Opening)
    requires At(Run(Step(s, OfPort(OpenDone(t))), es), r, ReadDelay)
    ensures var m := Run(Step(s, OfPort(OpenDone(t))), es);
            var f := Step(m, OfRead(ReadDrains(r)));
      && r in f.outputs && |s.buf.received| + |f.outputs[r]| <= |f.buf.received|
      && f.outputs[r] == f.buf.received[|f.buf.received| - |f.outputs[r]|..]
  {
    var start := Step(s, OfPort(OpenDone(t)));
    ConnectStartsEmpty(s, t);
    KeepsInv(s, OfPort(OpenDone(t)));
    EveryRunFrom(start, es);
    RecentRun(start, es, |s.buf.received|);
    var m := Run(start, es);
    assert m.buf.received == Flatten(m.buf.log) + m.buf.ring;
  }

  // ---------------------------------------------------------------- calls left alone

  /** A command that nothing interrupts returns what the reader delivered after its write, and frees the lock. */
  lemma CommandAlone(s: State, t: TaskId, reader: TaskId, data: seq<Byte>)
    requires Connected(s.port) && t !in s.used && t !in s.tasks && s.lock.None?
    requires reader != t && At(s, reader, Reading) && data != []
    ensures var called := Step(s, OfCommand(SendCommand(t)));
            var locked := Step(called, OfCommand(LockAcquired(t)));
            var written := Step(locked, OfCommand(WriteDone(t, false)));
            var arrived := Step(written, OfReader(Rx(reader, data)));
            var done := Step(arrived, OfCommand(Grab(t, true)));
      && locked.lock == Some(t) && locked.buf.ring == [] && !locked.buf.dataEvent
      && arrived.buf.dataEvent && !done.buf.dataEvent
      && t in done.outputs && t !in done.tasks && done.lock == None && done.buf.ring == []
      && (|data| <= RING_BUFFER_MAX_BYTES ==> done.outputs[t] == data)
  {
    var locked := Step(Step(s, OfCommand(SendCommand(t))), OfCommand(LockAcquired(t)));
    assert locked.buf.ring == [] && At(locked, t, Writing) && At(locked, reader, Reading);
    var arrived := Step(Step(locked, OfCommand(WriteDone(t, false))), OfReader(Rx(reader, data)));
    assert [] + data == data;
  }

  /** A command whose write takes too long returns nothing and frees the lock. */
  lemma LateWriteGivesUp(s: State, t: TaskId)
    requires At(s, t, Writing)
    ensures var done := Step(s, OfCommand(WriteDone(t, true)));
      t in done.outputs && done.outputs[t] == [] && t !in done.tasks && done.lock == None && done.buf == s.buf
  {
  }

  /** A poll that does not see the prompt adds the buffer to what is collected, and waits on with the lock. */
  lemma PollGoesOn(s: State, t: TaskId, collected: seq<Byte>)
    requires At(s, t, Waiting(collected))
    ensures var next := Step(s, OfCommand(Grab(t, false)));
      && At(next, t, Waiting(collected + s.buf.ring)) && next.buf.ring == [] && !next.buf.dataEvent
      && next.lock == s.lock && next.outputs == s.outputs && next.port == s.port
  {
  }

  /** A raw write that nothing interrupts takes the lock, leaves every byte where it was, and frees the lock. */
  lemma RawWriteAlone(s: State, t: TaskId)
    requires Connected(s.port) && t !in s.used && t !in s.tasks && s.lock.None?
    ensures var locked := Step(Step(s, OfCommand(SendRaw(t))), OfCommand(RawLockAcquired(t)));
            var done := Step(locked, OfCommand(RawDone(t)));
      locked.lock == Some(t) && done == s.(used := s.used + {t})
  {
    assert s.tasks[t := RawWantLock][t := RawWriting] - {t} == s.tasks;
  }

  /** A reader survives an error and its pause; a lost port ends it and the connection. */
  lemma ReaderRecovers(s: State, reader: TaskId)
    requires At(s, reader, Reading)
    ensures Step(Step(s, OfReader(RxFails(reader))), OfReader(BackoffOver(reader))) == s
    ensures var lost := Step(s, OfReader(PortLost(reader)));
      !Connected(lost.port) && reader !in lost.tasks && lost.buf == s.buf && lost.lock == s.lock
  {
    assert s.tasks[reader := ReadBackoff][reader := Reading] == s.tasks;
  }

  /** Connecting twice, and calling without a connection, changes nothing; a failed open leaves no connection behind. */
  lemma CallsRefused(s: State, t: TaskId)
    ensures Connected(s.port) ==> Step(s, OfPort(Connect(t))) == s
    ensures !Connected(s.port) ==> Step(s, OfCommand(SendCommand(t))) == s && Step(s, OfCommand(SendRaw(t))) == s
                                   && Step(s, OfRead(Read(t))) == s
    ensures !Connected(s.port) && t !in s.used && t !in s.tasks ==>
              Step(Step(s, OfPort(Connect(t))), OfPort(OpenFails(t))) == s.(used := s.used + {t})
  {
    assert t !in s.tasks ==> s.tasks[t := Opening] - {t} == s.tasks;
  }

  /** A read that nothing interrupts returns the whole buffer and empties it. */
  lemma ReadAlone(s: State, t: TaskId)
    requires Connected(s.port) && t !in s.used && t !in s.tasks
    ensures var done := Step(Step(Step(s, OfRead(Read(t))), OfRead(ReadWakes(t))), OfRead(ReadDrains(t)));
      && t in done.outputs && done.outputs[t] == s.buf.ring && t !in done.tasks
      && done.buf.ring == [] && done.buf.received == s.buf.received && !done.buf.dataEvent
      && done.lock == s.lock && done.port == s.port
  {
  }

  /** A disconnect stops the reader, closes the port, and leaves no byte behind. */
  lemma DisconnectAlone(s: State, t: TaskId, reader: TaskId)
    requires Connected(s.port) && s.port.readerTask == Some(reader) && reader in s.tasks
    requires t !in s.used && t !in s.tasks && t != reader
    ensures var cancelled := Step(s, OfPort(Disconnect(t)));
            var stopped := Step(Step(cancelled, OfReader(ReaderEnds(reader))), OfPort(ReaderStopped(t)));
            var closed := Step(stopped, OfPort(PortCloses(s.port.serial.value)));
            var done := Step(closed, OfPort(CloseDone(t)));
      && !Connected(done.port) && done.port.readerTask == None && reader !in done.tasks && t !in done.tasks
      && done.port.openPorts == s.port.openPorts - {s.port.serial.value}
      && done.buf.ring == [] && done.buf.dataEvent == s.buf.dataEvent
  {
    var cancelled := Step(s, OfPort(Disconnect(t)));
    assert At(cancelled, t, StoppingReader(reader)) && At(cancelled, reader, ReadCancelled);
    var ended := Step(cancelled, OfReader(ReaderEnds(reader)));
    assert reader !in ended.tasks && At(ended, t, StoppingReader(reader));
    var stopped := Step(ended, OfPort(ReaderStopped(t)));
    assert At(stopped, t, ClosingPort(s.port.serial.value));
    var closed := Step(stopped, OfPort(PortCloses(s.port.serial.value)));
    assert At(closed, t, ClosingPort(s.port.serial.value)) && s.port.serial.value !in closed.port.openPorts;
  }

  // ---------------------------------------------------------------- the buffer on mutable fields

  /** What is left in an empty buffer after `data` arrives. */
  function Newest(data: seq<Byte>): seq<Byte> {
    data[Excess(data)..]
  }

  ghost function Grabbed(arrivals: seq<seq<Byte>>): seq<Byte> {
    if arrivals == [] then [] else Grabbed(arrivals[..|arrivals| - 1]) + Newest(arrivals[|arrivals| - 1])
  }

  ghost function Joined(arrivals: seq<seq<Byte>>): seq<Byte> {
    if arrivals == [] then [] else Joined(arrivals[..|arrivals| - 1]) + arrivals[|arrivals| - 1]
  }

  class SerialManager {
    var ringBuffer: seq<Byte>
    var dataEvent: bool
    ghost var received: seq<Byte>
    ghost var log: seq<Segment>

    ghost function View(): Buffer
      reads this
    {
      Buffer(ringBuffer, dataEvent, received, log)
    }

    constructor ()
      ensures View() == INIT.buf
    {
      ringBuffer, dataEvent, received, log := [], false, [], [];
    }

    /** The reader's stretch after a read: append, cut the excess off the front, raise the event. */
    method BackgroundReader(data: seq<Byte>)
      modifies this
      ensures View() == if data == [] then old(View()) else Receive(old(View()), data)
    {
      if data != [] {
        ringBuffer := ringBuffer + data;
        received := received + data;
        if |ringBuffer| > RING_BUFFER_MAX_BYTES {
          var excess := |ringBuffer| - RING_BUFFER_MAX_BYTES;
          log := log + [Segment(DroppedByCap, ringBuffer[..excess])];
          ringBuffer := ringBuffer[excess..];
        }
        dataEvent := true;
      }
    }

    method Clear(ghost why: Fate, clearEvent: bool)
      modifies this
      ensures View() == Drain(old(View()), why, old(dataEvent) && !clearEvent)
    {
      log := log + [Segment(why, ringBuffer)];
      ringBuffer := [];
      if clearEvent {
        dataEvent := false;
      }
    }

    /** One turn of the polling loop: the wait, during which `arrived` came in, and the grab. */
    method Poll(ghost t: TaskId, arrived: seq<Byte>) returns (grabbed: seq<Byte>)
      requires ringBuffer == []
      modifies this
      ensures grabbed == Newest(arrived) && ringBuffer == [] && !dataEvent && received == old(received) + arrived
      ensures old(Conserved(View())) ==> Conserved(View())
    {
      ghost var waiting := View();
      BackgroundReader(arrived);
      ghost var filled := View();
      assert [] + arrived == arrived && arrived[0..] == arrived;
      grabbed := ringBuffer;
      Clear(ToCommand(t), true);
      if Conserved(waiting) {
        ReceiveConserves(waiting, arrived);
        DrainConserves(filled, ToCommand(t), false);
      }
    }

    /**
     The polling loop of send_command.  `arrivals[i]` is what the reader delivered during the i-th wait, and the
     deadline passes after the last of them.  The loop stops at the first poll after which the prompt is seen.
     */
    method SendCommand(ghost t: TaskId, arrivals: seq<seq<Byte>>, seesPrompt: seq<Byte> -> bool)
      returns (collected: seq<Byte>, polls: nat)
      modifies this
      ensures polls <= |arrivals| && collected == Grabbed(arrivals[..polls])
      ensures polls < |arrivals| ==> polls > 0 && seesPrompt(collected)
      ensures forall k :: 0 < k < polls ==> !seesPrompt(Grabbed(arrivals[..k]))
      ensures ringBuffer == [] && !dataEvent && received == old(received) + Joined(arrivals[..polls])
      ensures old(Conserved(View())) ==> Conserved(View())
    {
      hide Conserved, Newest;
      ghost var before := View();
      Clear(ClearedByCommand(t), true);
      if Conserved(before) {
        DrainConserves(before, ClearedByCommand(t), false);
      }
      collected, polls := [], 0;
      var done := false;
      while polls < |arrivals| && !done
        invariant polls <= |arrivals| && collected == Grabbed(arrivals[..polls])
        invariant done ==> polls > 0 && seesPrompt(collected)
        invariant forall k :: 0 < k < polls || (k == polls > 0 && !done) ==> !seesPrompt(Grabbed(arrivals[..k]))
        invariant ringBuffer == [] && !dataEvent && received == old(received) + Joined(arrivals[..polls])
        invariant old(Conserved(View())) ==> Conserved(View())
        decreases |arrivals| - polls, !done
      {
        var grabbed := Poll(t, arrivals[polls]);
        collected := collected + grabbed;
        assert arrivals[..polls + 1][..polls] == arrivals[..polls];
        polls := polls + 1;
        done := seesPrompt(collected);
      }
    }
  }
}
