/**
 The device bridge's dump engine: partitions dumped one after another, each with retries, while cancel requests may
 arrive at any await.  What each await brings is read off a script, so a statement about every script is a statement
 about every schedule of cancels, chunks, stalls and failures.
 */
module DumpEngine {
  import opened Octets
  import opened Sequences
  import opened Wrappers

  const PROGRESS_INTERVAL: nat := 4 * 1024 * 1024
  const MAX_RETRIES: nat := 2

  /** One await: how many cancel requests other clients make during it, and whether it raises. */
  datatype Tick = Tick(cancels: nat, failure: Option<string>)

  /** What one read of the process output brings; no bytes is the end of the stream. */
  datatype Chunk = Data(bytes: seq<Byte>) | TimedOut | Broken(message: string)

  datatype Status = Complete | Skipped | Cancelled | Error(message: string) | Rejected

  datatype Report = Report(partition: string, status: Status, size: nat, retries: nat)

  /**
   History: a cancel request answered `cancelling`; one partition's dump starting, which clears the flag; what an
   attempt came to; a report.
   */
  datatype Note =
    | Accepted | Started(partition: string, flagWas: bool) | Tried(partition: string, status: Status)
    | Reported(report: Report)

  // ---------------------------------------------------------------- names and messages

  predicate NameChar(c: char) {
    'a' <= c <= 'z' || 'A' <= c <= 'Z' || '0' <= c <= '9' || c == '_' || c == '-'
  }

  /** The name pattern; its end anchor also accepts one final newline. */
  predicate ValidName(p: string) {
    var body := if p != "" && p[|p| - 1] == '\n' then p[..|p| - 1] else p;
    body != "" && forall c :: c in body ==> NameChar(c)
  }

  /** Letters, digits, underscores and dashes, at least one, and perhaps a newline at the end. */
  ghost predicate IsName(p: string, body: string) {
    && body != "" && (p == body || p == body + "\n")
    && forall i :: 0 <= i < |body| ==>
         'a' <= body[i] <= 'z' || 'A' <= body[i] <= 'Z' || '0' <= body[i] <= '9' || body[i] == '_' || body[i] == '-'
  }

  lemma ValidNames(p: string)
    ensures ValidName(p) <==> exists body :: IsName(p, body)
  {
    if ValidName(p) {
      var cut := if p[|p| - 1] == '\n' then p[..|p| - 1] else p;
      forall i | 0 <= i < |cut| ensures NameChar(cut[i]) {
        assert cut[i] in cut;
      }
      assert IsName(p, cut);
    }
    if body :| IsName(p, body) {
      if p == body + "\n" {
        assert p[|p| - 1] == '\n' && p[..|p| - 1] == body;
      } else {
        assert body[|body| - 1] != '\n';
      }
    }
  }

  function Lower(s: string): string {
    seq(|s|, i requires 0 <= i < |s| => if 'A' <= s[i] <= 'Z' then s[i] + 32 as char else s[i])
  }

  predicate OccursAt(s: string, part: string, i: int) {
    0 <= i <= |s| - |part| && s[i..i + |part|] == part
  }

  predicate Contains(s: string, part: string) {
    exists i :: 0 <= i <= |s| && OccursAt(s, part, i)
  }

  predicate Retryable(message: string) {
    !Contains(Lower(message), "permission") && !Contains(Lower(message), "not installed")
  }

  /** `part`, a text of small letters and spaces, stands at `i` in either case. */
  predicate ReadsAt(s: string, part: string, i: int) {
    0 <= i <= |s| - |part| && forall j {:trigger part[j]} :: 0 <= j < |part| ==>
      s[i + j] == part[j] || ('a' <= part[j] <= 'z' && s[i + j] as int + 32 == part[j] as int)
  }

  lemma LowerReads(s: string, part: string, i: int)
    requires forall c :: c in part ==> 'a' <= c <= 'z' || c == ' '
    ensures OccursAt(Lower(s), part, i) <==> ReadsAt(s, part, i)
  {
    if 0 <= i <= |s| - |part| {
      forall j | 0 <= j < |part|
        ensures Lower(s)[i + j] == part[j] <==>
                s[i + j] == part[j] || ('a' <= part[j] <= 'z' && s[i + j] as int + 32 == part[j] as int)
      {
        assert part[j] in part;
      }
      var here := Lower(s)[i..i + |part|];
      assert forall j {:trigger part[j]} :: 0 <= j < |part| ==> here[j] == Lower(s)[i + j];
    }
  }

  /** An error is hopeless exactly if it mentions a permission or a missing installation, in any case. */
  lemma HopelessErrors(message: string)
    ensures !Retryable(message) <==>
            exists i :: 0 <= i <= |message|
              && (ReadsAt(message, "permission", i) || ReadsAt(message, "not installed", i))
  {
    forall i
      ensures OccursAt(Lower(message), "permission", i) <==> ReadsAt(message, "permission", i)
      ensures OccursAt(Lower(message), "not installed", i) <==> ReadsAt(message, "not installed", i)
    {
      LowerReads(message, "permission", i);
      LowerReads(message, "not installed", i);
    }
  }

  // ---------------------------------------------------------------- reading the history

  /** Nothing starts, and so nothing clears the flag, once a cancel has been accepted. */
  ghost predicate Honoured(notes: seq<Note>) {
    notes == [] ||
    (Honoured(notes[..|notes| - 1]) && !(notes[|notes| - 1].Started? && Accepted in notes[..|notes| - 1]))
  }

  /** The history without the cancel requests. */
  ghost function Work(notes: seq<Note>): seq<Note> {
    if notes == [] then []
    else Work(notes[..|notes| - 1]) + if notes[|notes| - 1].Accepted? then [] else [notes[|notes| - 1]]
  }

  /** The reports, in order. */
  ghost function Told(notes: seq<Note>): seq<Report> {
    if notes == [] then []
    else Told(notes[..|notes| - 1]) + if notes[|notes| - 1].Reported? then [notes[|notes| - 1].report] else []
  }

  /** The reports made after the first accepted cancel. */
  ghost function LateReports(notes: seq<Note>): nat {
    if notes == [] then 0
    else LateReports(notes[..|notes| - 1]) + if notes[|notes| - 1].Reported? && Accepted in notes then 1 else 0
  }

  lemma {:induction false} HonouredMeans(notes: seq<Note>, i: nat, j: nat)
    requires Honoured(notes) && i < j < |notes| && notes[i] == Accepted
    ensures !notes[j].Started?
  {
    var init := notes[..|notes| - 1];
    if j == |notes| - 1 {
      assert init[i] == Accepted;
    } else {
      assert init[i] == notes[i] && init[j] == notes[j];
      HonouredMeans(init, i, j);
    }
  }

  lemma OneMoreNote(notes: seq<Note>, n: Note)
    ensures Honoured(notes + [n]) == (Honoured(notes) && !(n.Started? && Accepted in notes))
    ensures Work(notes + [n]) == Work(notes) + if n.Accepted? then [] else [n]
    ensures Told(notes + [n]) == Told(notes) + if n.Reported? then [n.report] else []
    ensures LateReports(notes + [n]) == LateReports(notes) + if n.Reported? && Accepted in notes then 1 else 0
  {
    assert (notes + [n])[..|notes|] == notes;
  }

  /** `later` follows `notes` with nothing but accepted cancels in between. */
  ghost predicate OnlyCancels(notes: seq<Note>, later: seq<Note>) {
    notes <= later && forall i :: |notes| <= i < |later| ==> later[i] == Accepted
  }

  lemma {:induction false} CancelsKeep(notes: seq<Note>, later: seq<Note>)
    requires OnlyCancels(notes, later)
    ensures Honoured(later) == Honoured(notes) && LateReports(later) == LateReports(notes)
    ensures Work(later) == Work(notes) && Told(later) == Told(notes)
    ensures Accepted in later <==> Accepted in notes || |later| > |notes|
    decreases |later|
  {
    if |later| == |notes| {
      assert later == notes;
    } else {
      var init := later[..|later| - 1];
      assert later == init + [Accepted];
      OneMoreNote(init, Accepted);
      CancelsKeep(notes, init);
    }
  }

  // ---------------------------------------------------------------- the engine

  /** Nobody cancels, nothing raises, and every read brings bytes or the end of a stream. */
  ghost predicate Quiet(script: seq<Tick>, stdout: seq<Chunk>) {
    (forall t :: t in script ==> t == Tick(0, None)) && (forall c :: c in stdout ==> c.Data?)
  }

  /** Every report is of an image that is there. */
  predicate AllThere(results: seq<Report>) {
    forall k :: 0 <= k < |results| ==> results[k].status.Complete? || results[k].status.Skipped?
  }

  /** Reads that all brought bytes. */
  ghost predicate Flowing(taken: seq<Chunk>) {
    forall k :: 0 <= k < |taken| ==> taken[k].Data? && taken[k].bytes != []
  }

  /** What the reads of one dump say about its outcome: all but the last brought bytes, and the last one decides. */
  ghost predicate EndsAs(taken: seq<Chunk>, more: bool, stopped: Option<Status>) {
    if Flowing(taken) then stopped == None ==> !more
    else
      && Flowing(taken[..|taken| - 1])
      && stopped == match taken[|taken| - 1] {
           case TimedOut => Some(Error("Stall timeout: no data received for 60s"))
           case Broken(message) => Some(Error(message))
           case Data(_) => None
         }
  }

  lemma CancelsChain(a: seq<Note>, b: seq<Note>, c: seq<Note>)
    requires OnlyCancels(a, b) && OnlyCancels(b, c)
    ensures OnlyCancels(a, c) && |a| <= |b| <= |c|
  {
  }

  /** The bytes of a stretch of reads. */
  ghost function Stream(stdout: seq<Chunk>): seq<Byte> {
    if stdout == [] then []
    else Stream(stdout[..|stdout| - 1]) + if stdout[|stdout| - 1].Data? then stdout[|stdout| - 1].bytes else []
  }

  lemma StreamGrows(stdout: seq<Chunk>, k: nat)
    requires k < |stdout|
    ensures Stream(stdout[..k + 1]) == Stream(stdout[..k]) + if stdout[k].Data? then stdout[k].bytes else []
  {
    assert stdout[..k + 1][..k] == stdout[..k];
  }

  /** Halfway through a dump: everything read so far brought bytes, and the image holds them. */
  ghost predicate Copied(all: seq<Chunk>, rest: seq<Chunk>, image: seq<Byte>) {
    |rest| <= |all| &&
    var taken := all[..|all| - |rest|];
    rest == all[|all| - |rest|..] && Flowing(taken) && image == Stream(taken)
  }

  /** The image holds the bytes of everything read from `all`, of which `rest` is left. */
  ghost predicate Holds(image: seq<Byte>, all: seq<Chunk>, rest: seq<Chunk>) {
    |rest| <= |all| && rest == all[|all| - |rest|..] && image == Stream(all[..|all| - |rest|])
  }

  /** A finished dump: the image holds what was read, and what was read says how the dump ended. */
  ghost predicate CopyEnded(all: seq<Chunk>, rest: seq<Chunk>, image: seq<Byte>, stopped: Option<Status>) {
    Holds(image, all, rest) && EndsAs(all[..|all| - |rest|], rest != [], stopped)
  }

  lemma CopyStarts(all: seq<Chunk>)
    ensures Copied(all, all, [])
  {
  }

  lemma CopyGoesOn(all: seq<Chunk>, rest: seq<Chunk>, image: seq<Byte>, bytes: seq<Byte>)
    requires Copied(all, rest, image) && rest != [] && rest[0] == Data(bytes) && bytes != []
    ensures Copied(all, rest[1..], image + bytes)
  {
    StreamGrows(all, |all| - |rest|);
  }

  lemma CopyBreaksOff(all: seq<Chunk>, rest: seq<Chunk>, image: seq<Byte>, stopped: Option<Status>)
    requires Copied(all, rest, image) && (stopped == None ==> rest == [])
    ensures CopyEnded(all, rest, image, stopped)
  {
  }

  lemma CopyEnds(all: seq<Chunk>, rest: seq<Chunk>, image: seq<Byte>, stopped: Option<Status>)
    requires Copied(all, rest, image) && rest != [] && (rest[0].Data? ==> rest[0].bytes == [])
    requires stopped == match rest[0] {
               case TimedOut => Some(Error("Stall timeout: no data received for 60s"))
               case Broken(message) => Some(Error(message))
               case Data(_) => None
             }
    ensures CopyEnded(all, rest[1..], image, stopped)
  {
    var k := |all| - |rest|;
    StreamGrows(all, k);
    assert image + [] == image;
    assert all[..k + 1][..k] == all[..k] && all[..k + 1][k] == all[k];
  }

  /** Attempts at one partition, each started with the flag clear and brought to its end. */
  ghost function Attempts(partition: string, ends: seq<Status>): seq<Note> {
    if ends == [] then []
    else Attempts(partition, ends[..|ends| - 1]) + [Started(partition, false), Tried(partition, ends[|ends| - 1])]
  }

  /** A whole history: for every report in turn, the attempts at its partition and then the report itself. */
  ghost function Schedule(results: seq<Report>, ends: seq<seq<Status>>): seq<Note>
    requires |results| == |ends|
  {
    if results == [] then []
    else
      var n := |results| - 1;
      Schedule(results[..n], ends[..n]) + (Attempts(results[n].partition, ends[n]) + [Reported(results[n])])
  }

  lemma ScheduleGrows(results: seq<Report>, ends: seq<seq<Status>>, report: Report, last: seq<Status>)
    requires |results| == |ends|
    ensures Schedule(results + [report], ends + [last])
         == Schedule(results, ends) + (Attempts(report.partition, last) + [Reported(report)])
  {
    assert (results + [report])[..|results|] == results && (ends + [last])[..|ends|] == ends;
  }

  lemma AttemptsGrow(partition: string, ends: seq<Status>, end: Status)
    ensures Attempts(partition, ends + [end]) == Attempts(partition, ends)
      + [Started(partition, false), Tried(partition, end)]
  {
    assert (ends + [end])[..|ends|] == ends;
  }

  predicate WorthRetrying(s: Status) {
    s.Error? && Retryable(s.message)
  }

  /** At most MAX_RETRIES + 1 attempts, and none after one that was not worth retrying. */
  ghost predicate Persistent(ends: seq<Status>) {
    |ends| <= MAX_RETRIES + 1 && forall k :: 0 <= k < |ends| - 1 ==> WorthRetrying(ends[k])
  }

  /** A report says what the last attempt came to, and how often a late success was retried. */
  ghost predicate Sums(report: Report, ends: seq<Status>) {
    if ends == [] then report.status.Skipped? || report.status.Cancelled?
    else report.status == ends[|ends| - 1] && report.retries == if report.status.Error? then 0 else |ends| - 1
  }

  /** Report by report, the partition asked for and what its attempts came to; only bad names go without a status. */
  ghost predicate InOrder(results: seq<Report>, ends: seq<seq<Status>>, partitions: seq<string>) {
    && |results| == |ends| <= |partitions|
    && forall k :: 0 <= k < |results| ==>
      && results[k].partition == partitions[k] && Persistent(ends[k]) && Sums(results[k], ends[k])
      && (results[k].status.Rejected? ==> !ValidName(partitions[k]))
  }

  /** How the summary counts a report; a report without a status is in no count. */
  datatype Outcome = Done | Failed | Stopped | Uncounted

  function OutcomeOf(s: Status): Outcome {
    match s
    case Complete => Done
    case Skipped => Done
    case Error(_) => Failed
    case Cancelled => Stopped
    case Rejected => Uncounted
  }

  function Count(results: seq<Report>, o: Outcome): nat {
    if results == [] then 0
    else Count(results[..|results| - 1], o) + if OutcomeOf(results[|results| - 1].status) == o then 1 else 0
  }

  /** Every report with a status is in exactly one count. */
  lemma {:induction false} CountsAddUp(results: seq<Report>)
    ensures Count(results, Done) + Count(results, Failed) + Count(results, Stopped) + Count(results, Uncounted)
      == |results|
    ensures (forall k :: 0 <= k < |results| ==>
               ValidName(results[k].partition) && (results[k].status.Rejected? ==> !ValidName(results[k].partition)))
              ==> Count(results, Uncounted) == 0
  {
    if results != [] {
      CountsAddUp(results[..|results| - 1]);
    }
  }

  /** The reports that count as `o`. */
  ghost function Counted(results: seq<Report>, o: Outcome): set<int> {
    set k | 0 <= k < |results| && OutcomeOf(results[k].status) == o
  }

  lemma {:induction false} CountIsSize(results: seq<Report>, o: Outcome)
    ensures Count(results, o) == |Counted(results, o)|
  {
    if results != [] {
      var n := |results| - 1;
      CountIsSize(results[..n], o);
      assert Counted(results, o)
          == Counted(results[..n], o) + if OutcomeOf(results[n].status) == o then {n} else {};
    }
  }

  /** Completed and failed are told by the statuses alone. */
  lemma CountsByStatus(results: seq<Report>)
    ensures Count(results, Done)
         == |set k | 0 <= k < |results| && (results[k].status.Complete? || results[k].status.Skipped?)|
    ensures Count(results, Failed) == |set k | 0 <= k < |results| && results[k].status.Error?|
  {
    CountIsSize(results, Done);
    CountIsSize(results, Failed);
    assert Counted(results, Done)
        == set k | 0 <= k < |results| && (results[k].status.Complete? || results[k].status.Skipped?);
    assert Counted(results, Failed) == set k | 0 <= k < |results| && results[k].status.Error?;
  }

  lemma OrderGrows(results: seq<Report>, ends: seq<seq<Status>>, partitions: seq<string>, report: Report,
                   last: seq<Status>)
    requires InOrder(results, ends, partitions) && |results| < |partitions|
    requires report.partition == partitions[|results|] && Persistent(last) && Sums(report, last)
    requires report.status.Rejected? ==> !ValidName(report.partition)
    ensures InOrder(results + [report], ends + [last], partitions)
    ensures AllThere(results) && (report.status.Complete? || report.status.Skipped?) ==> AllThere(results + [report])
  {
  }

  datatype Summary = Summary(results: seq<Report>, total: nat, completed: nat, failed: nat)

  class DeviceManager {
    var currentDump: Option<string>   // the partition being dumped
    var cancelEvent: bool
    var files: map<string, seq<Byte>> // image files by partition
    var script: seq<Tick>             // what is still to happen at the awaits
    var stdout: seq<Chunk>             // what the dumping processes are still to print
    ghost var notes: seq<Note>        // history of the running dump_all
    ghost var lateReads: nat          // reads of process output begun with the flag up

    method CancelDump() returns (accepted: bool)
      modifies this`cancelEvent, this`notes
      ensures accepted == currentDump.Some?
      ensures cancelEvent == (old(cancelEvent) || accepted)
      ensures notes == old(notes) + if accepted then [Accepted] else []
    {
      if currentDump.None? {
        return false;
      }
      cancelEvent := true;
      notes := notes + [Accepted];
      return true;
    }

    /** Yield to the event loop: cancel requests arrive, then the awaited thing resumes or raises. */
    method Await() returns (failure: Option<string>)
      modifies this`cancelEvent, this`notes, this`script
      ensures OnlyCancels(old(notes), notes)
      ensures cancelEvent == (old(cancelEvent) || |notes| > |old(notes)|)
      ensures currentDump.None? ==> notes == old(notes)
      ensures old(script) == [] ==> script == [] && failure == None && notes == old(notes)
      ensures old(script) != [] ==> script == old(script)[1..] && failure == old(script)[0].failure
      ensures old(script) != [] && currentDump.Some? ==> |notes| == |old(notes)| + old(script)[0].cancels
      ensures Quiet(old(script), stdout) ==> Quiet(script, stdout) && failure == None && notes == old(notes)
    {
      if script == [] {
        return None;
      }
      var tick := script[0];
      assert tick in script;
      script := script[1..];
      for i := 0 to tick.cancels
        invariant OnlyCancels(old(notes), notes)
        invariant cancelEvent == (old(cancelEvent) || |notes| > |old(notes)|)
        invariant currentDump.None? ==> notes == old(notes)
        invariant currentDump.Some? ==> |notes| == |old(notes)| + i
        invariant script == old(script)[1..] && stdout == old(stdout)
      {
        var _ := CancelDump();
      }
      assert forall t :: t in script ==> t in old(script);
      return tick.failure;
    }

    /** Wait for the next chunk of process output; a process with nothing more to say has closed its output. */
    method ReadChunk() returns (chunk: Chunk)
      modifies this`cancelEvent, this`notes, this`script, this`stdout, this`lateReads
      ensures lateReads == old(lateReads) + if old(cancelEvent) then 1 else 0
      ensures OnlyCancels(old(notes), notes)
      ensures cancelEvent == (old(cancelEvent) || |notes| > |old(notes)|)
      ensures if old(stdout) == [] then chunk == Data([]) && stdout == []
              else chunk == old(stdout)[0] && stdout == old(stdout)[1..]
      ensures Quiet(old(script), old(stdout)) ==> Quiet(script, stdout) && chunk.Data? && notes == old(notes)
    {
      lateReads := lateReads + if cancelEvent then 1 else 0;
      var _ := Await();
      if stdout == [] {
        return Data([]);
      }
      chunk := stdout[0];
      stdout := stdout[1..];
    }

    /** Append to the image, and send a progress event every PROGRESS_INTERVAL bytes; sending it is an await. */
    method Store(partition: string, bytes: seq<Byte>, bytesWritten: nat, lastProgress: nat)
      returns (last: nat, failure: Option<string>)
      requires partition in files
      modifies this`cancelEvent, this`notes, this`script, this`files
      ensures partition in files && files[partition] == old(files)[partition] + bytes
      ensures files - {partition} == old(files) - {partition}
      ensures OnlyCancels(old(notes), notes)
      ensures cancelEvent == (old(cancelEvent) || |notes| > |old(notes)|)
      ensures Quiet(old(script), stdout) ==> Quiet(script, stdout) && failure == None && notes == old(notes)
      ensures last == if bytesWritten - lastProgress >= PROGRESS_INTERVAL then bytesWritten else lastProgress
      ensures bytesWritten - lastProgress < PROGRESS_INTERVAL ==> failure == None && script == old(script)
    {
      files := files[partition := files[partition] + bytes];
      last, failure := lastProgress, None;
      if bytesWritten - lastProgress >= PROGRESS_INTERVAL {
        last := bytesWritten;
        failure := Await();
      }
    }

    /** Copy process output to the image until it ends, looking at the cancel flag before every chunk. */
    method CopyStream(partition: string) returns (stopped: Option<Status>, bytesWritten: nat)
      requires partition in files && files[partition] == []
      modifies this`cancelEvent, this`notes, this`script, this`stdout, this`lateReads, this`files
      ensures lateReads == old(lateReads)
      ensures OnlyCancels(old(notes), notes)
      ensures cancelEvent == (old(cancelEvent) || |notes| > |old(notes)|)
      ensures partition in files && |files[partition]| == bytesWritten &&
        files - {partition} == old(files) - {partition}
      ensures CopyEnded(old(stdout), stdout, files[partition], stopped)
      ensures stopped.Some? ==> stopped.value.Error? || (stopped.value.Cancelled? && cancelEvent)
      ensures old(cancelEvent) ==> stopped == Some(Cancelled) && stdout == old(stdout) && notes == old(notes)
      ensures Quiet(old(script), old(stdout)) ==> Quiet(script, stdout) && notes == old(notes)
      ensures Quiet(old(script), old(stdout)) && !old(cancelEvent) ==> stopped == None
    {
      CopyStarts(stdout);
      CancelsChain(notes, notes, notes);
      hide Quiet, Copied, CopyEnded, OnlyCancels;
      bytesWritten := 0;
      var lastProgress: nat := 0;
      while true
        invariant OnlyCancels(old(notes), notes) && lateReads == old(lateReads)
        invariant cancelEvent == (old(cancelEvent) || |notes| > |old(notes)|)
        invariant old(cancelEvent) ==> stdout == old(stdout) && notes == old(notes)
        invariant partition in files && |files[partition]| == bytesWritten &&
          files - {partition} == old(files) - {partition}
        invariant Copied(old(stdout), stdout, files[partition])
        invariant Quiet(old(script), old(stdout)) ==> Quiet(script, stdout) && notes == old(notes)
        decreases |stdout|
      {
        if cancelEvent {
          stopped := Some(Cancelled);
          CopyBreaksOff(old(stdout), stdout, files[partition], stopped);
          return;
        }
        ghost var rest, was := stdout, notes;
        var chunk := ReadChunk();
        CancelsChain(old(notes), was, notes);
        match chunk {
          case TimedOut =>
            stopped := Some(Error("Stall timeout: no data received for 60s"));
            CopyEnds(old(stdout), rest, files[partition], stopped);
            return;
          case Broken(message) =>
            stopped := Some(Error(message));
            CopyEnds(old(stdout), rest, files[partition], stopped);
            return;
          case Data(bytes) =>
            if bytes == [] {
              stopped := None;
              if rest == [] {
                CopyBreaksOff(old(stdout), rest, files[partition], None);
              } else {
                CopyEnds(old(stdout), rest, files[partition], None);
              }
              return;
            }
            CopyGoesOn(old(stdout), rest, files[partition], bytes);
            bytesWritten := bytesWritten + |bytes|;
            ghost var later := notes;
            var failure;
            lastProgress, failure := Store(partition, bytes, bytesWritten, lastProgress);
            CancelsChain(old(notes), later, notes);
            if failure.Some? {
              stopped := Some(Error(failure.value));
              CopyBreaksOff(old(stdout), stdout, files[partition], stopped);
              return;
            }
        }
      }
    }

    /** Dump one partition by reading the device's stream into its image file. */
    method RealDumpPartition(partition: string) returns (r: Result<Report, string>)
      requires currentDump.Some?
      modifies this`cancelEvent, this`notes, this`script, this`stdout, this`lateReads, this`files
      ensures lateReads == old(lateReads)
      ensures OnlyCancels(old(notes), notes)
      ensures cancelEvent == (old(cancelEvent) || |notes| > |old(notes)|)
      ensures files - {partition} == old(files) - {partition}
      ensures r.Ok? ==> r.value.partition == partition && !r.value.status.Skipped?
      ensures r.Ok? ==> (r.value.status.Rejected? <==> !ValidName(partition))
      ensures r.Ok? && ValidName(partition) ==> partition in files && |files[partition]| == r.value.size
      ensures r.Ok? && ValidName(partition) ==> Holds(files[partition], old(stdout), stdout)
      ensures r.Ok? && r.value.status.Complete? ==> CopyEnded(old(stdout), stdout, files[partition], None)
      ensures r.Ok? && r.value.status.Cancelled? ==> cancelEvent
      ensures Quiet(old(script), old(stdout)) ==> Quiet(script, stdout) && notes == old(notes) && r.Ok?
      ensures Quiet(old(script), old(stdout)) && !old(cancelEvent) && ValidName(partition) ==> r.value.status.Complete?
    {
      CancelsChain(notes, notes, notes);
      hide ValidName, Quiet, Holds, EndsAs, OnlyCancels;
      if !ValidName(partition) {
        return Ok(Report(partition, Rejected, 0, 0));
      }
      var failure := Await();
      ghost var was := notes;
      if failure.Some? {
        return Err(failure.value);
      }
      files := files[partition := []];
      var stopped, bytesWritten := CopyStream(partition);
      CancelsChain(old(notes), was, notes);
      was := notes;
      if stopped.Some? {
        return Ok(Report(partition, stopped.value, bytesWritten, 0));
      }
      failure := Await();
      CancelsChain(old(notes), was, notes);
      if failure.Some? {
        return Ok(Report(partition, Error(failure.value), bytesWritten, 0));
      }
      return Ok(Report(partition, Complete, bytesWritten, 0));
    }

    /**
     One attempt at one partition.  The flag is cleared only after the size query, in the stretch that announces the
     dump.
     */
    method DumpPartition(partition: string) returns (r: Result<Report, string>)
      requires currentDump.None?
      modifies this
      ensures currentDump.None? && files - {partition} == old(files) - {partition} && lateReads == old(lateReads)
      ensures (notes == old(notes) && cancelEvent == old(cancelEvent) && r.Err?) ||
              (OnlyCancels(old(notes) + [Started(partition, old(cancelEvent))], notes)
               && cancelEvent == (|notes| > |old(notes)| + 1))
      ensures r.Ok? ==> r.value.partition == partition && !r.value.status.Skipped? && |notes| > |old(notes)|
      ensures r.Ok? ==> (r.value.status.Rejected? <==> !ValidName(partition))
      ensures r.Ok? && r.value.status.Complete? ==> partition in files && |files[partition]| == r.value.size
      ensures r.Ok? && r.value.status.Complete? ==> CopyEnded(old(stdout), stdout, files[partition], None)
      ensures r.Ok? && r.value.status.Cancelled? ==> cancelEvent
      ensures Quiet(old(script), old(stdout)) ==> Quiet(script, stdout) && r.Ok? && !cancelEvent
      ensures Quiet(old(script), old(stdout)) && ValidName(partition) ==> r.value.status.Complete?
    {
      hide ValidName, Quiet, CopyEnded, Holds;
      var failure := Await();
      if failure.Some? {
        return Err(failure.value);
      }
      currentDump := Some(partition);
      notes := notes + [Started(partition, cancelEvent)];
      cancelEvent := false;
      r := RealDumpPartition(partition);
      currentDump := None;
    }

    /** The flag is up exactly when a cancel has been accepted, and nothing has started since. */
    ghost predicate Tracks()
      reads this
    {
      currentDump.None? && Honoured(notes) && (cancelEvent <==> Accepted in notes)
    }

    lemma AttemptAdds(before: seq<Note>, partition: string, ends: seq<Status>, base: seq<Note>)
      requires Work(before) == base + Attempts(partition, ends)
      requires OnlyCancels(before + [Started(partition, false)], notes)
      ensures Work(notes) == base + (Attempts(partition, ends) + [Started(partition, false)])
      ensures Told(notes) == Told(before) && LateReports(notes) == LateReports(before)
      ensures Honoured(notes) == (Honoured(before) && Accepted !in before)
      ensures Accepted in notes <==> Accepted in before || |notes| > |before| + 1
    {
      hide Honoured, Work, Told, LateReports, Attempts;
      OneMoreNote(before, Started(partition, false));
      CancelsKeep(before + [Started(partition, false)], notes);
      Regroup(base, Attempts(partition, ends), [Started(partition, false)]);
    }

    /** The end of an attempt goes into the history. */
    ghost method Conclude(partition: string, ends: seq<Status>, end: Status, base: seq<Note>)
      requires Work(notes) == base + (Attempts(partition, ends) + [Started(partition, false)]) && Tracks()
      modifies this`notes
      ensures notes == old(notes) + [Tried(partition, end)] && Tracks()
      ensures Work(notes) == base + Attempts(partition, ends + [end])
      ensures Told(notes) == Told(old(notes)) && LateReports(notes) == LateReports(old(notes))
    {
      hide Honoured, Work, Told, LateReports, Attempts;
      OneMoreNote(notes, Tried(partition, end));
      AttemptsGrow(partition, ends, end);
      assert (Attempts(partition, ends) + [Started(partition, false)]) + [Tried(partition, end)]
          == Attempts(partition, ends) + [Started(partition, false), Tried(partition, end)];
      Regroup(base, Attempts(partition, ends) + [Started(partition, false)], [Tried(partition, end)]);
      notes := notes + [Tried(partition, end)];
    }

    /**
     Up to MAX_RETRIES + 1 attempts at one partition, given up early on success, on cancel and on hopeless errors. If
     an attempt raises, `begun` tells whether it had been announced.
     */
    method TryPartition(partition: string)
      returns (r: Result<Report, string>, ghost ends: seq<Status>, ghost begun: bool)
      requires Tracks() && !cancelEvent
      modifies this
      ensures Tracks() && files - {partition} == old(files) - {partition} && lateReads == old(lateReads)
      ensures Work(notes) == Work(old(notes)) + (Attempts(partition, ends) + Announced(partition, begun))
      ensures Told(notes) == Told(old(notes)) && LateReports(notes) == LateReports(old(notes))
      ensures Persistent(ends) && (r.Ok? ==> ends != [] && Sums(r.value, ends) && !begun)
      ensures r.Err? ==> |ends| <= MAX_RETRIES && (ends != [] ==> WorthRetrying(ends[|ends| - 1]))
      ensures r.Ok? ==> r.value.partition == partition && !r.value.status.Skipped?
      ensures r.Ok? ==> (r.value.status.Rejected? <==> !ValidName(partition))
      ensures r.Ok? && r.value.status.Complete? ==> partition in files && |files[partition]| == r.value.size
      ensures r.Ok? && r.value.status.Cancelled? ==> cancelEvent
      ensures r.Ok? && WorthRetrying(r.value.status) ==> cancelEvent || |ends| == MAX_RETRIES + 1
      ensures Quiet(old(script), old(stdout)) ==> Quiet(script, stdout)
      ensures Quiet(old(script), old(stdout)) && ValidName(partition) ==>
                r.Ok? && r.value.status.Complete? && r.value.retries == 0 && !cancelEvent
    {
      hide Honoured, Work, Told, LateReports, Attempts, ValidName, Retryable, Quiet;
      ghost var base := Work(notes);
      NoAttempts(partition, base);
      ends, begun := [], false;
      var attempt := 0;
      r := Err("");
      while attempt <= MAX_RETRIES && !cancelEvent
        invariant |ends| == attempt <= MAX_RETRIES + 1 && (attempt == 0 ==> !cancelEvent) && !begun
        invariant forall k :: 0 <= k < |ends| ==> WorthRetrying(ends[k])
        invariant Tracks() && files - {partition} == old(files) - {partition} && lateReads == old(lateReads)
        invariant Work(notes) == base + Attempts(partition, ends)
        invariant Told(notes) == Told(old(notes)) && LateReports(notes) == LateReports(old(notes))
        invariant attempt > 0 ==> r.Ok? && r.value.partition == partition && r.value.retries == 0
        invariant attempt > 0 ==> r.value.status == ends[attempt - 1] && ValidName(partition)
        invariant Quiet(old(script), old(stdout)) ==> Quiet(script, stdout)
        invariant Quiet(old(script), old(stdout)) && ValidName(partition) ==> attempt == 0
      {
        if attempt > 0 {
          files := files - {partition};
          var _ := Await();
        }
        ghost var before := notes;
        r := DumpPartition(partition);
        if |notes| > |before| {
          AttemptAdds(before, partition, ends, base);
          begun := true;
        }
        if r.Err? {
          assert Attempts(partition, ends) + [] == Attempts(partition, ends);
          return;
        }
        Conclude(partition, ends, r.value.status, base);
        begun := false;
        ends := ends + [r.value.status];
        if !r.value.status.Error? {
          r := Ok(r.value.(retries := attempt));
          assert Attempts(partition, ends) + [] == Attempts(partition, ends);
          return;
        }
        if !Retryable(r.value.status.message) {
          r := Ok(r.value.(retries := 0));
          assert Attempts(partition, ends) + [] == Attempts(partition, ends);
          return;
        }
        attempt := attempt + 1;
        r := Ok(r.value.(retries := 0));
      }
      assert Attempts(partition, ends) + [] == Attempts(partition, ends);
    }

    /** One turn of the loop over partitions, past its cancel check. */
    method Visit(partition: string, skipExisting: bool)
      returns (r: Result<Report, string>, ghost ends: seq<Status>, ghost begun: bool)
      requires Tracks() && !cancelEvent
      modifies this
      ensures Tracks() && files - {partition} == old(files) - {partition} && lateReads == old(lateReads)
      ensures Work(notes) == Work(old(notes)) +
                (Attempts(partition, ends) + if r.Ok? then [Reported(r.value)] else Announced(partition, begun))
      ensures Told(notes) == Told(old(notes)) + if r.Ok? then [r.value] else []
      ensures LateReports(notes) == LateReports(old(notes)) + if r.Ok? && cancelEvent then 1 else 0
      ensures Persistent(ends) && (r.Ok? ==> Sums(r.value, ends))
      ensures r.Ok? ==> r.value.partition == partition && (r.value.status.Rejected? ==> !ValidName(partition))
      ensures r.Ok? && r.value.status.Cancelled? ==> cancelEvent
      ensures r.Ok? && r.value.status.Skipped? <==>
                skipExisting && partition in old(files) && old(files)[partition] != []
      ensures r.Ok? && r.value.status.Skipped? ==> files == old(files) && ends == []
      ensures r.Ok? && (r.value.status.Complete? || r.value.status.Skipped?) ==>
                partition in files && |files[partition]| == r.value.size
      ensures r.Ok? && !r.value.status.Skipped? ==> ends != []
      ensures Quiet(old(script), old(stdout)) ==> Quiet(script, stdout)
      ensures Quiet(old(script), old(stdout)) && ValidName(partition) ==>
                r.Ok? && (r.value.status.Complete? || r.value.status.Skipped?) && !cancelEvent
    {
      hide Honoured, Work, Told, LateReports, Attempts, ValidName, Quiet;
      ghost var base := Work(notes);
      ends, begun := [], false;
      if skipExisting && partition in files && files[partition] != [] {
        r := Ok(Report(partition, Skipped, |files[partition]|, 0));
        NoAttempts(partition, base);
      } else {
        r, ends, begun := TryPartition(partition);
        assert Attempts(partition, ends) + [] == Attempts(partition, ends);
      }
      if r.Ok? {
        OneMoreNote(notes, Reported(r.value));
        Regroup(base, Attempts(partition, ends), [Reported(r.value)]);
        notes := notes + [Reported(r.value)];
      }
    }

    /**
     All partitions in turn. Whatever the schedule: the history is, report by report and in order, the attempts at the
     report's own partition and the report, so that no partition is started more than three times and none after an
     attempt not worth retrying; reports stop short only behind a cancelled one; an accepted cancel is still flagged at
     the end, nothing starts and no output is read after it, and at most the interrupted partition and one more are
     reported. A flag left over from an earlier dump, on the other hand, ends this one before it starts anything. If an
     attempt raises, `told` and `ends` still give what came before.
     */
    method DumpAll(partitions: seq<string>, skipExisting: bool)
      returns (r: Result<Summary, string>, ghost told: seq<Report>, ghost ends: seq<seq<Status>>, ghost cut: seq<Note>)
      requires currentDump.None?
      modifies this
      ensures currentDump.None? && Honoured(notes) && LateReports(notes) <= 2 && lateReads == old(lateReads)
      ensures cancelEvent == (old(cancelEvent) || Accepted in notes)
      ensures InOrder(told, ends, partitions) && Told(notes) == told
      ensures Work(notes) == Schedule(told, ends) + cut
      ensures r.Ok? ==> r.value.results == told && cut == []
      ensures r.Err? ==> |told| < |partitions| && exists last, begun ::
                cut == Attempts(partitions[|told|], last) + Announced(partitions[|told|], begun) && Persistent(last)
      ensures r.Ok? && |told| < |partitions| ==>
                told != [] && told[|told| - 1].status.Cancelled? && cancelEvent
      ensures r.Ok? ==> r.value.total == |partitions|
      ensures r.Ok? ==>
                var done := set k | 0 <= k < |told| && (told[k].status.Complete? || told[k].status.Skipped?);
                r.value.completed == |done|
      ensures r.Ok? ==> r.value.failed == |set k | 0 <= k < |told| && told[k].status.Error?|
      ensures Quiet(old(script), old(stdout)) && !old(cancelEvent) && (forall p :: p in partitions ==> ValidName(p)) ==>
                r.Ok? && |told| == |partitions| && AllThere(told)
      ensures old(cancelEvent) && partitions != [] ==>
                r.Ok? && told == [Report(partitions[0], Cancelled, 0, 0)] && ends == [[]]
      ensures !old(cancelEvent) && partitions != [] && !skipExisting && r.Ok? ==> ends[0] != []
    {
      NothingYet(partitions);
      hide Honoured, Work, Told, LateReports, Attempts, Schedule, Count, ValidName, Quiet, InOrder, AllThere,
        Persistent;
      notes, ends, cut := [], [], [];
      var results: seq<Report> := [];
      while |results| < |partitions|
        invariant InOrder(results, ends, partitions) && |results| == |ends| <= |partitions| && cut == []
        invariant Work(notes) == Schedule(results, ends) && Told(notes) == results
        invariant old(cancelEvent) ==> results == [] && cancelEvent && notes == []
        invariant currentDump.None? && (!old(cancelEvent) ==> Tracks()) && lateReads == old(lateReads)
        invariant LateReports(notes) <= if cancelEvent then 1 else 0
        invariant results == [] ==> cancelEvent == old(cancelEvent)
        invariant !skipExisting && results != [] ==> ends[0] != []
        invariant Quiet(old(script), old(stdout)) ==> Quiet(script, stdout)
        invariant Quiet(old(script), old(stdout)) && !old(cancelEvent) && (forall p :: p in partitions ==> ValidName(p))
                  ==> !cancelEvent && AllThere(results)
        decreases |partitions| - |results|
      {
        var partition := partitions[|results|];
        if cancelEvent {
          var report := Report(partition, Cancelled, 0, 0);
          OneMoreNote(notes, Reported(report));
          ScheduleGrows(results, ends, report, []);
          NoAttempts(partition, Schedule(results, ends));
          OrderGrows(results, ends, partitions, report, []);
          notes := notes + [Reported(report)];
          results := results + [report];
          ends := ends + [[]];
          break;
        }
        var report, last, begun := Visit(partition, skipExisting);
        if report.Err? {
          cut := Attempts(partition, last) + Announced(partition, begun);
          told := results;
          r := Err(report.error);
          return;
        }
        ScheduleGrows(results, ends, report.value, last);
        OrderGrows(results, ends, partitions, report.value, last);
        ends := ends + [last];
        results := results + [report.value];
      }
      assert Schedule(results, ends) + [] == Schedule(results, ends);
      told := results;
      CountsByStatus(results);
      r := Ok(Summary(results, |partitions|, Count(results, Done), Count(results, Failed)));
    }
  }

  /** What an attempt that raises leaves in the history. */
  ghost function Announced(partition: string, begun: bool): seq<Note> {
    if begun then [Started(partition, false)] else []
  }

  lemma NoAttempts(partition: string, base: seq<Note>)
    ensures Attempts(partition, []) == [] && base + Attempts(partition, []) == base
    ensures forall n: Note :: Attempts(partition, []) + [n] == [n]
  {
  }

  lemma NothingYet(partitions: seq<string>)
    ensures InOrder([], [], partitions) && AllThere([]) && Persistent([])
    ensures Honoured([]) && Work([]) == [] && Told([]) == [] && LateReports([]) == 0 && Schedule([], []) == []
  {
  }
}
