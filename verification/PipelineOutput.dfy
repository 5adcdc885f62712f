/** The session registry and the output monitor of the FirmAE pipeline, on the manager's and the state's own fields. */
module PipelineOutput {
  import opened Wrappers
  import opened PipelinePhases

  /** A line of output, with the patterns a regex engine finds in it. */
  datatype Line = Line(text: string, found: set<nat>)

  const MAX_LINES: int := 5000
  const KEPT_LINES: int := 2000

  /** The phase each output pattern stands for, in the order the patterns are tried. */
  const PATTERN_PHASES: seq<Phase> := [RUNNING, CHECKING, BOOTING, PREPARING_IMAGE, DETECTING_ARCH, EXTRACTING]

  /** The pattern that stands for `p` is found in the line; the n-th pattern stands for the phase of order 6 - n. */
  predicate Hit(line: Line, p: Phase) {
    0 < Order(p) <= 6 && (6 - Order(p)) as nat in line.found
  }

  lemma TableIsDescending(j: nat)
    requires j < |PATTERN_PHASES|
    ensures Order(PATTERN_PHASES[j]) == 6 - j
  {
  }

  /** No phase hit by the line lies beyond `p`. */
  ghost predicate Covers(line: Line, p: Phase) {
    forall q :: Hit(line, q) ==> Order(q) <= Order(p)
  }

  lemma CoversFurther(line: Line, p: Phase, q: Phase)
    requires Covers(line, p) && Order(p) <= Order(q)
    ensures Covers(line, q)
  {
  }

  /** The furthest of the phases hit by a line, since the patterns are listed furthest first. */
  method FirstHit(line: Line) returns (hit: Option<Phase>)
    ensures hit.None? ==> forall p :: !Hit(line, p)
    ensures hit.Some? ==> Hit(line, hit.value) && Covers(line, hit.value)
    ensures hit.Some? ==> 0 < Order(hit.value) < 99
  {
    var j := 0;
    while j < |PATTERN_PHASES|
      invariant 0 <= j <= |PATTERN_PHASES|
      invariant forall i :: 0 <= i < j ==> i !in line.found
    {
      if j in line.found {
        TableIsDescending(j);
        return Some(PATTERN_PHASES[j]);
      }
      j := j + 1;
    }
    return None;
  }

  /** Python's `s[start:]`. */
  function From<T>(s: seq<T>, start: int): seq<T> {
    if start >= |s| then []
    else if start >= 0 then s[start..]
    else if -start <= |s| then s[|s| + start..]
    else s
  }

  /** The buffer is the tail of the log, and every cut drops exactly the same number of lines. */
  ghost predicate IsTrimmed(buffer: seq<Line>, stream: seq<Line>, trims: nat) {
    && |buffer| <= MAX_LINES
    && (trims > 0 ==> |buffer| >= KEPT_LINES)
    && |stream| == |buffer| + (MAX_LINES + 1 - KEPT_LINES) * trims
    && buffer == stream[|stream| - |buffer|..]
  }

  /** The last n of a suffix are the last n. */
  lemma LastOfSuffix(all: seq<Line>, cut: nat, n: nat)
    requires cut + n <= |all| && n > 0
    ensures From(all[cut..], -(n as int)) == all[|all| - n..]
  {
  }

  lemma SuffixGrows(all: seq<Line>, cut: nat, line: Line)
    requires cut <= |all|
    ensures all[cut..] + [line] == (all + [line])[cut..]
  {
  }

  lemma AppendKeepsTrimmed(buffer: seq<Line>, stream: seq<Line>, trims: nat, line: Line)
    requires IsTrimmed(buffer, stream, trims)
    ensures |buffer| < MAX_LINES ==> IsTrimmed(buffer + [line], stream + [line], trims)
    ensures |buffer| == MAX_LINES ==> IsTrimmed(From(buffer + [line], -KEPT_LINES), stream + [line], trims + 1)
    ensures |buffer| <= MAX_LINES
  {
    var cut := |stream| - |buffer|;
    SuffixGrows(stream, cut, line);
    if |buffer| == MAX_LINES {
      LastOfSuffix(stream + [line], cut, KEPT_LINES);
    }
    hide From;
  }

  /** As many lines as are always kept are the same at the end of the buffer and at the end of the log. */
  lemma TailOfTail(buffer: seq<Line>, stream: seq<Line>, trims: nat, n: int)
    requires IsTrimmed(buffer, stream, trims)
    ensures 1 <= n <= KEPT_LINES ==> From(buffer, -n) == From(stream, -n)
    ensures From(buffer, 0) == buffer
  {
    if trims == 0 {
      assert buffer == stream;
    }
  }

  /** Trimming copies fewer lines than were received. */
  lemma TrimmingIsCheap(buffer: seq<Line>, stream: seq<Line>, trims: nat)
    requires IsTrimmed(buffer, stream, trims) && stream != []
    ensures KEPT_LINES * trims < |stream|
  {
  }

  class PipelineState {
    const session: SessionId
    var phase: Phase
    var outputLines: seq<Line>
    ghost var stream: seq<Line>   // every line appended
    ghost var trims: nat          // times the buffer was cut back

    constructor (session: SessionId)
      ensures this.session == session && phase == PENDING && stream == [] && Trimmed()
    {
      this.session, phase, outputLines, stream, trims := session, PENDING, [], [], 0;
    }

    ghost predicate Trimmed()
      reads this
    {
      IsTrimmed(outputLines, stream, trims)
    }

    method Append(line: Line)
      requires Trimmed()
      modifies this`outputLines, this`stream, this`trims
      ensures Trimmed() && stream == old(stream) + [line]
    {
      AppendKeepsTrimmed(outputLines, stream, trims, line);
      hide IsTrimmed, From;
      outputLines := outputLines + [line];
      stream := stream + [line];
      if |outputLines| > MAX_LINES {
        outputLines := From(outputLines, -KEPT_LINES);
        trims := trims + 1;
      }
    }

    /** One line: append it, and move the phase forward if the line's furthest hit lies ahead. */
    method ReadLine(line: Line)
      requires Trimmed() && !IsTerminal(phase)
      modifies this
      ensures Trimmed() && stream == old(stream) + [line]
      ensures !IsTerminal(phase) && Order(old(phase)) <= Order(phase) && Covers(line, phase)
      ensures phase == old(phase) || Hit(line, phase)
    {
      hide IsTrimmed, Hit;
      Append(line);
      var hit := FirstHit(line);
      if hit.Some? {
        if Order(hit.value) > Order(phase) {
          phase := hit.value;
        }
        CoversFurther(line, hit.value, phase);
      }
    }

    /** The monitor loop with no other writer of the phase: it ends on the furthest of the start and all hits. */
    method MonitorOutput(lines: seq<Line>)
      requires Trimmed()
      modifies this
      ensures Trimmed()
      ensures IsTerminal(old(phase)) ==> phase == old(phase) && stream == old(stream)
      ensures !IsTerminal(old(phase)) ==> stream == old(stream) + lines
      ensures !IsTerminal(old(phase)) ==> forall line :: line in lines ==> Covers(line, phase)
      ensures Order(old(phase)) <= Order(phase)
      ensures phase == old(phase) || exists line :: line in lines && Hit(line, phase)
    {
      hide IsTrimmed, Hit, Covers;
      var i := 0;
      ghost var last: Option<Line> := None;  // the line that set the phase
      while i < |lines| && !IsTerminal(phase)
        invariant 0 <= i <= |lines| && Trimmed()
        invariant IsTerminal(old(phase)) ==> i == 0 && phase == old(phase)
        invariant !IsTerminal(old(phase)) ==> !IsTerminal(phase)
        invariant stream == old(stream) + lines[..i]
        invariant Order(old(phase)) <= Order(phase)
        invariant forall k :: 0 <= k < i ==> Covers(lines[k], phase)
        invariant if last.None? then phase == old(phase) else last.value in lines && Hit(last.value, phase)
      {
        ghost var before := phase;
        ReadLine(lines[i]);
        forall k | 0 <= k < i ensures Covers(lines[k], phase) {
          CoversFurther(lines[k], before, phase);
        }
        if phase != before {
          last := Some(lines[i]);
        }
        i := i + 1;
      }
    }
  }

  class PipelineManager {
    var sessions: map<SessionId, PipelineState>
    ghost var runs: set<PipelineState>   // every state ever created

    constructor ()
      ensures Valid() && sessions == map[] && runs == {}
    {
      sessions, runs := map[], {};
    }

    /** A session's live state is the registered one. */
    ghost predicate Valid()
      reads this, runs
    {
      && (forall id :: id in sessions ==> sessions[id] in runs && sessions[id].session == id)
      && (forall r :: r in runs ==> r.session in sessions)
      && (forall r :: r in runs && sessions[r.session] != r ==> IsTerminal(r.phase))
    }

    lemma OneLivePerSession(a: PipelineState, b: PipelineState)
      requires Valid() && a in runs && b in runs && a.session == b.session
      requires !IsTerminal(a.phase) && !IsTerminal(b.phase)
      ensures a == b
    {
    }

    /** None stands for the error raised when the session is already running. */
    method Start(id: SessionId) returns (r: Option<PipelineState>)
      requires Valid()
      modifies this
      ensures Valid()
      ensures r.None? <==> id in old(sessions) && !IsTerminal(old(sessions)[id].phase)
      ensures r.None? ==> sessions == old(sessions) && runs == old(runs)
      ensures r.Some? ==> fresh(r.value) && r.value.phase == PENDING && r.value.session == id
      ensures r.Some? ==> sessions == old(sessions)[id := r.value] && runs == old(runs) + {r.value}
    {
      if id in sessions && !IsTerminal(sessions[id].phase) {
        return None;
      }
      var state := new PipelineState(id);
      sessions := sessions[id := state];
      runs := runs + {state};
      return Some(state);
    }

    method Stop(id: SessionId) returns (known: bool)
      requires Valid()
      modifies if id in sessions then {sessions[id]} else {}
      ensures Valid() && known == (id in sessions)
      ensures known ==> IsTerminal(sessions[id].phase)
      ensures known ==> sessions[id].phase == if IsTerminal(old(sessions[id].phase)) then old(sessions[id].phase)
        else STOPPED
      ensures known ==> sessions[id].outputLines == old(sessions[id].outputLines)
    {
      if id !in sessions {
        return false;
      }
      var state := sessions[id];
      if !IsTerminal(state.phase) {
        state.phase := STOPPED;
      }
      return true;
    }

    /** The last `lastN` lines of the whole log, for every request the buffer is kept for. */
    method GetOutput(id: SessionId, lastN: int) returns (lines: seq<Line>)
      requires id in sessions ==> sessions[id].Trimmed()
      ensures id !in sessions ==> lines == []
      ensures id in sessions && 1 <= lastN <= KEPT_LINES ==> lines == From(sessions[id].stream, -lastN)
      ensures id in sessions && lastN == 0 ==> lines == sessions[id].outputLines
      ensures id in sessions && lastN < 0 ==> lines == From(sessions[id].outputLines, -lastN)
    {
      if id !in sessions {
        return [];
      }
      var state := sessions[id];
      TailOfTail(state.outputLines, state.stream, state.trims, lastN);
      hide From, IsTrimmed;
      lines := From(state.outputLines, -lastN);
    }
  }
}
