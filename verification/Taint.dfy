/** The source-to-sink paths of the taint script: both enumerations, under their cap of fifty. */
module Taint {
  import opened Sequences
  import opened Wrappers

  const MAX_PATHS: nat := 50

  /** Functions are told apart by their entry points. */
  datatype Function_ = Function_(name: string, entry: int)

  datatype CallInfo = CallInfo(callSite: int, callee: Function_)

  /** A function of the program and its call references to known functions, in instruction order. */
  datatype Body = Body(func: Function_, calls: seq<CallInfo>)

  type Program = seq<Body>

  /** A path inside one function, or one whose sink is in a callee. */
  datatype Path = Path(func: Function_, source: CallInfo, sink: CallInfo, sinkFunction: Option<Function_>)

  /** The function manager lists each function once. */
  ghost predicate DistinctFunctions(prog: Program) {
    forall i, j :: 0 <= i < j < |prog| ==> prog[i].func != prog[j].func
  }

  // ---------------------------------------------------------------- step 1: the call tables

  function Named(calls: seq<CallInfo>, names: set<string>): seq<CallInfo> {
    if calls == [] then []
    else
      var last := calls[|calls| - 1];
      Named(calls[..|calls| - 1], names) + (if last.callee.name in names then [last] else [])
  }

  /** The callees in the order of their first calls. */
  function Callees(calls: seq<CallInfo>): seq<Function_> {
    if calls == [] then []
    else
      var init, last := Callees(calls[..|calls| - 1]), calls[|calls| - 1].callee;
      if last in init then init else init + [last]
  }

  /** A linked hash map from functions to lists. */
  type Table<T> = seq<(Function_, seq<T>)>

  function Lookup<T>(t: Table<T>, f: Function_): Option<seq<T>> {
    if t == [] then None else if t[0].0 == f then Some(t[0].1) else Lookup(t[1..], f)
  }

  function NamedTable(prog: Program, names: set<string>): Table<CallInfo> {
    if prog == [] then []
    else
      var last := prog[|prog| - 1];
      var named := Named(last.calls, names);
      NamedTable(prog[..|prog| - 1], names) + (if named == [] then [] else [(last.func, named)])
  }

  function CalleeTable(prog: Program): Table<Function_> {
    if prog == [] then []
    else
      var last := prog[|prog| - 1];
      CalleeTable(prog[..|prog| - 1]) + (if last.calls == [] then [] else [(last.func, Callees(last.calls))])
  }

  method BuildTables(prog: Program, sourceNames: set<string>, sinkNames: set<string>)
    returns (sources: Table<CallInfo>, sinks: Table<CallInfo>, callees: Table<Function_>)
    ensures sources == NamedTable(prog, sourceNames) && sinks == NamedTable(prog, sinkNames) &&
      callees == CalleeTable(prog)
  {
    sources, sinks, callees := [], [], [];
    var i := 0;
    while i < |prog|
      invariant 0 <= i <= |prog|
      invariant sources == NamedTable(prog[..i], sourceNames) && sinks == NamedTable(prog[..i], sinkNames)
      invariant callees == CalleeTable(prog[..i])
    {
      assert prog[..i + 1][..i] == prog[..i];
      var found, ends, called := BodyCalls(prog[i].calls, sourceNames, sinkNames);
      if found != [] {
        sources := sources + [(prog[i].func, found)];
      }
      if ends != [] {
        sinks := sinks + [(prog[i].func, ends)];
      }
      if called != [] {
        callees := callees + [(prog[i].func, called)];
      }
      i := i + 1;
    }
    assert prog[..i] == prog;
  }

  method BodyCalls(calls: seq<CallInfo>, sourceNames: set<string>, sinkNames: set<string>)
    returns (sources: seq<CallInfo>, sinks: seq<CallInfo>, callees: seq<Function_>)
    ensures sources == Named(calls, sourceNames) && sinks == Named(calls, sinkNames) && callees == Callees(calls)
    ensures callees == [] <==> calls == []
  {
    sources, sinks, callees := [], [], [];
    var i := 0;
    while i < |calls|
      invariant 0 <= i <= |calls| && sources == Named(calls[..i], sourceNames) && sinks == Named(calls[..i], sinkNames)
      invariant callees == Callees(calls[..i]) && (callees == [] <==> i == 0)
    {
      assert calls[..i + 1][..i] == calls[..i];
      var call := calls[i];
      if call.callee !in callees {
        callees := callees + [call.callee];
      }
      if call.callee.name in sourceNames {
        sources := sources + [call];
      }
      if call.callee.name in sinkNames {
        sinks := sinks + [call];
      }
      i := i + 1;
    }
    assert calls[..i] == calls;
  }

  // ---------------------------------------------------------------- the uncapped enumerations

  function WithSinks(f: Function_, source: CallInfo, sinks: seq<CallInfo>): seq<Path> {
    if sinks == [] then []
    else
      (if source.callSite < sinks[0].callSite then [Path(f, source, sinks[0], None)] else [])
      + WithSinks(f, source, sinks[1..])
  }

  function WithSources(f: Function_, sources: seq<CallInfo>, sinks: seq<CallInfo>): seq<Path> {
    if sources == [] then [] else WithSinks(f, sources[0], sinks) + WithSources(f, sources[1..], sinks)
  }

  /** Every source before every sink of the same function. */
  function Intra(sources: Table<CallInfo>, sinks: Table<CallInfo>): seq<Path> {
    if sources == [] then [] else IntraOf(sources[0], sinks) + Intra(sources[1..], sinks)
  }

  function IntraOf(entry: (Function_, seq<CallInfo>), sinks: Table<CallInfo>): seq<Path> {
    match Lookup(sinks, entry.0)
    case None => []
    case Some(ends) => WithSources(entry.0, entry.1, ends)
  }

  function ToSink(f: Function_, sources: seq<CallInfo>, callee: Function_, sink: CallInfo): seq<Path> {
    if sources == [] then [] else [Path(f, sources[0], sink, Some(callee))] + ToSink(f, sources[1..], callee, sink)
  }

  /** The first sink of the callee, from every source. */
  function IntoCallee(f: Function_, sources: seq<CallInfo>, callee: Function_, sinks: Table<CallInfo>): seq<Path> {
    match Lookup(sinks, callee)
    case None => []
    case Some(ends) => if ends == [] then [] else ToSink(f, sources, callee, ends[0])
  }

  function IntoCallees(f: Function_, sources: seq<CallInfo>, callees: seq<Function_>,
      sinks: Table<CallInfo>): seq<Path>
  {
    if callees == [] then []
    else IntoCallee(f, sources, callees[0], sinks) + IntoCallees(f, sources, callees[1..], sinks)
  }

  function InterOf(entry: (Function_, seq<CallInfo>), sinks: Table<CallInfo>, callees: Table<Function_>): seq<Path> {
    if Lookup(sinks, entry.0).Some? then [] else IntoCallees(entry.0, entry.1, CalleesIn(callees, entry.0), sinks)
  }

  function CalleesIn(callees: Table<Function_>, f: Function_): seq<Function_> {
    match Lookup(callees, f)
    case None => []
    case Some(called) => called
  }

  /** One path per caller without sinks of its own, callee with sinks, and source. */
  function Inter(sources: Table<CallInfo>, sinks: Table<CallInfo>, callees: Table<Function_>): seq<Path> {
    if sources == [] then [] else InterOf(sources[0], sinks, callees) + Inter(sources[1..], sinks, callees)
  }

  // ---------------------------------------------------------------- the capped loops

  function Cap(paths: seq<Path>): seq<Path> {
    if |paths| <= MAX_PATHS then paths else paths[..MAX_PATHS]
  }

  /** What is to come, `rest`, after what is there, against everything. */
  ghost predicate OnCourse(paths: seq<Path>, rest: seq<Path>, all: seq<Path>) {
    |paths| <= MAX_PATHS && Cap(paths + rest) == Cap(all)
  }

  lemma CapTwice(a: seq<Path>, b: seq<Path>)
    ensures Cap(Cap(a) + b) == Cap(a + b) && Cap(Cap(a)) == Cap(a)
  {
  }

  lemma Took(paths: seq<Path>, next: seq<Path>, rest: seq<Path>, all: seq<Path>)
    requires OnCourse(paths, next + rest, all)
    ensures OnCourse(Cap(paths + next), rest, all)
  {
    assert paths + (next + rest) == (paths + next) + rest;
    CapTwice(paths + next, rest);
  }

  lemma FullIsDone(paths: seq<Path>, rest: seq<Path>, all: seq<Path>)
    requires OnCourse(paths, rest, all) && (|paths| >= MAX_PATHS || rest == [])
    ensures paths == Cap(all)
  {
  }

  lemma Begins(paths: seq<Path>, all: seq<Path>)
    requires |paths| <= MAX_PATHS
    ensures OnCourse(paths, all, paths + all)
  {
  }

  method SinkLoop(before: seq<Path>, f: Function_, source: CallInfo, sinks: seq<CallInfo>) returns (paths: seq<Path>)
    requires |before| <= MAX_PATHS
    ensures paths == Cap(before + WithSinks(f, source, sinks))
  {
    hide OnCourse, Cap;
    paths := before;
    var k := 0;
    ghost var all := before + WithSinks(f, source, sinks);
    Begins(before, WithSinks(f, source, sinks));
    while k < |sinks|
      invariant 0 <= k <= |sinks| && OnCourse(paths, WithSinks(f, source, sinks[k..]), all)
    {
      if |paths| >= MAX_PATHS {
        FullIsDone(paths, WithSinks(f, source, sinks[k..]), all);
        return;
      }
      assert sinks[k..][1..] == sinks[k + 1..];
      ghost var next := if source.callSite < sinks[k].callSite then [Path(f, source, sinks[k], None)] else [];
      Took(paths, next, WithSinks(f, source, sinks[k + 1..]), all);
      assert paths + [] == paths;
      ShortIsKept(paths + next);
      if source.callSite < sinks[k].callSite {
        paths := paths + [Path(f, source, sinks[k], None)];
      }
      k := k + 1;
    }
    FullIsDone(paths, WithSinks(f, source, sinks[k..]), all);
  }

  lemma ShortIsKept(paths: seq<Path>)
    ensures |paths| <= MAX_PATHS ==> Cap(paths) == paths
  {
  }

  method SourceLoop(before: seq<Path>, f: Function_, sources: seq<CallInfo>, sinks: seq<CallInfo>)
      returns (paths: seq<Path>)
    requires |before| <= MAX_PATHS
    ensures paths == Cap(before + WithSources(f, sources, sinks))
  {
    hide OnCourse, Cap, WithSinks;
    paths := before;
    var k := 0;
    ghost var all := before + WithSources(f, sources, sinks);
    Begins(before, WithSources(f, sources, sinks));
    while k < |sources|
      invariant 0 <= k <= |sources| && |paths| <= MAX_PATHS && OnCourse(paths, WithSources(f, sources[k..], sinks), all)
    {
      assert sources[k..][1..] == sources[k + 1..];
      Took(paths, WithSinks(f, sources[k], sinks), WithSources(f, sources[k + 1..], sinks), all);
      CapIsShort(paths + WithSinks(f, sources[k], sinks));
      paths := SinkLoop(paths, f, sources[k], sinks);
      k := k + 1;
    }
    FullIsDone(paths, WithSources(f, sources[k..], sinks), all);
  }

  lemma CapIsShort(paths: seq<Path>)
    ensures |Cap(paths)| <= MAX_PATHS
  {
  }

  method Intraprocedural(sources: Table<CallInfo>, sinks: Table<CallInfo>) returns (paths: seq<Path>)
    ensures paths == Cap(Intra(sources, sinks))
  {
    hide OnCourse, Cap, WithSources;
    paths := [];
    var k := 0;
    ghost var all := [] + Intra(sources, sinks);
    assert all == Intra(sources, sinks);
    Begins([], Intra(sources, sinks));
    while k < |sources|
      invariant 0 <= k <= |sources| && |paths| <= MAX_PATHS && OnCourse(paths, Intra(sources[k..], sinks), all)
    {
      if |paths| >= MAX_PATHS {
        FullIsDone(paths, Intra(sources[k..], sinks), all);
        return;
      }
      assert sources[k..][1..] == sources[k + 1..];
      Took(paths, IntraOf(sources[k], sinks), Intra(sources[k + 1..], sinks), all);
      CapIsShort(paths + IntraOf(sources[k], sinks));
      var ends := Lookup(sinks, sources[k].0);
      if ends.None? {
        assert paths + [] == paths;
        ShortIsKept(paths);
        k := k + 1;
        continue;
      }
      paths := SourceLoop(paths, sources[k].0, sources[k].1, ends.value);
      k := k + 1;
    }
    FullIsDone(paths, Intra(sources[k..], sinks), all);
  }

  method CalleeSources(before: seq<Path>, f: Function_, sources: seq<CallInfo>, callee: Function_, sinks: seq<CallInfo>)
    returns (paths: seq<Path>)
    requires |before| <= MAX_PATHS && sinks != []
    ensures paths == Cap(before + ToSink(f, sources, callee, sinks[0]))
  {
    hide OnCourse, Cap;
    paths := before;
    var k := 0;
    ghost var all := before + ToSink(f, sources, callee, sinks[0]);
    Begins(before, ToSink(f, sources, callee, sinks[0]));
    while k < |sources|
      invariant 0 <= k <= |sources| && |paths| <= MAX_PATHS &&
        OnCourse(paths, ToSink(f, sources[k..], callee, sinks[0]), all)
    {
      assert sources[k..][1..] == sources[k + 1..];
      Took(paths, [Path(f, sources[k], sinks[0], Some(callee))], ToSink(f, sources[k + 1..], callee, sinks[0]), all);
      ShortIsKept(paths + [Path(f, sources[k], sinks[0], Some(callee))]);
      // the loop over the sinks breaks in its first round, either at the cap or after one path
      if |paths| < MAX_PATHS {
        paths := paths + [Path(f, sources[k], sinks[0], Some(callee))];
      }
      if |paths| >= MAX_PATHS {
        FullStays(before, paths, f, sources, k, callee, sinks[0]);
        return;
      }
      k := k + 1;
    }
    FullIsDone(paths, ToSink(f, sources[k..], callee, sinks[0]), all);
  }

  lemma FullStays(before: seq<Path>, paths: seq<Path>, f: Function_, sources: seq<CallInfo>, k: nat, callee: Function_,
      sink: CallInfo)
    requires k < |sources| && |paths| == MAX_PATHS
    requires
      var all := before + ToSink(f, sources, callee, sink);
      OnCourse(paths, ToSink(f, sources[k..], callee, sink), all) ||
        OnCourse(paths, ToSink(f, sources[k + 1..], callee, sink), all)
    ensures paths == Cap(before + ToSink(f, sources, callee, sink))
  {
  }

  method CalleeLoop(before: seq<Path>, f: Function_, sources: seq<CallInfo>, callees: seq<Function_>,
      sinks: Table<CallInfo>)
    returns (paths: seq<Path>)
    requires |before| <= MAX_PATHS && NoEmpty(sinks)
    ensures paths == Cap(before + (if Lookup(sinks, f).Some? then [] else IntoCallees(f, sources, callees, sinks)))
  {
    hide OnCourse, Cap, ToSink;
    paths := before;
    if Lookup(sinks, f).Some? {
      // every callee is skipped
      assert before + [] == before;
      ShortIsKept(before);
      return;
    }
    var k := 0;
    ghost var all := before + IntoCallees(f, sources, callees, sinks);
    Begins(before, IntoCallees(f, sources, callees, sinks));
    while k < |callees|
      invariant 0 <= k <= |callees| && |paths| <= MAX_PATHS &&
        OnCourse(paths, IntoCallees(f, sources, callees[k..], sinks), all)
    {
      if |paths| >= MAX_PATHS {
        FullIsDone(paths, IntoCallees(f, sources, callees[k..], sinks), all);
        return;
      }
      assert callees[k..][1..] == callees[k + 1..];
      Took(paths, IntoCallee(f, sources, callees[k], sinks), IntoCallees(f, sources, callees[k + 1..], sinks), all);
      CapIsShort(paths + IntoCallee(f, sources, callees[k], sinks));
      var ends := Lookup(sinks, callees[k]);
      if ends.None? {
        assert paths + [] == paths;
        ShortIsKept(paths);
        k := k + 1;
        continue;
      }
      NeverEmpty(sinks, callees[k]);
      paths := CalleeSources(paths, f, sources, callees[k], ends.value);
      k := k + 1;
    }
    FullIsDone(paths, IntoCallees(f, sources, callees[k..], sinks), all);
  }

  predicate NoEmpty(t: Table<CallInfo>) {
    forall i :: 0 <= i < |t| ==> t[i].1 != []
  }

  lemma {:induction false} NeverEmpty(t: Table<CallInfo>, f: Function_)
    requires NoEmpty(t)
    ensures Lookup(t, f) != Some([])
  {
    if t != [] {
      NeverEmpty(t[1..], f);
    }
  }

  method Interprocedural(before: seq<Path>, sources: Table<CallInfo>, sinks: Table<CallInfo>, callees: Table<Function_>)
    returns (paths: seq<Path>)
    requires |before| <= MAX_PATHS && NoEmpty(sinks)
    ensures paths == Cap(before + Inter(sources, sinks, callees))
  {
    hide OnCourse, Cap, IntoCallees;
    paths := before;
    var k := 0;
    ghost var all := before + Inter(sources, sinks, callees);
    Begins(before, Inter(sources, sinks, callees));
    while k < |sources|
      invariant 0 <= k <= |sources| && |paths| <= MAX_PATHS && OnCourse(paths, Inter(sources[k..], sinks, callees), all)
    {
      if |paths| >= MAX_PATHS {
        FullIsDone(paths, Inter(sources[k..], sinks, callees), all);
        return;
      }
      assert sources[k..][1..] == sources[k + 1..];
      Took(paths, InterOf(sources[k], sinks, callees), Inter(sources[k + 1..], sinks, callees), all);
      CapIsShort(paths + InterOf(sources[k], sinks, callees));
      paths := CalleeLoop(paths, sources[k].0, sources[k].1, CalleesIn(callees, sources[k].0), sinks);
      k := k + 1;
    }
    FullIsDone(paths, Inter(sources[k..], sinks, callees), all);
  }

  function AllPaths(prog: Program, sourceNames: set<string>, sinkNames: set<string>): seq<Path> {
    var sources, sinks := NamedTable(prog, sourceNames), NamedTable(prog, sinkNames);
    Intra(sources, sinks) + Inter(sources, sinks, CalleeTable(prog))
  }

  /** The whole script: its paths are the first fifty of the uncapped enumeration. */
  method Analyze(prog: Program, sourceNames: set<string>, sinkNames: set<string>) returns (paths: seq<Path>)
    ensures paths == Cap(AllPaths(prog, sourceNames, sinkNames))
  {
    hide Cap, Intra, Inter;
    var sources, sinks, callees := BuildTables(prog, sourceNames, sinkNames);
    TablesHaveNoEmpty(prog, sinkNames);
    paths := Intraprocedural(sources, sinks);
    CapIsShort(Intra(sources, sinks));
    paths := Interprocedural(paths, sources, sinks, callees);
    CapTwice(Intra(sources, sinks), Inter(sources, sinks, callees));
  }

  lemma {:induction false} TablesHaveNoEmpty(prog: Program, names: set<string>)
    ensures NoEmpty(NamedTable(prog, names))
  {
    if prog != [] {
      TablesHaveNoEmpty(prog[..|prog| - 1], names);
    }
  }

  // ---------------------------------------------------------------- which paths these are

  lemma {:induction false} NamedAre(calls: seq<CallInfo>, names: set<string>, c: CallInfo)
    ensures c in Named(calls, names) <==> c in calls && c.callee.name in names
  {
    if calls != [] {
      NamedAre(calls[..|calls| - 1], names, c);
      assert calls == calls[..|calls| - 1] + [calls[|calls| - 1]];
    }
  }

  lemma {:induction false} CalleesAre(calls: seq<CallInfo>, f: Function_)
    ensures f in Callees(calls) <==> exists c :: c in calls && c.callee == f
    ensures Distinct(Callees(calls))
  {
    if calls != [] {
      var init, last := calls[..|calls| - 1], calls[|calls| - 1];
      assert calls == init + [last];
      CalleesAre(init, f);
      assert last in calls;
      if f in Callees(init) {
        var c :| c in init && c.callee == f;
        assert c in calls;
      }
    }
  }

  lemma {:induction false} WithSinksAre(f: Function_, source: CallInfo, sinks: seq<CallInfo>, p: Path)
    ensures p in WithSinks(f, source, sinks) <==>
      p == Path(f, source, p.sink, None) && p.sink in sinks && source.callSite < p.sink.callSite
  {
    if sinks != [] {
      WithSinksAre(f, source, sinks[1..], p);
      assert sinks == [sinks[0]] + sinks[1..];
    }
  }

  lemma {:induction false} WithSourcesAre(f: Function_, sources: seq<CallInfo>, sinks: seq<CallInfo>, p: Path)
    ensures p in WithSources(f, sources, sinks) <==>
      p == Path(f, p.source, p.sink, None) && p.source in sources && p.sink in sinks &&
        p.source.callSite < p.sink.callSite
  {
    if sources != [] {
      hide WithSinks;
      WithSourcesAre(f, sources[1..], sinks, p);
      WithSinksAre(f, sources[0], sinks, p);
      assert sources == [sources[0]] + sources[1..];
    }
  }

  lemma {:induction false} ToSinkAre(f: Function_, sources: seq<CallInfo>, callee: Function_, sink: CallInfo, p: Path)
    ensures p in ToSink(f, sources, callee, sink) <==> p == Path(f, p.source, sink, Some(callee)) && p.source in sources
  {
    if sources != [] {
      ToSinkAre(f, sources[1..], callee, sink, p);
      assert sources == [sources[0]] + sources[1..];
    }
  }

  /** The path ends in the first sink of a callee. */
  predicate EndsIn(p: Path, sinks: Table<CallInfo>) {
    && p.sinkFunction.Some?
    && var ends := Lookup(sinks, p.sinkFunction.value);
       ends.Some? && ends.value != [] && p.sink == ends.value[0]
  }

  lemma {:induction false} IntoCalleesAre(f: Function_, sources: seq<CallInfo>, callees: seq<Function_>,
      sinks: Table<CallInfo>, p: Path)
    ensures p in IntoCallees(f, sources, callees, sinks) <==>
      p.func == f && p.source in sources && EndsIn(p, sinks) && p.sinkFunction.value in callees
  {
    if callees != [] {
      hide ToSink, Lookup;
      IntoCalleesAre(f, sources, callees[1..], sinks, p);
      assert callees == [callees[0]] + callees[1..];
      match Lookup(sinks, callees[0])
      case None =>
      case Some(ends) => if ends != [] { ToSinkAre(f, sources, callees[0], ends[0], p); }
    }
  }

  lemma {:induction false} IntraAre(sources: Table<CallInfo>, sinks: Table<CallInfo>, p: Path)
    ensures p in Intra(sources, sinks) <==>
      exists k :: 0 <= k < |sources| && p in IntraOf(sources[k], sinks)
  {
    if sources != [] {
      hide IntraOf;
      IntraAre(sources[1..], sinks, p);
      assert forall k :: 1 <= k < |sources| ==> sources[k] == sources[1..][k - 1];
      assert forall k :: 0 <= k < |sources| - 1 ==> sources[1..][k] == sources[k + 1];
    }
  }

  lemma {:induction false} InterAre(sources: Table<CallInfo>, sinks: Table<CallInfo>, callees: Table<Function_>,
      p: Path)
    ensures p in Inter(sources, sinks, callees) <==>
      exists k :: 0 <= k < |sources| && p in InterOf(sources[k], sinks, callees)
  {
    if sources != [] {
      hide InterOf;
      InterAre(sources[1..], sinks, callees, p);
      assert forall k :: 1 <= k < |sources| ==> sources[k] == sources[1..][k - 1];
      assert forall k :: 0 <= k < |sources| - 1 ==> sources[1..][k] == sources[k + 1];
    }
  }

  /** In a program with each function once, the table gives a function's own named calls, if it has any. */
  lemma {:induction false} LookupNamed(prog: Program, names: set<string>, i: nat)
    requires DistinctFunctions(prog) && i < |prog|
    ensures var named := Named(prog[i].calls, names);
      Lookup(NamedTable(prog, names), prog[i].func) == if named == [] then None else Some(named)
  {
    hide Named;
    var n := |prog| - 1;
    var last := prog[n];
    var named := Named(last.calls, names);
    LookupAppended(NamedTable(prog[..n], names), last.func, named, prog[i].func);
    if i < n {
      LookupNamed(prog[..n], names, i);
    } else {
      LookupForeign(prog[..n], names, last.func);
    }
    assert named == [] ==> NamedTable(prog[..n], names) + [] == NamedTable(prog[..n], names);
  }

  lemma {:induction false} LookupAppended<T>(t: Table<T>, f: Function_, v: seq<T>, g: Function_)
    ensures Lookup(t + [(f, v)], g) == if Lookup(t, g).Some? then Lookup(t, g) else if f == g then Some(v) else None
  {
    if t == [] {
      assert t + [(f, v)] == [(f, v)] && [(f, v)][1..] == [];
    } else {
      assert (t + [(f, v)])[1..] == t[1..] + [(f, v)];
      LookupAppended(t[1..], f, v, g);
    }
  }

  lemma {:induction false} LookupForeign(prog: Program, names: set<string>, f: Function_)
    requires forall i :: 0 <= i < |prog| ==> prog[i].func != f
    ensures Lookup(NamedTable(prog, names), f) == None
  {
    if prog != [] {
      hide Named;
      var n := |prog| - 1;
      LookupForeign(prog[..n], names, f);
      LookupAppended(NamedTable(prog[..n], names), prog[n].func, Named(prog[n].calls, names), f);
      assert NamedTable(prog[..n], names) + [] == NamedTable(prog[..n], names);
    }
  }

  lemma {:induction false} LookupCallees(prog: Program, i: nat)
    requires DistinctFunctions(prog) && i < |prog|
    ensures CalleesIn(CalleeTable(prog), prog[i].func) == Callees(prog[i].calls)
  {
    hide Callees;
    var n := |prog| - 1;
    var last := prog[n];
    LookupAppended(CalleeTable(prog[..n]), last.func, Callees(last.calls), prog[i].func);
    assert CalleeTable(prog[..n]) + [] == CalleeTable(prog[..n]);
    if i < n {
      LookupCallees(prog[..n], i);
    } else {
      LookupForeignCallees(prog[..n], last.func);
      NoCalls();
    }
  }

  lemma NoCalls()
    ensures Callees([]) == []
  {
  }

  lemma {:induction false} LookupForeignCallees(prog: Program, f: Function_)
    requires forall i :: 0 <= i < |prog| ==> prog[i].func != f
    ensures Lookup(CalleeTable(prog), f) == None
  {
    if prog != [] {
      hide Callees;
      var n := |prog| - 1;
      LookupForeignCallees(prog[..n], f);
      LookupAppended(CalleeTable(prog[..n]), prog[n].func, Callees(prog[n].calls), f);
      assert CalleeTable(prog[..n]) + [] == CalleeTable(prog[..n]);
    }
  }

  lemma {:induction false} NamedTableHolds(prog: Program, names: set<string>, e: (Function_, seq<CallInfo>))
    ensures e in NamedTable(prog, names) <==>
      exists body :: body in prog && e == (body.func, Named(body.calls, names)) && e.1 != []
  {
    if prog != [] {
      hide Named;
      var n := |prog| - 1;
      NamedTableHolds(prog[..n], names, e);
      assert forall body :: body in prog <==> body in prog[..n] || body == prog[n];
    }
  }

  lemma NamedTableAre(prog: Program, names: set<string>, e: (Function_, seq<CallInfo>))
    ensures e in NamedTable(prog, names) <==>
      exists i :: 0 <= i < |prog| && e == (prog[i].func, Named(prog[i].calls, names)) && e.1 != []
  {
    hide NamedTable, Named;
    NamedTableHolds(prog, names, e);
  }

  /** A source call and a later sink call of the same function. */
  predicate IsDirect(prog: Program, sourceNames: set<string>, sinkNames: set<string>, p: Path, i: nat)
    requires i < |prog|
  {
    && p == Path(prog[i].func, p.source, p.sink, None) && p.source.callSite < p.sink.callSite
    && p.source in prog[i].calls && p.source.callee.name in sourceNames
    && p.sink in prog[i].calls && p.sink.callee.name in sinkNames
  }

  /** The first of the calls to a function of one of the names. */
  ghost predicate IsFirst(calls: seq<CallInfo>, names: set<string>, c: CallInfo) {
    exists k :: 0 <= k < |calls| && calls[k] == c && c.callee.name in names && NoneBefore(calls, names, k)
  }

  predicate NoneBefore(calls: seq<CallInfo>, names: set<string>, k: nat)
    requires k <= |calls|
  {
    forall j :: 0 <= j < k ==> calls[j].callee.name !in names
  }

  /** A source call of a function without sink calls, and the first sink call of a function it calls. */
  ghost predicate IsThroughCall(prog: Program, sourceNames: set<string>, sinkNames: set<string>, p: Path, i: nat)
    requires i < |prog|
  {
    && p.func == prog[i].func && p.source in prog[i].calls && p.source.callee.name in sourceNames
    && NoneBefore(prog[i].calls, sinkNames, |prog[i].calls|)
    && p.sinkFunction.Some? && (exists c :: c in prog[i].calls && c.callee == p.sinkFunction.value)
    && exists body :: body in prog && body.func == p.sinkFunction.value && IsFirst(body.calls, sinkNames, p.sink)
  }

  lemma NoneBeforeGrows(init: seq<CallInfo>, last: CallInfo, names: set<string>, k: nat)
    requires k <= |init|
    ensures NoneBefore(init + [last], names, k) <==> NoneBefore(init, names, k)
    ensures NoneBefore(init + [last], names, |init| + 1) <==>
            NoneBefore(init, names, |init|) && last.callee.name !in names
  {
    var calls := init + [last];
    assert forall j :: 0 <= j < |init| ==> calls[j] == init[j];
    assert calls[|init|] == last;
  }

  lemma FirstGrows(init: seq<CallInfo>, last: CallInfo, names: set<string>, c: CallInfo)
    ensures IsFirst(init + [last], names, c) <==>
            IsFirst(init, names, c) || (last == c && c.callee.name in names && NoneBefore(init, names, |init|))
  {
    var calls, n := init + [last], |init|;
    forall k: nat | k <= n {
      NoneBeforeGrows(init, last, names, k);
    }
    hide NoneBefore;
    if k :| 0 <= k < |init| && init[k] == c && c.callee.name in names && NoneBefore(init, names, k) {
      assert calls[k] == c && NoneBefore(calls, names, k);
    }
    if last == c && c.callee.name in names && NoneBefore(init, names, n) {
      assert calls[n] == c && NoneBefore(calls, names, n);
    }
    if k :| 0 <= k < |calls| && calls[k] == c && c.callee.name in names && NoneBefore(calls, names, k) {
      assert k < n ==> init[k] == c && NoneBefore(init, names, k);
    }
  }

  /** The named calls start with the first one, and are empty exactly if there is none. */
  lemma {:induction false} NamedStart(calls: seq<CallInfo>, names: set<string>, c: CallInfo)
    ensures Named(calls, names) == [] <==> NoneBefore(calls, names, |calls|)
    ensures Named(calls, names) != [] && Named(calls, names)[0] == c <==> IsFirst(calls, names, c)
  {
    if calls != [] {
      var n := |calls| - 1;
      var init, last := calls[..n], calls[n];
      NamedStart(init, names, c);
      NoneBeforeGrows(init, last, names, n);
      FirstGrows(init, last, names, c);
      assert init + [last] == calls;
      hide IsFirst, NoneBefore;
    }
  }

  lemma EndsInMeans(prog: Program, sinkNames: set<string>, p: Path)
    requires DistinctFunctions(prog)
    ensures EndsIn(p, NamedTable(prog, sinkNames)) <==>
            p.sinkFunction.Some?
            && exists body ::
                 body in prog && body.func == p.sinkFunction.value && IsFirst(body.calls, sinkNames, p.sink)
  {
    hide NamedTable, Lookup, Named, IsFirst;
    if p.sinkFunction.Some? {
      var f := p.sinkFunction.value;
      forall body | body in prog && body.func == f
        ensures EndsIn(p, NamedTable(prog, sinkNames)) <==> IsFirst(body.calls, sinkNames, p.sink)
      {
        var i :| 0 <= i < |prog| && prog[i] == body;
        LookupNamed(prog, sinkNames, i);
        NamedStart(body.calls, sinkNames, p.sink);
      }
      if forall body :: body in prog ==> body.func != f {
        LookupForeign(prog, sinkNames, f);
      }
    }
  }

  lemma DirectAre(prog: Program, sourceNames: set<string>, sinkNames: set<string>, p: Path, i: nat)
    requires DistinctFunctions(prog) && i < |prog|
    ensures p in IntraOf((prog[i].func, Named(prog[i].calls, sourceNames)), NamedTable(prog, sinkNames))
      <==> IsDirect(prog, sourceNames, sinkNames, p, i)
  {
    LookupNamed(prog, sinkNames, i);
    hide NamedTable, Lookup, Named, WithSources, DistinctFunctions;
    NamedAre(prog[i].calls, sourceNames, p.source);
    NamedAre(prog[i].calls, sinkNames, p.sink);
    WithSourcesAre(prog[i].func, Named(prog[i].calls, sourceNames), Named(prog[i].calls, sinkNames), p);
  }

  lemma ThroughCallAre(prog: Program, sourceNames: set<string>, sinkNames: set<string>, p: Path, i: nat)
    requires DistinctFunctions(prog) && i < |prog|
    ensures p in InterOf((prog[i].func, Named(prog[i].calls, sourceNames)), NamedTable(prog, sinkNames),
      CalleeTable(prog))
      <==> IsThroughCall(prog, sourceNames, sinkNames, p, i)
  {
    LookupNamed(prog, sinkNames, i);
    LookupCallees(prog, i);
    EndsInMeans(prog, sinkNames, p);
    hide NamedTable, CalleeTable, Lookup, Named, IntoCallees, DistinctFunctions, EndsIn, CalleesIn, Callees, IsFirst;
    NamedAre(prog[i].calls, sourceNames, p.source);
    NamedStart(prog[i].calls, sinkNames, p.source);
    if p.sinkFunction.Some? {
      CalleesAre(prog[i].calls, p.sinkFunction.value);
    }
    IntoCalleesAre(prog[i].func, Named(prog[i].calls, sourceNames), Callees(prog[i].calls),
      NamedTable(prog, sinkNames), p);
  }

  lemma DirectNeedsSource(prog: Program, sourceNames: set<string>, sinkNames: set<string>, p: Path, i: nat)
    requires i < |prog| &&
      (IsDirect(prog, sourceNames, sinkNames, p, i) || IsThroughCall(prog, sourceNames, sinkNames, p, i))
    ensures Named(prog[i].calls, sourceNames) != []
  {
    NamedAre(prog[i].calls, sourceNames, p.source);
  }

  lemma IntraPaths(prog: Program, sourceNames: set<string>, sinkNames: set<string>, p: Path)
    requires DistinctFunctions(prog)
    ensures p in Intra(NamedTable(prog, sourceNames), NamedTable(prog, sinkNames)) <==>
      exists i :: 0 <= i < |prog| && IsDirect(prog, sourceNames, sinkNames, p, i)
  {
    hide Intra, IntraOf, NamedTable, IsDirect, Named, DistinctFunctions;
    var sources, sinks := NamedTable(prog, sourceNames), NamedTable(prog, sinkNames);
    IntraAre(sources, sinks, p);
    if p in Intra(sources, sinks) {
      var k :| 0 <= k < |sources| && p in IntraOf(sources[k], sinks);
      NamedTableAre(prog, sourceNames, sources[k]);
      var i :| 0 <= i < |prog| && sources[k] == (prog[i].func, Named(prog[i].calls, sourceNames));
      DirectAre(prog, sourceNames, sinkNames, p, i);
    }
    forall i | 0 <= i < |prog| && IsDirect(prog, sourceNames, sinkNames, p, i) ensures p in Intra(sources, sinks) {
      DirectAre(prog, sourceNames, sinkNames, p, i);
      DirectNeedsSource(prog, sourceNames, sinkNames, p, i);
      NamedTableAre(prog, sourceNames, (prog[i].func, Named(prog[i].calls, sourceNames)));
    }
  }

  lemma InterPaths(prog: Program, sourceNames: set<string>, sinkNames: set<string>, p: Path)
    requires DistinctFunctions(prog)
    ensures p in Inter(NamedTable(prog, sourceNames), NamedTable(prog, sinkNames), CalleeTable(prog)) <==>
      exists i :: 0 <= i < |prog| && IsThroughCall(prog, sourceNames, sinkNames, p, i)
  {
    hide Inter, InterOf, NamedTable, IsThroughCall, Named, DistinctFunctions, CalleeTable;
    var sources, sinks, callees := NamedTable(prog, sourceNames), NamedTable(prog, sinkNames), CalleeTable(prog);
    InterAre(sources, sinks, callees, p);
    if p in Inter(sources, sinks, callees) {
      var k :| 0 <= k < |sources| && p in InterOf(sources[k], sinks, callees);
      NamedTableAre(prog, sourceNames, sources[k]);
      var i :| 0 <= i < |prog| && sources[k] == (prog[i].func, Named(prog[i].calls, sourceNames));
      ThroughCallAre(prog, sourceNames, sinkNames, p, i);
    }
    forall i | 0 <= i < |prog| && IsThroughCall(prog, sourceNames, sinkNames, p, i)
      ensures p in Inter(sources, sinks, callees)
    {
      ThroughCallAre(prog, sourceNames, sinkNames, p, i);
      DirectNeedsSource(prog, sourceNames, sinkNames, p, i);
      NamedTableAre(prog, sourceNames, (prog[i].func, Named(prog[i].calls, sourceNames)));
    }
  }

  /** The uncapped paths are the direct ones and the ones through a call, and nothing else. */
  lemma PathsAreExact(prog: Program, sourceNames: set<string>, sinkNames: set<string>, p: Path)
    requires DistinctFunctions(prog)
    ensures p in AllPaths(prog, sourceNames, sinkNames) <==>
      exists i ::
        0 <= i < |prog| &&
          (IsDirect(prog, sourceNames, sinkNames, p, i) || IsThroughCall(prog, sourceNames, sinkNames, p, i))
  {
    hide Intra, Inter, NamedTable, IsThroughCall, IsDirect, DistinctFunctions, CalleeTable;
    IntraPaths(prog, sourceNames, sinkNames, p);
    InterPaths(prog, sourceNames, sinkNames, p);
  }

  // ---------------------------------------------------------------- each path once

  lemma {:induction false} NamedAreDistinct(calls: seq<CallInfo>, names: set<string>)
    requires Distinct(calls)
    ensures Distinct(Named(calls, names))
  {
    if calls != [] {
      var init, last := calls[..|calls| - 1], calls[|calls| - 1];
      NamedAreDistinct(init, names);
      NamedAre(init, names, last);
    }
  }

  lemma {:induction false} WithSinksOnce(f: Function_, source: CallInfo, sinks: seq<CallInfo>)
    requires Distinct(sinks)
    ensures Distinct(WithSinks(f, source, sinks))
  {
    if sinks != [] {
      WithSinksOnce(f, source, sinks[1..]);
      WithSinksAre(f, source, sinks[1..], Path(f, source, sinks[0], None));
      var here := if source.callSite < sinks[0].callSite then [Path(f, source, sinks[0], None)] else [];
      DistinctJoin(here, WithSinks(f, source, sinks[1..]));
    }
  }

  lemma {:induction false} WithSourcesOnce(f: Function_, sources: seq<CallInfo>, sinks: seq<CallInfo>)
    requires Distinct(sources) && Distinct(sinks)
    ensures Distinct(WithSources(f, sources, sinks))
  {
    if sources != [] {
      WithSourcesOnce(f, sources[1..], sinks);
      WithSinksOnce(f, sources[0], sinks);
      hide WithSinks;
      var here, rest := WithSinks(f, sources[0], sinks), WithSources(f, sources[1..], sinks);
      forall p | p in here ensures p !in rest {
        WithSinksAre(f, sources[0], sinks, p);
        WithSourcesAre(f, sources[1..], sinks, p);
      }
      DistinctJoin(here, rest);
    }
  }

  lemma {:induction false} ToSinkOnce(f: Function_, sources: seq<CallInfo>, callee: Function_, sink: CallInfo)
    requires Distinct(sources)
    ensures Distinct(ToSink(f, sources, callee, sink))
  {
    if sources != [] {
      ToSinkOnce(f, sources[1..], callee, sink);
      ToSinkAre(f, sources[1..], callee, sink, Path(f, sources[0], sink, Some(callee)));
      DistinctJoin([Path(f, sources[0], sink, Some(callee))], ToSink(f, sources[1..], callee, sink));
    }
  }

  lemma {:induction false} IntoCalleesOnce(f: Function_, sources: seq<CallInfo>, callees: seq<Function_>,
      sinks: Table<CallInfo>)
    requires Distinct(sources) && Distinct(callees)
    ensures Distinct(IntoCallees(f, sources, callees, sinks))
  {
    if callees != [] {
      IntoCalleesOnce(f, sources, callees[1..], sinks);
      hide ToSink, Lookup;
      var here, rest := IntoCallee(f, sources, callees[0], sinks), IntoCallees(f, sources, callees[1..], sinks);
      var ends := Lookup(sinks, callees[0]);
      if ends.Some? && ends.value != [] {
        ToSinkOnce(f, sources, callees[0], ends.value[0]);
        forall p | p in here ensures p !in rest {
          ToSinkAre(f, sources, callees[0], ends.value[0], p);
          IntoCalleesAre(f, sources, callees[1..], sinks, p);
        }
      }
      DistinctJoin(here, rest);
    }
  }

  ghost predicate DistinctSources(t: Table<CallInfo>) {
    && (forall i, j :: 0 <= i < j < |t| ==> t[i].0 != t[j].0)
    && (forall i :: 0 <= i < |t| ==> Distinct(t[i].1))
  }

  lemma IntraOfFunc(e: (Function_, seq<CallInfo>), sinks: Table<CallInfo>, p: Path)
    requires p in IntraOf(e, sinks)
    ensures p.func == e.0 && p.sinkFunction == None
  {
    var ends := Lookup(sinks, e.0);
    if ends.Some? {
      WithSourcesAre(e.0, e.1, ends.value, p);
    }
  }

  lemma InterOfFunc(e: (Function_, seq<CallInfo>), sinks: Table<CallInfo>, callees: Table<Function_>, p: Path)
    requires p in InterOf(e, sinks, callees)
    ensures p.func == e.0 && p.sinkFunction.Some?
  {
    hide IntoCallees;
    IntoCalleesAre(e.0, e.1, CalleesIn(callees, e.0), sinks, p);
  }

  lemma IntraFuncs(sources: Table<CallInfo>, sinks: Table<CallInfo>, p: Path)
    ensures p in Intra(sources, sinks) ==> exists k :: 0 <= k < |sources| && p.func == sources[k].0
  {
    hide Intra, IntraOf;
    IntraAre(sources, sinks, p);
    if p in Intra(sources, sinks) {
      var k :| 0 <= k < |sources| && p in IntraOf(sources[k], sinks);
      IntraOfFunc(sources[k], sinks, p);
    }
  }

  lemma InterFuncs(sources: Table<CallInfo>, sinks: Table<CallInfo>, callees: Table<Function_>, p: Path)
    ensures p in Inter(sources, sinks, callees) ==> exists k :: 0 <= k < |sources| && p.func == sources[k].0
  {
    hide Inter, InterOf;
    InterAre(sources, sinks, callees, p);
    if p in Inter(sources, sinks, callees) {
      var k :| 0 <= k < |sources| && p in InterOf(sources[k], sinks, callees);
      InterOfFunc(sources[k], sinks, callees, p);
    }
  }

  lemma {:induction false} IntraOnce(sources: Table<CallInfo>, sinks: Table<CallInfo>)
    requires DistinctSources(sources) && forall f: Function_ :: Lookup(sinks, f).Some? ==>
      Distinct(Lookup(sinks, f).value)
    ensures Distinct(Intra(sources, sinks))
  {
    if sources != [] {
      IntraOnce(sources[1..], sinks);
      var here, rest := IntraOf(sources[0], sinks), Intra(sources[1..], sinks);
      if Lookup(sinks, sources[0].0).Some? {
        WithSourcesOnce(sources[0].0, sources[0].1, Lookup(sinks, sources[0].0).value);
      }
      hide IntraOf, Lookup;
      forall p | p in here ensures p !in rest {
        IntraOfFunc(sources[0], sinks, p);
        IntraFuncs(sources[1..], sinks, p);
      }
      DistinctJoin(here, rest);
    }
  }

  lemma {:induction false} InterOnce(sources: Table<CallInfo>, sinks: Table<CallInfo>, callees: Table<Function_>)
    requires DistinctSources(sources) && forall f: Function_ :: Distinct(CalleesIn(callees, f))
    ensures Distinct(Inter(sources, sinks, callees))
  {
    if sources != [] {
      InterOnce(sources[1..], sinks, callees);
      var here, rest := InterOf(sources[0], sinks, callees), Inter(sources[1..], sinks, callees);
      IntoCalleesOnce(sources[0].0, sources[0].1, CalleesIn(callees, sources[0].0), sinks);
      assert Distinct(here);
      hide InterOf, Lookup;
      forall p | p in here ensures p !in rest {
        InterOfFunc(sources[0], sinks, callees, p);
        InterFuncs(sources[1..], sinks, callees, p);
      }
      DistinctJoin(here, rest);
    }
  }

  ghost predicate DistinctCalls(prog: Program) {
    forall i :: 0 <= i < |prog| ==> Distinct(prog[i].calls)
  }

  lemma {:induction false} TableIsDistinct(prog: Program, names: set<string>)
    requires DistinctFunctions(prog) && DistinctCalls(prog)
    ensures DistinctSources(NamedTable(prog, names))
  {
    if prog != [] {
      var n := |prog| - 1;
      TableIsDistinct(prog[..n], names);
      NamedAreDistinct(prog[n].calls, names);
      hide Named;
      var before := NamedTable(prog[..n], names);
      forall k | 0 <= k < |before| ensures before[k].0 != prog[n].func {
        NamedTableAre(prog[..n], names, before[k]);
      }
    }
  }

  lemma {:induction false} LookupIsMember<T>(t: Table<T>, f: Function_)
    ensures Lookup(t, f).Some? ==> exists k :: 0 <= k < |t| && t[k] == (f, Lookup(t, f).value)
  {
    if t != [] && t[0].0 != f {
      LookupIsMember(t[1..], f);
      if Lookup(t[1..], f).Some? {
        var k :| 0 <= k < |t[1..]| && t[1..][k] == (f, Lookup(t[1..], f).value);
        assert t[k + 1] == (f, Lookup(t, f).value);
      }
    } else if t != [] {
      assert t[0] == (f, Lookup(t, f).value);
    }
  }

  lemma {:induction false} CalleesAreDistinct(prog: Program, f: Function_)
    ensures Distinct(CalleesIn(CalleeTable(prog), f))
  {
    if prog != [] {
      var n := |prog| - 1;
      CalleesAreDistinct(prog[..n], f);
      LookupAppended(CalleeTable(prog[..n]), prog[n].func, Callees(prog[n].calls), f);
      CalleesAre(prog[n].calls, f);
      hide Callees;
      assert CalleeTable(prog[..n]) + [] == CalleeTable(prog[..n]);
    }
  }

  /** Where no call reference is listed twice, no path is. */
  lemma EachPathOnce(prog: Program, sourceNames: set<string>, sinkNames: set<string>)
    requires DistinctFunctions(prog) && DistinctCalls(prog)
    ensures Distinct(AllPaths(prog, sourceNames, sinkNames))
  {
    var sources, sinks, callees := NamedTable(prog, sourceNames), NamedTable(prog, sinkNames), CalleeTable(prog);
    TableIsDistinct(prog, sourceNames);
    TableIsDistinct(prog, sinkNames);
    hide NamedTable, CalleeTable, Lookup, Intra, Inter, IntraOf, InterOf, DistinctFunctions, DistinctCalls, CalleesIn;
    forall f: Function_ | Lookup(sinks, f).Some? ensures Distinct(Lookup(sinks, f).value) {
      LookupIsMember(sinks, f);
    }
    forall f: Function_ ensures Distinct(CalleesIn(callees, f)) {
      CalleesAreDistinct(prog, f);
    }
    IntraOnce(sources, sinks);
    InterOnce(sources, sinks, callees);
    forall p | p in Intra(sources, sinks) ensures p !in Inter(sources, sinks, callees) {
      KindsDiffer(sources, sinks, callees, p);
    }
    DistinctJoin(Intra(sources, sinks), Inter(sources, sinks, callees));
  }

  lemma KindsDiffer(sources: Table<CallInfo>, sinks: Table<CallInfo>, callees: Table<Function_>, p: Path)
    requires p in Intra(sources, sinks)
    ensures p !in Inter(sources, sinks, callees)
  {
    hide Intra, Inter, IntraOf, InterOf;
    IntraAre(sources, sinks, p);
    InterAre(sources, sinks, callees, p);
    var k :| 0 <= k < |sources| && p in IntraOf(sources[k], sinks);
    IntraOfFunc(sources[k], sinks, p);
    forall j | 0 <= j < |sources| ensures p !in InterOf(sources[j], sinks, callees) {
      if p in InterOf(sources[j], sinks, callees) {
        InterOfFunc(sources[j], sinks, callees, p);
      }
    }
  }

  // ---------------------------------------------------------------- the order of the paths

  /** One call reference is listed before another. */
  ghost predicate CallBefore(calls: seq<CallInfo>, c: CallInfo, d: CallInfo) {
    exists j, k :: 0 <= j < k < |calls| && calls[j] == c && calls[k] == d
  }

  /** A function is called before another is called for the first time. */
  ghost predicate CalleeBefore(calls: seq<CallInfo>, f: Function_, g: Function_) {
    exists j :: 0 <= j < |calls| && calls[j].callee == f && forall k :: 0 <= k <= j ==> calls[k].callee != g
  }

  ghost predicate FunctionBefore(prog: Program, f: Function_, g: Function_) {
    exists i, j :: 0 <= i < j < |prog| && prog[i].func == f && prog[j].func == g
  }

  /** Of two paths of one function: direct ones by source, then sink; ones through a call by callee, then source. */
  ghost predicate BodyBefore(calls: seq<CallInfo>, p: Path, q: Path) {
    if p.sinkFunction.None?
    then CallBefore(calls, p.source, q.source) || (p.source == q.source && CallBefore(calls, p.sink, q.sink))
    else
      q.sinkFunction.Some? &&
      (CalleeBefore(calls, p.sinkFunction.value, q.sinkFunction.value)
       || (p.sinkFunction == q.sinkFunction && CallBefore(calls, p.source, q.source)))
  }

  /** Direct paths before ones through a call; within a kind by function, and within a function as above. */
  ghost predicate Before(prog: Program, p: Path, q: Path) {
    if p.sinkFunction.None? != q.sinkFunction.None? then p.sinkFunction.None?
    else
      FunctionBefore(prog, p.func, q.func)
      || (p.func == q.func && exists body :: body in prog && body.func == p.func && BodyBefore(body.calls, p, q))
  }

  ghost predicate InOrder(prog: Program, paths: seq<Path>) {
    forall a, b :: 0 <= a < b < |paths| ==> Before(prog, paths[a], paths[b])
  }

  lemma OrderJoins(prog: Program, a: seq<Path>, b: seq<Path>)
    requires InOrder(prog, a) && InOrder(prog, b) && forall p, q :: p in a && q in b ==> Before(prog, p, q)
    ensures InOrder(prog, a + b)
  {
    hide Before;
    forall i, j | 0 <= i < j < |a + b| ensures Before(prog, (a + b)[i], (a + b)[j]) {
      if i < |a| <= j {
        assert a[i] in a && b[j - |a|] in b;
      }
    }
  }

  ghost predicate CallsInOrder(calls: seq<CallInfo>, some: seq<CallInfo>) {
    forall a, b :: 0 <= a < b < |some| ==> CallBefore(calls, some[a], some[b])
  }

  ghost predicate CalleesInOrder(calls: seq<CallInfo>, fs: seq<Function_>) {
    forall a, b :: 0 <= a < b < |fs| ==> CalleeBefore(calls, fs[a], fs[b])
  }

  lemma CallBeforeGrows(init: seq<CallInfo>, last: CallInfo, c: CallInfo, d: CallInfo)
    ensures CallBefore(init, c, d) ==> CallBefore(init + [last], c, d)
    ensures c in init ==> CallBefore(init + [last], c, last)
  {
    var calls := init + [last];
    if j, k :| 0 <= j < k < |init| && init[j] == c && init[k] == d {
      assert calls[j] == c && calls[k] == d;
    }
    if c in init {
      var j :| 0 <= j < |init| && init[j] == c;
      assert calls[j] == c && calls[|init|] == last;
    }
  }

  lemma CalleeBeforeGrows(init: seq<CallInfo>, last: CallInfo, f: Function_, g: Function_)
    ensures CalleeBefore(init, f, g) ==> CalleeBefore(init + [last], f, g)
    ensures (exists c :: c in init && c.callee == f) && (forall c :: c in init ==> c.callee != g) ==>
              CalleeBefore(init + [last], f, g)
  {
    var calls := init + [last];
    if j :| 0 <= j < |init| && init[j].callee == f && forall k :: 0 <= k <= j ==> init[k].callee != g {
      assert calls[j].callee == f && forall k :: 0 <= k <= j ==> calls[k].callee != g;
    }
    if (exists c :: c in init && c.callee == f) && (forall c :: c in init ==> c.callee != g) {
      var c :| c in init && c.callee == f;
      var j :| 0 <= j < |init| && init[j] == c;
      forall k | 0 <= k <= j ensures calls[k].callee != g {
        assert calls[k] == init[k] && init[k] in init;
      }
      assert calls[j].callee == f;
    }
  }

  lemma {:induction false} NamedInOrder(calls: seq<CallInfo>, names: set<string>)
    ensures CallsInOrder(calls, Named(calls, names))
  {
    if calls != [] {
      var init, last := calls[..|calls| - 1], calls[|calls| - 1];
      NamedInOrder(init, names);
      assert init + [last] == calls;
      hide CallBefore;
      var before := Named(init, names);
      forall a, b | 0 <= a < b < |Named(calls, names)|
        ensures CallBefore(calls, Named(calls, names)[a], Named(calls, names)[b])
      {
        assert before[a] in before;
        NamedAre(init, names, before[a]);
        CallBeforeGrows(init, last, before[a], Named(calls, names)[b]);
      }
    }
  }

  lemma {:induction false} CalleesAreInOrder(calls: seq<CallInfo>)
    ensures CalleesInOrder(calls, Callees(calls))
  {
    if calls != [] {
      var init, last := calls[..|calls| - 1], calls[|calls| - 1];
      CalleesAreInOrder(init);
      assert init + [last] == calls;
      hide CalleeBefore;
      var before, now := Callees(init), Callees(calls);
      forall a, b | 0 <= a < b < |now| ensures CalleeBefore(calls, now[a], now[b]) {
        assert before[a] in before;
        CalleesAre(init, before[a]);
        CalleesAre(init, now[b]);
        CalleeBeforeGrows(init, last, before[a], now[b]);
      }
    }
  }

  lemma {:induction false} WithSinksInOrder(prog: Program, body: Body, source: CallInfo, sinks: seq<CallInfo>)
    requires body in prog && CallsInOrder(body.calls, sinks)
    ensures InOrder(prog, WithSinks(body.func, source, sinks))
  {
    if sinks != [] {
      var rest := WithSinks(body.func, source, sinks[1..]);
      hide CallBefore;
      WithSinksInOrder(prog, body, source, sinks[1..]);
      var p := Path(body.func, source, sinks[0], None);
      forall q | q in rest ensures Before(prog, p, q) {
        WithSinksAre(body.func, source, sinks[1..], q);
        var k :| 0 <= k < |sinks[1..]| && sinks[1..][k] == q.sink;
        assert CallBefore(body.calls, sinks[0], sinks[k + 1]);
        assert BodyBefore(body.calls, p, q);
      }
      hide Before;
      OrderJoins(prog, if source.callSite < sinks[0].callSite then [p] else [], rest);
    }
  }

  lemma {:induction false} WithSourcesInOrder(prog: Program, body: Body, sources: seq<CallInfo>, sinks: seq<CallInfo>)
    requires body in prog && CallsInOrder(body.calls, sources) && CallsInOrder(body.calls, sinks)
    ensures InOrder(prog, WithSources(body.func, sources, sinks))
  {
    if sources != [] {
      var here, rest := WithSinks(body.func, sources[0], sinks), WithSources(body.func, sources[1..], sinks);
      hide CallBefore, WithSinks;
      WithSourcesInOrder(prog, body, sources[1..], sinks);
      WithSinksInOrder(prog, body, sources[0], sinks);
      forall p, q | p in here && q in rest ensures Before(prog, p, q) {
        WithSinksAre(body.func, sources[0], sinks, p);
        WithSourcesAre(body.func, sources[1..], sinks, q);
        var k :| 0 <= k < |sources[1..]| && sources[1..][k] == q.source;
        assert CallBefore(body.calls, sources[0], sources[k + 1]);
        assert BodyBefore(body.calls, p, q);
      }
      hide Before, InOrder;
      OrderJoins(prog, here, rest);
    }
  }

  lemma {:induction false} ToSinkInOrder(prog: Program, body: Body, sources: seq<CallInfo>, callee: Function_,
      sink: CallInfo)
    requires body in prog && CallsInOrder(body.calls, sources)
    ensures InOrder(prog, ToSink(body.func, sources, callee, sink))
  {
    if sources != [] {
      var rest := ToSink(body.func, sources[1..], callee, sink);
      hide CallBefore;
      ToSinkInOrder(prog, body, sources[1..], callee, sink);
      var p := Path(body.func, sources[0], sink, Some(callee));
      forall q | q in rest ensures Before(prog, p, q) {
        ToSinkAre(body.func, sources[1..], callee, sink, q);
        var k :| 0 <= k < |sources[1..]| && sources[1..][k] == q.source;
        assert CallBefore(body.calls, sources[0], sources[k + 1]);
        assert BodyBefore(body.calls, p, q);
      }
      hide Before;
      OrderJoins(prog, [p], rest);
    }
  }

  lemma IntoCalleeAre(f: Function_, sources: seq<CallInfo>, callee: Function_, sinks: Table<CallInfo>, p: Path)
    requires p in IntoCallee(f, sources, callee, sinks)
    ensures p.func == f && p.sinkFunction == Some(callee)
  {
    match Lookup(sinks, callee)
    case None =>
    case Some(ends) => if ends != [] { ToSinkAre(f, sources, callee, ends[0], p); }
  }

  lemma {:induction false} IntoCalleesInOrder(prog: Program, body: Body, sources: seq<CallInfo>,
      callees: seq<Function_>, sinks: Table<CallInfo>)
    requires body in prog && CallsInOrder(body.calls, sources) && CalleesInOrder(body.calls, callees)
    ensures InOrder(prog, IntoCallees(body.func, sources, callees, sinks))
  {
    if callees != [] {
      var here := IntoCallee(body.func, sources, callees[0], sinks);
      var rest := IntoCallees(body.func, sources, callees[1..], sinks);
      hide CalleeBefore, CallsInOrder;
      IntoCalleesInOrder(prog, body, sources, callees[1..], sinks);
      var ends := Lookup(sinks, callees[0]);
      if ends.Some? && ends.value != [] {
        ToSinkInOrder(prog, body, sources, callees[0], ends.value[0]);
      }
      hide ToSink, Lookup;
      assert InOrder(prog, here);
      hide InOrder;
      forall p, q | p in here && q in rest ensures Before(prog, p, q) {
        IntoCalleeAre(body.func, sources, callees[0], sinks, p);
        IntoCalleesAre(body.func, sources, callees[1..], sinks, q);
        var k :| 0 <= k < |callees[1..]| && callees[1..][k] == q.sinkFunction.value;
        assert CalleeBefore(body.calls, callees[0], callees[k + 1]);
        assert BodyBefore(body.calls, p, q);
      }
      hide Before;
      OrderJoins(prog, here, rest);
    }
  }

  /** The entries are of functions of the program, in order, and each lists calls in order. */
  ghost predicate TableInOrder(prog: Program, t: Table<CallInfo>) {
    && (forall a, b :: 0 <= a < b < |t| ==> FunctionBefore(prog, t[a].0, t[b].0))
    && forall e :: e in t ==> exists body :: body in prog && body.func == e.0 && CallsInOrder(body.calls, e.1)
  }

  lemma FunctionBeforeGrows(init: Program, last: Body, f: Function_, g: Function_)
    ensures FunctionBefore(init, f, g) ==> FunctionBefore(init + [last], f, g)
    ensures (exists body :: body in init && body.func == f) ==> FunctionBefore(init + [last], f, last.func)
  {
    var prog := init + [last];
    if i, j :| 0 <= i < j < |init| && init[i].func == f && init[j].func == g {
      assert prog[i].func == f && prog[j].func == g;
    }
    if body :| body in init && body.func == f {
      var i :| 0 <= i < |init| && init[i] == body;
      assert prog[i].func == f && prog[|init|].func == last.func;
    }
  }

  lemma {:induction false} FunctionsInOrder(prog: Program, names: set<string>, a: nat, b: nat)
    requires a < b < |NamedTable(prog, names)|
    ensures FunctionBefore(prog, NamedTable(prog, names)[a].0, NamedTable(prog, names)[b].0)
  {
    var init, last := prog[..|prog| - 1], prog[|prog| - 1];
    var t, now := NamedTable(init, names), NamedTable(prog, names);
    assert init + [last] == prog;
    hide Named, FunctionBefore;
    assert t[a] in t;
    NamedTableHolds(init, names, t[a]);
    FunctionBeforeGrows(init, last, now[a].0, now[b].0);
    if b < |t| {
      FunctionsInOrder(init, names, a, b);
    }
  }

  lemma NamedTableInOrder(prog: Program, names: set<string>)
    ensures TableInOrder(prog, NamedTable(prog, names))
  {
    hide NamedTable, Named, FunctionBefore, CallsInOrder;
    var t := NamedTable(prog, names);
    forall a, b | 0 <= a < b < |t| ensures FunctionBefore(prog, t[a].0, t[b].0) {
      FunctionsInOrder(prog, names, a, b);
    }
    forall e | e in t ensures exists body :: body in prog && body.func == e.0 && CallsInOrder(body.calls, e.1) {
      NamedTableHolds(prog, names, e);
      var body :| body in prog && e == (body.func, Named(body.calls, names));
      NamedInOrder(body.calls, names);
    }
  }

  lemma SinksInOrder(prog: Program, names: set<string>, body: Body)
    requires DistinctFunctions(prog) && body in prog
    ensures var ends := Lookup(NamedTable(prog, names), body.func); ends.Some? ==> CallsInOrder(body.calls, ends.value)
  {
    var i :| 0 <= i < |prog| && prog[i] == body;
    LookupNamed(prog, names, i);
    NamedInOrder(body.calls, names);
  }

  lemma FunctionDecides(prog: Program, f: Function_, g: Function_, p: Path, q: Path)
    requires FunctionBefore(prog, f, g) && p.func == f && q.func == g && p.sinkFunction.None? == q.sinkFunction.None?
    ensures Before(prog, p, q)
  {
  }

  lemma RestInOrder(prog: Program, t: Table<CallInfo>)
    requires t != [] && TableInOrder(prog, t)
    ensures TableInOrder(prog, t[1..])
    ensures exists body :: body in prog && body.func == t[0].0 && CallsInOrder(body.calls, t[0].1)
  {
    hide FunctionBefore, CallsInOrder;
    assert t[0] in t;
    assert forall e :: e in t[1..] ==> e in t;
  }

  lemma FirstDirectInOrder(prog: Program, body: Body, entry: (Function_, seq<CallInfo>), names: set<string>)
    requires DistinctFunctions(prog) && body in prog && body.func == entry.0 && CallsInOrder(body.calls, entry.1)
    ensures InOrder(prog, IntraOf(entry, NamedTable(prog, names)))
  {
    SinksInOrder(prog, names, body);
    hide CallsInOrder, NamedTable, DistinctFunctions, Lookup, Before, WithSources;
    var ends := Lookup(NamedTable(prog, names), body.func);
    if ends.Some? {
      WithSourcesInOrder(prog, body, entry.1, ends.value);
    }
  }

  lemma {:induction false} IntraInOrder(prog: Program, sources: Table<CallInfo>, names: set<string>)
    requires DistinctFunctions(prog) && TableInOrder(prog, sources)
    ensures InOrder(prog, Intra(sources, NamedTable(prog, names)))
  {
    if sources != [] {
      var sinks := NamedTable(prog, names);
      var here, rest := IntraOf(sources[0], sinks), Intra(sources[1..], sinks);
      assert Intra(sources, sinks) == here + rest;
      RestInOrder(prog, sources);
      hide *;
      var body :| body in prog && body.func == sources[0].0 && CallsInOrder(body.calls, sources[0].1);
      FirstDirectInOrder(prog, body, sources[0], names);
      IntraInOrder(prog, sources[1..], names);
      forall p, q | p in here && q in rest ensures Before(prog, p, q) {
        IntraOfFunc(sources[0], sinks, p);
        LaterFunction(prog, sources, sinks, q);
        FunctionDecides(prog, p.func, q.func, p, q);
      }
      OrderJoins(prog, here, rest);
    } else {
      assert Intra(sources, NamedTable(prog, names)) == [];
    }
  }

  lemma LaterFunction(prog: Program, sources: Table<CallInfo>, sinks: Table<CallInfo>, q: Path)
    requires sources != [] && TableInOrder(prog, sources) && q in Intra(sources[1..], sinks)
    ensures FunctionBefore(prog, sources[0].0, q.func) && q.sinkFunction.None?
  {
    hide FunctionBefore, Intra, IntraOf;
    IntraAre(sources[1..], sinks, q);
    var k :| 0 <= k < |sources[1..]| && q in IntraOf(sources[1..][k], sinks);
    IntraOfFunc(sources[1..][k], sinks, q);
    assert sources[1..][k] == sources[k + 1];
  }

  lemma LaterCaller(prog: Program, sources: Table<CallInfo>, sinks: Table<CallInfo>, callees: Table<Function_>, q: Path)
    requires sources != [] && TableInOrder(prog, sources) && q in Inter(sources[1..], sinks, callees)
    ensures FunctionBefore(prog, sources[0].0, q.func) && q.sinkFunction.Some?
  {
    hide FunctionBefore, Inter, InterOf;
    InterAre(sources[1..], sinks, callees, q);
    var k :| 0 <= k < |sources[1..]| && q in InterOf(sources[1..][k], sinks, callees);
    InterOfFunc(sources[1..][k], sinks, callees, q);
    assert sources[1..][k] == sources[k + 1];
  }

  lemma OwnCallees(prog: Program, body: Body)
    requires DistinctFunctions(prog) && body in prog
    ensures CalleesInOrder(body.calls, CalleesIn(CalleeTable(prog), body.func))
  {
    var i :| 0 <= i < |prog| && prog[i] == body;
    LookupCallees(prog, i);
    CalleesAreInOrder(body.calls);
  }

  lemma FirstThroughInOrder(prog: Program, body: Body, entry: (Function_, seq<CallInfo>), sinks: Table<CallInfo>)
    requires DistinctFunctions(prog) && body in prog && body.func == entry.0 && CallsInOrder(body.calls, entry.1)
    ensures InOrder(prog, InterOf(entry, sinks, CalleeTable(prog)))
  {
    OwnCallees(prog, body);
    hide CallsInOrder, CalleesInOrder, CalleeTable, CalleesIn, DistinctFunctions, Lookup, Before, IntoCallees;
    IntoCalleesInOrder(prog, body, entry.1, CalleesIn(CalleeTable(prog), body.func), sinks);
  }

  lemma {:induction false} InterInOrder(prog: Program, sources: Table<CallInfo>, sinks: Table<CallInfo>)
    requires DistinctFunctions(prog) && TableInOrder(prog, sources)
    ensures InOrder(prog, Inter(sources, sinks, CalleeTable(prog)))
  {
    if sources != [] {
      var callees := CalleeTable(prog);
      var here, rest := InterOf(sources[0], sinks, callees), Inter(sources[1..], sinks, callees);
      assert Inter(sources, sinks, callees) == here + rest;
      RestInOrder(prog, sources);
      hide *;
      var body :| body in prog && body.func == sources[0].0 && CallsInOrder(body.calls, sources[0].1);
      FirstThroughInOrder(prog, body, sources[0], sinks);
      InterInOrder(prog, sources[1..], sinks);
      forall p, q | p in here && q in rest ensures Before(prog, p, q) {
        InterOfFunc(sources[0], sinks, callees, p);
        LaterCaller(prog, sources, sinks, callees, q);
        FunctionDecides(prog, p.func, q.func, p, q);
      }
      OrderJoins(prog, here, rest);
    } else {
      assert Inter(sources, sinks, CalleeTable(prog)) == [];
    }
  }

  /**
   The paths come in a fixed order, so it is always the same fifty that are kept: direct ones first, by function, source
   and sink, then those through a call, by function, callee and source.
   */
  lemma PathsAreOrdered(prog: Program, sourceNames: set<string>, sinkNames: set<string>)
    requires DistinctFunctions(prog)
    ensures InOrder(prog, AllPaths(prog, sourceNames, sinkNames))
  {
    var sources, sinks, callees := NamedTable(prog, sourceNames), NamedTable(prog, sinkNames), CalleeTable(prog);
    NamedTableInOrder(prog, sourceNames);
    hide NamedTable, CalleeTable, Intra, Inter, IntraOf, InterOf, DistinctFunctions, TableInOrder, InOrder;
    IntraInOrder(prog, sources, sinkNames);
    InterInOrder(prog, sources, sinks);
    forall p, q | p in Intra(sources, sinks) && q in Inter(sources, sinks, callees) ensures Before(prog, p, q) {
      IntraAre(sources, sinks, p);
      InterAre(sources, sinks, callees, q);
      var j :| 0 <= j < |sources| && p in IntraOf(sources[j], sinks);
      var k :| 0 <= k < |sources| && q in InterOf(sources[k], sinks, callees);
      IntraOfFunc(sources[j], sinks, p);
      InterOfFunc(sources[k], sinks, callees, q);
    }
    hide Before;
    OrderJoins(prog, Intra(sources, sinks), Inter(sources, sinks, callees));
  }
}
