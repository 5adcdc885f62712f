/** The linter that reports blocking subprocess calls of async functions: line ranges against the shape of the tree. */
module AsyncLint {
  import opened Sequences
  import opened Wrappers

  datatype Callee = Attribute(attr: string, base: Option<string>) | OtherCallee

  /** What the linter looks at in a syntax node; a base is the identifier of a plain name. */
  datatype Kind = FunctionDef | AsyncFunctionDef | Call(func: Callee) | OtherKind

  datatype Node = Node(kind: Kind, line: nat, endLine: nat, children: seq<Node>)

  /** A node's place: the child to take at each level. */
  type Path = seq<nat>

  // ---------------------------------------------------------------- trees

  predicate IsPath(n: Node, p: Path) {
    p == [] || (p[0] < |n.children| && IsPath(n.children[p[0]], p[1..]))
  }

  function At(n: Node, p: Path): Node
    requires IsPath(n, p)
  {
    if p == [] then n else At(n.children[p[0]], p[1..])
  }

  lemma {:induction false} PathsJoin(n: Node, a: Path, b: Path)
    ensures IsPath(n, a + b) <==> IsPath(n, a) && IsPath(At(n, a), b)
    ensures IsPath(n, a + b) ==> At(n, a + b) == At(At(n, a), b)
  {
    if a == [] {
      assert a + b == b;
    } else {
      assert (a + b)[0] == a[0] && (a + b)[1..] == a[1..] + b;
      if a[0] < |n.children| {
        PathsJoin(n.children[a[0]], a[1..], b);
      }
    }
  }

  function Under(i: nat, paths: seq<Path>): seq<Path> {
    seq(|paths|, k requires 0 <= k < |paths| => [i] + paths[k])
  }

  /** Every node of a tree, as `ast.walk` visits them but for the order. */
  function Walk(n: Node): (w: seq<Path>)
    ensures |w| > 0 && w[0] == []
    decreases n, 0
  {
    [[]] + WalkFrom(n.children, 0)
  }

  function WalkFrom(ns: seq<Node>, i: nat): seq<Path>
    decreases ns, |ns| - i
  {
    if i >= |ns| then [] else Under(i, Walk(ns[i])) + WalkFrom(ns, i + 1)
  }

  lemma UnderHas(i: nat, paths: seq<Path>, p: Path)
    ensures p in Under(i, paths) <==> p != [] && p[0] == i && p[1..] in paths
  {
    if p != [] && p[0] == i && p[1..] in paths {
      var k :| 0 <= k < |paths| && paths[k] == p[1..];
      assert Under(i, paths)[k] == [i] + p[1..] == p;
    }
    if p in Under(i, paths) {
      var k :| 0 <= k < |paths| && Under(i, paths)[k] == p;
      assert p == [i] + paths[k] && p[1..] == paths[k];
    }
  }

  lemma {:induction false} WalkIsPaths(n: Node, p: Path)
    ensures p in Walk(n) <==> IsPath(n, p)
    decreases n, 0
  {
    WalkFromIsPaths(n.children, 0, p);
  }

  lemma {:induction false} WalkFromIsPaths(ns: seq<Node>, i: nat, p: Path)
    ensures p in WalkFrom(ns, i) <==> p != [] && i <= p[0] < |ns| && IsPath(ns[p[0]], p[1..])
    decreases ns, |ns| - i
  {
    if i < |ns| {
      UnderHas(i, Walk(ns[i]), p);
      WalkFromIsPaths(ns, i + 1, p);
      if p != [] {
        WalkIsPaths(ns[i], p[1..]);
      }
    }
  }

  lemma {:induction false} WalkIsDistinct(n: Node)
    ensures Distinct(Walk(n))
    decreases n, 0
  {
    WalkFromIsDistinct(n.children, 0);
    WalkFromIsPaths(n.children, 0, []);
    DistinctJoin([[]], WalkFrom(n.children, 0));
  }

  lemma {:induction false} WalkFromIsDistinct(ns: seq<Node>, i: nat)
    ensures Distinct(WalkFrom(ns, i))
    decreases ns, |ns| - i
  {
    if i < |ns| {
      WalkIsDistinct(ns[i]);
      WalkFromIsDistinct(ns, i + 1);
      var here, rest := Under(i, Walk(ns[i])), WalkFrom(ns, i + 1);
      UnderIsDistinct(i, Walk(ns[i]));
      forall p | p in here ensures p !in rest {
        UnderHas(i, Walk(ns[i]), p);
        WalkFromIsPaths(ns, i + 1, p);
      }
      DistinctJoin(here, rest);
    }
  }

  lemma UnderIsDistinct(i: nat, paths: seq<Path>)
    requires Distinct(paths)
    ensures Distinct(Under(i, paths))
  {
    forall j, k | 0 <= j < k < |paths| ensures [i] + paths[j] != [i] + paths[k] {
      assert ([i] + paths[j])[1..] == paths[j] && ([i] + paths[k])[1..] == paths[k];
    }
  }

  // ---------------------------------------------------------------- the linter

  predicate IsSubprocessBlocking(k: Kind) {
    && k.Call? && k.func.Attribute?
    && k.func.attr in {"run", "Popen", "call", "check_call", "check_output"}
    && k.func.base == Some("subprocess")
  }

  predicate IsDef(n: Node) {
    n.kind.FunctionDef? || n.kind.AsyncFunctionDef?
  }

  function EndOf(n: Node): nat {
    if n.endLine == 0 then n.line else n.endLine
  }

  predicate Spans(n: Node, line: nat) {
    n.line <= line <= EndOf(n)
  }

  /** Some nested definition spans the line. */
  predicate Skipped(func: Node, line: nat) {
    exists r :: r in Walk(func) && SkipsAt(func, r, line)
  }

  predicate SkipsAt(func: Node, r: Path, line: nat) {
    IsPath(func, r) && r != [] && IsDef(At(func, r)) && Spans(At(func, r), line)
  }

  predicate BlocksAt(n: Node, p: Path) {
    IsPath(n, p) && IsSubprocessBlocking(At(n, p).kind)
  }

  /** The blocking calls below a function that no nested definition's lines hold. */
  function Reported(func: Node, walk: seq<Path>): seq<Path> {
    if walk == [] then []
    else
      var last := walk[|walk| - 1];
      Reported(func, walk[..|walk| - 1])
      + (if BlocksAt(func, last) && !Skipped(func, At(func, last).line) then [last] else [])
  }

  /** A violation: the places of the async function and of the call. */
  type Violation = (Path, Path)

  function Placed(d: Path, calls: seq<Path>): seq<Violation> {
    seq(|calls|, i requires 0 <= i < |calls| => (d, d + calls[i]))
  }

  function Violations(tree: Node, walk: seq<Path>): seq<Violation> {
    if walk == [] then []
    else
      var d := walk[|walk| - 1];
      Violations(tree, walk[..|walk| - 1])
      + (if IsPath(tree, d) && At(tree, d).kind.AsyncFunctionDef?
         then Placed(d, Reported(At(tree, d), Walk(At(tree, d)))) else [])
  }

  /** First the nested definitions' line ranges, then the blocking calls outside of them. */
  method ScanAsyncBody(func: Node) returns (calls: seq<Path>)
    ensures calls == Reported(func, Walk(func))
  {
    var ranges := NestedRanges(func);
    var walk := Walk(func);
    calls := [];
    var i := 0;
    while i < |walk|
      invariant 0 <= i <= |walk| && calls == Reported(func, walk[..i])
    {
      assert walk[..i + 1][..i] == walk[..i];
      var p := walk[i];
      WalkIsPaths(func, p);
      i := i + 1;
      if !IsSubprocessBlocking(At(func, p).kind) {
        continue;
      }
      var skip := InSkip(ranges, At(func, p).line);
      if skip {
        continue;
      }
      calls := calls + [p];
    }
    assert walk[..i] == walk;
  }

  method NestedRanges(func: Node) returns (ranges: seq<(nat, nat)>)
    ensures forall line: nat :: (exists k :: 0 <= k < |ranges| && ranges[k].0 <= line <= ranges[k].1) <==>
      Skipped(func, line)
  {
    var walk := Walk(func);
    ranges := [];
    ghost var from: seq<Path> := [];
    var i := 0;
    while i < |walk|
      invariant 0 <= i <= |walk| && |from| == |ranges|
      invariant forall k :: 0 <= k < |ranges| ==> from[k] in walk && IsRange(func, from[k], ranges[k])
      invariant forall j :: 0 <= j < i && NestedDef(func, walk[j]) ==> walk[j] in from
    {
      var p := walk[i];
      WalkIsPaths(func, p);
      if p != [] && IsDef(At(func, p)) {
        ranges := ranges + [(At(func, p).line, EndOf(At(func, p)))];
        from := from + [p];
      }
      i := i + 1;
    }
    RangesAreSkips(func, walk, from, ranges);
  }

  predicate NestedDef(func: Node, r: Path) {
    IsPath(func, r) && r != [] && IsDef(At(func, r))
  }

  predicate IsRange(func: Node, r: Path, range: (nat, nat)) {
    NestedDef(func, r) && range == (At(func, r).line, EndOf(At(func, r)))
  }

  lemma RangesAreSkips(func: Node, walk: seq<Path>, from: seq<Path>, ranges: seq<(nat, nat)>)
    requires walk == Walk(func) && |from| == |ranges|
    requires forall k :: 0 <= k < |ranges| ==> from[k] in walk && IsRange(func, from[k], ranges[k])
    requires forall j :: 0 <= j < |walk| && NestedDef(func, walk[j]) ==> walk[j] in from
    ensures forall line: nat :: (exists k :: 0 <= k < |ranges| && ranges[k].0 <= line <= ranges[k].1) <==>
      Skipped(func, line)
  {
    hide Walk, IsPath, At;
    forall line: nat | exists k :: 0 <= k < |ranges| && ranges[k].0 <= line <= ranges[k].1 ensures Skipped(func, line) {
      var k :| 0 <= k < |ranges| && ranges[k].0 <= line <= ranges[k].1;
      assert SkipsAt(func, from[k], line);
    }
    forall line: nat | Skipped(func, line) ensures exists k :: 0 <= k < |ranges| && ranges[k].0 <= line <= ranges[k].1 {
      var r :| r in walk && SkipsAt(func, r, line);
      assert NestedDef(func, r);
      var j :| 0 <= j < |walk| && walk[j] == r;
      var k :| 0 <= k < |from| && from[k] == r;
      assert IsRange(func, r, ranges[k]);
    }
  }

  method InSkip(ranges: seq<(nat, nat)>, line: nat) returns (skip: bool)
    ensures skip <==> exists k :: 0 <= k < |ranges| && ranges[k].0 <= line <= ranges[k].1
  {
    var i := 0;
    while i < |ranges|
      invariant 0 <= i <= |ranges| && forall k :: 0 <= k < i ==> !(ranges[k].0 <= line <= ranges[k].1)
    {
      if ranges[i].0 <= line <= ranges[i].1 {
        return true;
      }
      i := i + 1;
    }
    return false;
  }

  method ScanFile(tree: Node) returns (violations: seq<Violation>)
    ensures violations == Violations(tree, Walk(tree))
  {
    hide Reported;
    var walk := Walk(tree);
    violations := [];
    var i := 0;
    while i < |walk|
      invariant 0 <= i <= |walk| && violations == Violations(tree, walk[..i])
    {
      assert walk[..i + 1][..i] == walk[..i];
      var d := walk[i];
      WalkIsPaths(tree, d);
      if At(tree, d).kind.AsyncFunctionDef? {
        var calls := ScanAsyncBody(At(tree, d));
        violations := violations + Placed(d, calls);
      }
      i := i + 1;
    }
    assert walk[..i] == walk;
  }

  // ---------------------------------------------------------------- what is reported

  lemma {:induction false} ReportedAre(func: Node, walk: seq<Path>, r: Path)
    ensures r in Reported(func, walk) <==> r in walk && BlocksAt(func, r) && !Skipped(func, At(func, r).line)
  {
    if walk != [] {
      hide Skipped, BlocksAt;
      ReportedAre(func, walk[..|walk| - 1], r);
      assert walk == walk[..|walk| - 1] + [walk[|walk| - 1]];
    }
  }

  /** The call is below the async function, and no definition nested in the function spans its line. */
  predicate ReportedUnder(tree: Node, d: Path, c: Path) {
    && d <= c && IsPath(tree, d) && At(tree, d).kind.AsyncFunctionDef?
    && BlocksAt(At(tree, d), c[|d|..]) && !Skipped(At(tree, d), At(At(tree, d), c[|d|..]).line)
  }

  lemma PlacedAre(d: Path, calls: seq<Path>, v: Violation)
    ensures v in Placed(d, calls) <==> v.0 == d && d <= v.1 && v.1[|d|..] in calls
  {
    if v in Placed(d, calls) {
      var i :| 0 <= i < |calls| && Placed(d, calls)[i] == v;
      assert (d + calls[i])[|d|..] == calls[i];
    }
    if v.0 == d && d <= v.1 && v.1[|d|..] in calls {
      var i :| 0 <= i < |calls| && calls[i] == v.1[|d|..];
      assert d + v.1[|d|..] == v.1 && Placed(d, calls)[i] == v;
    }
  }

  lemma {:induction false} ViolationsAre(tree: Node, walk: seq<Path>, v: Violation)
    ensures v in Violations(tree, walk) <==> v.0 in walk && ReportedUnder(tree, v.0, v.1)
  {
    if walk != [] {
      hide Skipped, Reported;
      var init, d := walk[..|walk| - 1], walk[|walk| - 1];
      assert walk == init + [d];
      ViolationsAre(tree, init, v);
      if IsPath(tree, d) && At(tree, d).kind.AsyncFunctionDef? {
        var func := At(tree, d);
        PlacedAre(d, Reported(func, Walk(func)), v);
        if d <= v.1 {
          ReportedAre(func, Walk(func), v.1[|d|..]);
          WalkIsPaths(func, v.1[|d|..]);
        }
      }
    }
  }

  lemma {:induction false} ReportedOnce(func: Node, walk: seq<Path>)
    requires Distinct(walk)
    ensures Distinct(Reported(func, walk))
  {
    if walk != [] {
      hide Skipped, BlocksAt;
      var init, last := walk[..|walk| - 1], walk[|walk| - 1];
      ReportedOnce(func, init);
      ReportedAre(func, init, last);
    }
  }

  lemma PlacedOnce(d: Path, calls: seq<Path>)
    requires Distinct(calls)
    ensures Distinct(Placed(d, calls))
  {
    forall i, j | 0 <= i < j < |calls| ensures d + calls[i] != d + calls[j] {
      assert (d + calls[i])[|d|..] == calls[i] && (d + calls[j])[|d|..] == calls[j];
    }
  }

  lemma {:induction false} ViolationsOnce(tree: Node, walk: seq<Path>)
    requires Distinct(walk)
    ensures Distinct(Violations(tree, walk))
  {
    if walk != [] {
      hide Reported, Walk, Skipped;
      var init, d := walk[..|walk| - 1], walk[|walk| - 1];
      ViolationsOnce(tree, init);
      if IsPath(tree, d) && At(tree, d).kind.AsyncFunctionDef? {
        var func := At(tree, d);
        WalkIsDistinct(func);
        ReportedOnce(func, Walk(func));
        PlacedOnce(d, Reported(func, Walk(func)));
        forall v | v in Violations(tree, init) ensures v !in Placed(d, Reported(func, Walk(func))) {
          ViolationsAre(tree, init, v);
          PlacedAre(d, Reported(func, Walk(func)), v);
        }
        DistinctJoin(Violations(tree, init), Placed(d, Reported(func, Walk(func))));
      }
    }
  }

  // ---------------------------------------------------------------- lines against structure

  /** The place of the innermost definition around a place. */
  function Innermost(tree: Node, p: Path): Option<Path>
    requires IsPath(tree, p)
  {
    if p == [] then None
    else
      var outer := p[..|p| - 1];
      PrefixIsPath(tree, outer, p);
      if IsDef(At(tree, outer)) then Some(outer) else Innermost(tree, outer)
  }

  lemma PrefixIsPath(tree: Node, q: Path, p: Path)
    requires IsPath(tree, p) && q <= p
    ensures IsPath(tree, q) && IsPath(At(tree, q), p[|q|..]) && At(tree, p) == At(At(tree, q), p[|q|..])
  {
    assert q + p[|q|..] == p;
    PathsJoin(tree, q, p[|q|..]);
  }

  ghost predicate Encloses(tree: Node, e: Path, p: Path) {
    e < p && IsPath(tree, e) && IsDef(At(tree, e))
  }

  lemma ShorterPrefix(p: Path, e: Path)
    requires p != []
    ensures e < p <==> e == p[..|p| - 1] || e < p[..|p| - 1]
  {
  }

  /** The innermost definition encloses the place, and every other one that does encloses it. */
  lemma {:induction false} InnermostIs(tree: Node, p: Path, e: Path)
    requires IsPath(tree, p)
    ensures Innermost(tree, p) == Some(e) ==> Encloses(tree, e, p)
    ensures Encloses(tree, e, p) ==> Innermost(tree, p).Some? && e <= Innermost(tree, p).value
    decreases |p|
  {
    if p != [] {
      var outer := p[..|p| - 1];
      PrefixIsPath(tree, outer, p);
      ShorterPrefix(p, e);
      if !IsDef(At(tree, outer)) {
        InnermostIs(tree, outer, e);
      }
    }
  }

  /** An async definition around a blocking call. */
  predicate AsyncAround(tree: Node, d: Path, c: Path) {
    BlocksAt(tree, c) && d < c && IsPath(tree, d) && At(tree, d).kind.AsyncFunctionDef?
  }

  /** A violation is an async definition around a blocking call whose line no nested definition spans. */
  lemma ViolationIs(tree: Node, d: Path, c: Path)
    ensures (d, c) in Violations(tree, Walk(tree)) <==>
      AsyncAround(tree, d, c) && !Skipped(At(tree, d), At(tree, c).line)
  {
    ViolationsAre(tree, Walk(tree), (d, c));
    WalkIsPaths(tree, d);
    hide Violations, Walk, Skipped;
    if d <= c && IsPath(tree, d) {
      assert d + c[|d|..] == c;
      PathsJoin(tree, d, c[|d|..]);
      assert |d| == |c| ==> d == c;
    }
  }

  /** The same by line numbers: no nested definition starts at or before the call's line and ends at or after it. */
  lemma ViolationsByLine(tree: Node, d: Path, c: Path)
    ensures (d, c) in Violations(tree, Walk(tree)) <==> AsyncAround(tree, d, c) && OffNestedLines(tree, d, c)
  {
    ViolationIs(tree, d, c);
    hide Violations, Walk;
    if AsyncAround(tree, d, c) {
      var func, line := At(tree, d), At(tree, c).line;
      forall r: Path ensures HoldsLine(func, r, line) <==> SkipsAt(func, r, line) {
      }
      forall r: Path | SkipsAt(func, r, line) ensures Skipped(func, line) {
        WalkIsPaths(func, r);
      }
    }
  }

  /** A definition below the function, from its own line to its last (its own if the parser gives none). */
  predicate HoldsLine(func: Node, r: Path, line: nat) {
    && r != [] && IsPath(func, r) && (At(func, r).kind == FunctionDef || At(func, r).kind == AsyncFunctionDef)
    && At(func, r).line <= line
    && (if At(func, r).endLine == 0 then line == At(func, r).line else line <= At(func, r).endLine)
  }

  ghost predicate OffNestedLines(tree: Node, d: Path, c: Path)
    requires AsyncAround(tree, d, c)
  {
    forall r: Path :: !HoldsLine(At(tree, d), r, At(tree, c).line)
  }

  /** What the linter is for: the violation is a blocking call whose innermost definition is this async one. */
  predicate IsDue(tree: Node, d: Path, c: Path) {
    AsyncAround(tree, d, c) && Innermost(tree, c) == Some(d)
  }

  ghost predicate ReportsWhatIsDue(tree: Node) {
    forall d: Path, c: Path :: (d, c) in Violations(tree, Walk(tree)) <==> IsDue(tree, d, c)
  }

  /**
   How every parsed file is laid out: a definition ends no earlier than the calls it holds, decorators and defaults
   included, and a call on one of its lines is one it holds.
   */
  ghost predicate Layout(tree: Node) {
    forall e: Path, c: Path :: IsPath(tree, e) && IsDef(At(tree, e)) && BlocksAt(tree, c) ==>
      && (e < c ==> At(tree, c).line <= EndOf(At(tree, e)))
      && (Spans(At(tree, e), At(tree, c).line) ==> e < c)
  }

  /** A definition between the two places that starts no later than the line: the call is not in its decorators. */
  ghost predicate StartsBetween(tree: Node, d: Path, c: Path, line: nat) {
    exists e: Path :: d < e && Encloses(tree, e, c) && At(tree, e).line <= line
  }

  /**
   No blocking call of an async function's nested definitions sits in the decorators of all the definitions between the
   two.
   */
  ghost predicate NoneOnlyInDecorators(tree: Node) {
    forall d: Path, c: Path :: AsyncAround(tree, d, c) && Innermost(tree, c) != Some(d) ==>
      StartsBetween(tree, d, c, At(tree, c).line)
  }

  /** In a parsed file, a line is skipped for a function exactly if some definition in between starts no later. */
  lemma SkipsAreBetween(tree: Node, d: Path, c: Path)
    requires Layout(tree) && IsPath(tree, d) && d < c && BlocksAt(tree, c)
    ensures Skipped(At(tree, d), At(tree, c).line) <==> StartsBetween(tree, d, c, At(tree, c).line)
  {
    var func, line := At(tree, d), At(tree, c).line;
    hide Walk;
    if Skipped(func, line) {
      var r :| r in Walk(func) && SkipsAt(func, r, line);
      SkipIsBetween(tree, d, c, r);
      assert d < d + r && Encloses(tree, d + r, c);
    }
    if StartsBetween(tree, d, c, line) {
      var e :| d < e && Encloses(tree, e, c) && At(tree, e).line <= line;
      BetweenSkips(tree, d, c, e);
    }
  }

  lemma SkipIsBetween(tree: Node, d: Path, c: Path, r: Path)
    requires Layout(tree) && IsPath(tree, d) && d < c && BlocksAt(tree, c) && SkipsAt(At(tree, d), r, At(tree, c).line)
    ensures d < d + r && Encloses(tree, d + r, c) && At(tree, d + r).line <= At(tree, c).line
  {
    PathsJoin(tree, d, r);
    hide At, IsPath;
    assert IsPath(tree, d + r) && IsDef(At(tree, d + r));
  }

  lemma BetweenSkips(tree: Node, d: Path, c: Path, e: Path)
    requires Layout(tree) && IsPath(tree, d) && BlocksAt(tree, c)
    requires d < e && Encloses(tree, e, c) && At(tree, e).line <= At(tree, c).line
    ensures Skipped(At(tree, d), At(tree, c).line)
  {
    PrefixIsPath(tree, d, e);
    WalkIsPaths(At(tree, d), e[|d|..]);
    hide At, IsPath, Walk;
    assert SkipsAt(At(tree, d), e[|d|..], At(tree, c).line);
  }

  /** Nothing lies between a place and its innermost definition. */
  lemma NothingBetween(tree: Node, d: Path, c: Path, line: nat)
    requires IsPath(tree, c) && Innermost(tree, c) == Some(d)
    ensures !StartsBetween(tree, d, c, line)
  {
    forall e: Path | d < e && Encloses(tree, e, c) ensures false {
      InnermostIs(tree, c, e);
    }
  }

  /**
   On parsed files the linter is right about a whole file exactly if no blocking call of an async function sits only in
   decorators of the definitions nested around it; and it never reports one call twice for one function.
   */
  lemma RightButForDecorators(tree: Node)
    requires Layout(tree)
    ensures ReportsWhatIsDue(tree) <==> NoneOnlyInDecorators(tree)
    ensures Distinct(Violations(tree, Walk(tree)))
  {
    WalkIsDistinct(tree);
    ViolationsOnce(tree, Walk(tree));
    forall d: Path, c: Path
      ensures (d, c) in Violations(tree, Walk(tree)) <==>
        AsyncAround(tree, d, c) && (Innermost(tree, c) == Some(d) || !StartsBetween(tree, d, c, At(tree, c).line))
    {
      hide Violations, Walk, Skipped, StartsBetween, Innermost, Layout, Distinct;
      ReportedIfNothingBetween(tree, d, c);
    }
    hide Violations, Walk, Skipped, StartsBetween, Innermost, Layout, Distinct, AsyncAround;
    if ReportsWhatIsDue(tree) {
      forall d: Path, c: Path | AsyncAround(tree, d, c) && Innermost(tree, c) != Some(d)
        ensures StartsBetween(tree, d, c, At(tree, c).line)
      {
        assert (d, c) in Violations(tree, Walk(tree)) <==> IsDue(tree, d, c);
      }
    }
  }

  lemma ReportedIfNothingBetween(tree: Node, d: Path, c: Path)
    requires Layout(tree)
    ensures (d, c) in Violations(tree, Walk(tree)) <==>
      AsyncAround(tree, d, c) && (Innermost(tree, c) == Some(d) || !StartsBetween(tree, d, c, At(tree, c).line))
  {
    ViolationIs(tree, d, c);
    hide Violations, Walk, Skipped, StartsBetween, Innermost, Layout;
    if AsyncAround(tree, d, c) {
      SkipsAreBetween(tree, d, c);
      if Innermost(tree, c) == Some(d) {
        NothingBetween(tree, d, c, At(tree, c).line);
      }
    }
  }

  /** A definition's lines hold the blocking calls below it and no others: nothing is in a decorator. */
  ghost predicate WholeLines(tree: Node) {
    forall d: Path, c: Path :: IsPath(tree, d) && IsDef(At(tree, d)) && BlocksAt(tree, c) ==>
      (Spans(At(tree, d), At(tree, c).line) <==> d < c)
  }

  /** Where definitions occupy whole lines a blocking call is reported exactly if it is due, and under one function. */
  lemma WholeLinesSuffice(tree: Node)
    requires WholeLines(tree)
    ensures ReportsWhatIsDue(tree)
    ensures forall d: Path, e: Path, c: Path ::
      (d, c) in Violations(tree, Walk(tree)) && (e, c) in Violations(tree, Walk(tree)) ==> d == e
  {
    hide Violations, Walk, Distinct;
    assert Layout(tree);
    forall d: Path, c: Path | AsyncAround(tree, d, c) && Innermost(tree, c) != Some(d)
      ensures StartsBetween(tree, d, c, At(tree, c).line)
    {
      InnermostIs(tree, c, d);
      var e := Innermost(tree, c).value;
      InnermostIs(tree, c, e);
      assert |d| == |e| ==> d == e;
      assert d < e && Encloses(tree, e, c);
    }
    RightButForDecorators(tree);
    hide WholeLines, Layout, AsyncAround, Innermost;
    forall d: Path, e: Path, c: Path | (d, c) in Violations(tree, Walk(tree)) && (e, c) in Violations(tree, Walk(tree))
      ensures d == e
    {
      assert IsDue(tree, d, c) && IsDue(tree, e, c);
    }
  }

  // ---------------------------------------------------------------- a decorator's call

  function RunCall(line: nat): Node {
    Node(Call(Attribute("run", Some("subprocess"))), line, line, [])
  }

  /**
   An async function whose nested async function, on lines 3 and 4, has a blocking call in its decorator on line 2.
   */
  function Decorated(): Node {
    Node(AsyncFunctionDef, 1, 4, [Node(AsyncFunctionDef, 3, 4, [RunCall(2)])])
  }

  lemma DecoratedPaths(p: Path)
    ensures IsPath(Decorated(), p) <==> p == [] || p == [0] || p == [0, 0]
    ensures p == [0] ==> At(Decorated(), p) == Decorated().children[0]
    ensures p == [0, 0] ==> At(Decorated(), p) == RunCall(2)
  {
    var inner, call := Decorated().children[0], RunCall(2);
    assert inner.children == [call] && Decorated().children == [inner];
    if p != [] && p[0] == 0 {
      var q := p[1..];
      assert p == [0] + q && IsPath(Decorated(), p) == IsPath(inner, q);
      assert [0, 0][1..] == [0] && (p == [0, 0] ==> q == [0]);
      if q != [] && q[0] == 0 {
        assert q == [0] + q[1..] && IsPath(inner, q) == IsPath(call, q[1..]);
        assert q == [0] ==> q[1..] == [];
        assert IsPath(call, q[1..]) <==> q[1..] == [];
      }
    }
  }

  /**
   A file laid out as parsed files are, in which a call is reported twice: it sits in the decorator of what it belongs
   to.
   */
  lemma DecoratorIsReportedTwice()
    ensures Layout(Decorated()) && !NoneOnlyInDecorators(Decorated())
    ensures var found := Violations(Decorated(), Walk(Decorated())); ([], [0, 0]) in found && ([0], [0, 0]) in found
  {
    var tree, c := Decorated(), [0, 0];
    hide Violations, Walk;
    forall e: Path ensures IsPath(tree, e) <==> e == [] || e == [0] || e == [0, 0] {
      DecoratedPaths(e);
    }
    DecoratedPaths([0]);
    DecoratedPaths(c);
    assert c[..1] == [0] && Innermost(tree, c) == Some([0]);
    assert AsyncAround(tree, [], c) && AsyncAround(tree, [0], c);
    assert !StartsBetween(tree, [], c, 2);
    assert Layout(tree);
    ReportedIfNothingBetween(tree, [], c);
    ReportedIfNothingBetween(tree, [0], c);
  }

  // ---------------------------------------------------------------- which calls block

  /** An async function of two lines with one call in its body. */
  function OneCall(callee: Callee): Node {
    Node(AsyncFunctionDef, 1, 2, [Node(Call(callee), 2, 2, [])])
  }

  /** The call is reported exactly if it is one of five functions of the name `subprocess`. */
  lemma BlockingCalls(callee: Callee)
    ensures ([], [0]) in Violations(OneCall(callee), Walk(OneCall(callee))) <==>
            callee.Attribute? && callee.base == Some("subprocess")
            && (callee.attr == "run" || callee.attr == "Popen" || callee.attr == "call"
                || callee.attr == "check_call" || callee.attr == "check_output")
  {
    var tree, c: Path := OneCall(callee), [0];
    ViolationIs(tree, [], c);
    LeafPaths(tree.children[0], c[1..]);
    hide Violations, Walk;
    forall r ensures !SkipsAt(tree, r, 2) {
      if r != [] && r[0] == 0 {
        LeafPaths(tree.children[0], r[1..]);
      }
    }
  }

  lemma LeafPaths(leaf: Node, p: Path)
    requires leaf.children == []
    ensures IsPath(leaf, p) <==> p == []
    ensures p == [] ==> At(leaf, p) == leaf
  {
  }
}
