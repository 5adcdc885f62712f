/**
 The Python half of the dependency fixer: version order, floors, and the bumps with their rollback around the resolver.
 */
module PythonBumps {
  import opened Wrappers
  import opened Text

  // ---------------------------------------------------------------- versions

  predicate IsSeparator(c: char) {
    c == '.' || c == '-' || c == '+' || c == '_'
  }

  /** `re.split(r"[.\-+_]", s)`. */
  function Parts(s: string): (parts: seq<string>)
    ensures parts != []
  {
    if s == "" then [""]
    else
      var rest := Parts(s[1..]);
      if IsSeparator(s[0]) then [""] + rest else [[s[0]] + rest[0]] + rest[1..]
  }

  function DropVs(s: string): string {
    if s != "" && (s[0] == 'v' || s[0] == 'V') then DropVs(s[1..]) else s
  }

  predicate IsNumber(part: string) {
    part != "" && AllDigits(part)
  }

  /** The numbers up to the first part that is none. */
  function LeadingNumbers(parts: seq<string>): seq<nat> {
    if parts == [] || !IsNumber(parts[0]) then [] else [NatOf(parts[0])] + LeadingNumbers(parts[1..])
  }

  /** The first run of numbers. */
  function Numbers(parts: seq<string>): seq<nat> {
    if parts == [] then []
    else if IsNumber(parts[0]) then LeadingNumbers(parts)
    else Numbers(parts[1..])
  }

  function Key(version: string): (key: seq<nat>)
    ensures key != []
  {
    var nums := Numbers(Parts(DropVs(Strip(version))));
    if nums == [] then [0] else nums
  }

  /** What the loop has yet to add to the numbers it has. */
  function Rest(nums: seq<nat>, parts: seq<string>): seq<nat> {
    if nums == [] then Numbers(parts) else nums + LeadingNumbers(parts)
  }

  lemma RestStep(nums: seq<nat>, parts: seq<string>, i: nat)
    requires i < |parts|
    ensures IsNumber(parts[i]) ==> Rest(nums, parts[i..]) == Rest(nums + [NatOf(parts[i])], parts[i + 1..])
    ensures !IsNumber(parts[i]) ==> Rest(nums, parts[i..]) == if nums == [] then Rest(nums, parts[i + 1..]) else nums
  {
    hide NatOf;
    assert parts[i..][0] == parts[i] && parts[i..][1..] == parts[i + 1..];
    if IsNumber(parts[i]) {
      assert (nums + [NatOf(parts[i])]) + LeadingNumbers(parts[i + 1..])
        == nums + ([NatOf(parts[i])] + LeadingNumbers(parts[i + 1..]));
    }
  }

  lemma RestEnds(nums: seq<nat>, parts: seq<string>)
    ensures Rest(nums, []) == nums && Rest([], parts) == Numbers(parts)
  {
  }

  method VersionKey(version: string) returns (key: seq<nat>)
    ensures key == Key(version)
  {
    hide Parts, Rest, NatOf, Numbers;
    var parts := Parts(DropVs(Strip(version)));
    var nums: seq<nat> := [];
    var i := 0;
    RestEnds([], parts);
    assert parts[0..] == parts;
    while i < |parts|
      invariant 0 <= i <= |parts| && Rest(nums, parts[i..]) == Numbers(parts)
    {
      RestStep(nums, parts, i);
      if IsNumber(parts[i]) {
        nums := nums + [NatOf(parts[i])];
      } else if nums != [] {
        return nums;
      }
      i := i + 1;
    }
    RestEnds(nums, parts);
    assert parts[i..] == [];
    return if nums != [] then nums else [0];
  }

  /** Python's comparison of tuples. */
  predicate AtLeast(a: seq<nat>, b: seq<nat>) {
    b == [] || (a != [] && (a[0] > b[0] || (a[0] == b[0] && AtLeast(a[1..], b[1..]))))
  }

  predicate VersionGe(a: string, b: string) {
    AtLeast(Key(a), Key(b))
  }

  lemma {:induction false} AtLeastIsTotal(a: seq<nat>, b: seq<nat>)
    ensures AtLeast(a, b) || AtLeast(b, a)
    ensures AtLeast(a, a)
    ensures AtLeast(a, b) && AtLeast(b, a) ==> a == b
  {
    if a != [] {
      AtLeastIsTotal(a[1..], if b == [] then [] else b[1..]);
      if b != [] && a[0] == b[0] {
        assert a == [a[0]] + a[1..] && b == [b[0]] + b[1..];
      }
    }
  }

  lemma {:induction false} AtLeastIsTransitive(a: seq<nat>, b: seq<nat>, c: seq<nat>)
    requires AtLeast(a, b) && AtLeast(b, c)
    ensures AtLeast(a, c)
  {
    if c != [] && a[0] == c[0] {
      AtLeastIsTransitive(a[1..], b[1..], c[1..]);
    }
  }

  /** Versions are totally preordered; versions of the same key are equivalent. */
  lemma VersionsArePreordered(a: string, b: string, c: string)
    ensures VersionGe(a, a) && (VersionGe(a, b) || VersionGe(b, a))
    ensures VersionGe(a, b) && VersionGe(b, c) ==> VersionGe(a, c)
    ensures VersionGe(a, b) && VersionGe(b, a) <==> Key(a) == Key(b)
  {
    hide Key;
    AtLeastIsTotal(Key(a), Key(b));
    AtLeastIsTotal(Key(a), Key(a));
    if VersionGe(a, b) && VersionGe(b, c) {
      AtLeastIsTransitive(Key(a), Key(b), Key(c));
    }
  }

  /** Longer, or larger at the first difference. */
  ghost predicate IsAtLeast(a: seq<nat>, b: seq<nat>) {
    b <= a || exists k :: 0 <= k < |a| && k < |b| && LargerAt(a, b, k)
  }

  predicate LargerAt(a: seq<nat>, b: seq<nat>, k: nat)
    requires k < |a| && k < |b|
  {
    a[..k] == b[..k] && a[k] > b[k]
  }

  lemma LargerBehind(h: nat, x: seq<nat>, y: seq<nat>, k: nat)
    requires k < |x| && k < |y|
    ensures LargerAt([h] + x, [h] + y, k + 1) <==> LargerAt(x, y, k)
  {
    var a, b := [h] + x, [h] + y;
    assert a[..k + 1] == [h] + x[..k] && b[..k + 1] == [h] + y[..k];
    assert a[..k + 1][1..] == x[..k] && b[..k + 1][1..] == y[..k];
  }

  lemma SameHead(h: nat, x: seq<nat>, y: seq<nat>)
    ensures IsAtLeast([h] + x, [h] + y) <==> IsAtLeast(x, y)
  {
    var a, b := [h] + x, [h] + y;
    assert b <= a ==> y == b[1..] && x[..|y|] == a[..|b|][1..];
    assert y <= x ==> a[..|b|] == [h] + x[..|y|];
    forall k: nat | k < |x| && k < |y| {
      LargerBehind(h, x, y, k);
    }
    assert 0 < |a| && 0 < |b| ==> !LargerAt(a, b, 0);
    hide LargerAt;
    if k :| 0 <= k < |x| && k < |y| && LargerAt(x, y, k) {
      assert LargerAt(a, b, k + 1);
    }
    if k :| 0 <= k < |a| && k < |b| && LargerAt(a, b, k) {
      assert LargerAt(x, y, k - 1);
    }
  }

  lemma OtherHead(a: seq<nat>, b: seq<nat>)
    requires a != [] && b != [] && a[0] != b[0]
    ensures IsAtLeast(a, b) <==> a[0] > b[0]
  {
    assert a[0] > b[0] ==> LargerAt(a, b, 0);
    forall k: nat | 0 < k < |a| && k < |b| ensures !LargerAt(a, b, k) {
      assert a[..k][0] == a[0] && b[..k][0] == b[0];
    }
  }

  lemma {:induction false} AtLeastMeans(a: seq<nat>, b: seq<nat>)
    ensures AtLeast(a, b) <==> IsAtLeast(a, b)
  {
    if b != [] && a != [] {
      assert a == [a[0]] + a[1..] && b == [b[0]] + b[1..];
      if a[0] == b[0] {
        AtLeastMeans(a[1..], b[1..]);
        SameHead(a[0], a[1..], b[1..]);
      } else {
        OtherHead(a, b);
      }
      hide IsAtLeast;
    }
  }

  /** A version is at least another exactly if its numbers are: by the first difference, and otherwise by length. */
  lemma VersionsCompareByNumbers(a: seq<nat>, b: seq<nat>)
    requires a != [] && b != []
    ensures VersionGe(Dotted(a), Dotted(b)) <==> IsAtLeast(a, b)
  {
    KeyOfDotted(a);
    KeyOfDotted(b);
    hide Key, Dotted;
    AtLeastMeans(a, b);
  }

  function Dotted(numbers: seq<nat>): string
    requires numbers != []
  {
    if |numbers| == 1 then NatText(numbers[0]) else NatText(numbers[0]) + ("." + Dotted(numbers[1..]))
  }

  lemma {:induction false} PartsPrefix(d: string, s: string)
    requires AllDigits(d)
    ensures Parts(d + s) == [d + Parts(s)[0]] + Parts(s)[1..]
  {
    if d == "" {
      assert d + s == s && d + Parts(s)[0] == Parts(s)[0];
    } else {
      assert (d + s)[0] == d[0] && (d + s)[1..] == d[1..] + s;
      PartsPrefix(d[1..], s);
      assert [d[0]] + (d[1..] + Parts(s)[0]) == d + Parts(s)[0];
    }
  }

  lemma PartsOfDot(d: string, s: string)
    requires AllDigits(d)
    ensures Parts(d + ("." + s)) == [d] + Parts(s) && Parts(d) == [d]
  {
    assert ("." + s)[1..] == s;
    PartsPrefix(d, "." + s);
    PartsPrefix(d, "");
    assert d + "" == d;
  }

  lemma {:induction false} NumbersOfDotted(numbers: seq<nat>)
    requires numbers != []
    ensures LeadingNumbers(Parts(Dotted(numbers))) == numbers && Numbers(Parts(Dotted(numbers))) == numbers
  {
    hide Parts, NatText, NatOf;
    var d := NatText(numbers[0]);
    NatRoundTrip(numbers[0]);
    if |numbers| == 1 {
      PartsOfDot(d, "");
      assert LeadingNumbers([d][1..]) == [] && numbers == [numbers[0]];
    } else {
      NumbersOfDotted(numbers[1..]);
      PartsOfDot(d, Dotted(numbers[1..]));
      assert ([d] + Parts(Dotted(numbers[1..])))[1..] == Parts(Dotted(numbers[1..]));
      assert [numbers[0]] + numbers[1..] == numbers;
    }
  }

  lemma {:induction false} DottedIsSolid(numbers: seq<nat>)
    requires numbers != []
    ensures var t := Dotted(numbers); NoSpace(t) && t != "" && IsDigit(t[0])
  {
    IntTextIsSolid(numbers[0]);
    assert !IsSpace('.');
    if |numbers| > 1 {
      DottedIsSolid(numbers[1..]);
    }
  }

  lemma DropsOneV(t: string)
    requires t != "" && IsDigit(t[0])
    ensures DropVs(t) == t && DropVs("v" + t) == t
  {
    assert ("v" + t)[1..] == t;
  }

  lemma SolidStrips(t: string)
    requires NoSpace(t)
    ensures Strip(t) == t
  {
    hide IsSpace, Strip;
    StripSolid("", t);
    assert "" + t == t;
  }

  lemma VIsSolid(t: string)
    requires NoSpace(t)
    ensures NoSpace("v" + t)
  {
    assert !IsSpace('v');
  }

  /** A dotted version, with or without a leading v, has its numbers as its key. */
  lemma KeyOfDotted(numbers: seq<nat>)
    requires numbers != []
    ensures Key(Dotted(numbers)) == numbers && Key("v" + Dotted(numbers)) == numbers
  {
    hide Dotted, NoSpace, Numbers, Parts, Strip, DropVs, IsDigit;
    var t := Dotted(numbers);
    DottedIsSolid(numbers);
    NumbersOfDotted(numbers);
    VIsSolid(t);
    SolidStrips(t);
    SolidStrips("v" + t);
    DropsOneV(t);
  }

  // ---------------------------------------------------------------- floors

  /** A dependency as raise_floor's pattern finds it, or the text between two of them. */
  datatype Piece =
    | Between(text: string)
    | Dependency(quote: char, name: string, extras: string, lower: string, upper: string)

  /** A letter as the pattern's IGNORECASE sees it. */
  function Lower(c: char): char {
    if 'A' <= c <= 'Z' then 'a' + (c - 'A') else c
  }

  predicate SameName(a: string, b: string) {
    |a| == |b| && forall i :: 0 <= i < |a| ==> Lower(a[i]) == Lower(b[i])
  }

  function Raised(current: string, new_: string): string {
    if VersionGe(current, new_) then current else new_
  }

  function Cap(version: string): string {
    NatText(Key(version)[0] + 1)
  }

  function RaisedPiece(p: Piece, package: string, new_: string): Piece {
    match p
    case Between(_) => p
    case Dependency(_, name, _, lower, _) =>
      if !SameName(name, package) then p else p.(lower := Raised(lower, new_), upper := Cap(Raised(lower, new_)))
  }

  function RaiseFloor(pieces: seq<Piece>, package: string, new_: string): seq<Piece> {
    seq(|pieces|, i requires 0 <= i < |pieces| => RaisedPiece(pieces[i], package, new_))
  }

  /**
   No floor goes down, the package's floors reach the new version, their caps are the next major of the floor, and
   nothing else is touched.
   */
  lemma FloorsGoUp(pieces: seq<Piece>, package: string, new_: string, i: nat)
    requires i < |pieces|
    ensures var was, now := pieces[i], RaiseFloor(pieces, package, new_)[i];
      if was.Dependency? && SameName(was.name, package)
      then now.Dependency? && VersionGe(now.lower, was.lower) && VersionGe(now.lower, new_)
           && (now.lower == was.lower || now.lower == new_) && now.name == was.name && now.extras == was.extras &&
             now.quote == was.quote && Key(now.upper) == [Key(now.lower)[0] + 1]
      else now == was
  {
    hide Key;
    var p := pieces[i];
    if p.Dependency? {
      CapIsNextMajor(Raised(p.lower, new_));
      VersionsArePreordered(p.lower, new_, new_);
      VersionsArePreordered(new_, p.lower, new_);
    }
  }

  /** The cap is above the floor, and only the next major is. */
  lemma CapIsNextMajor(version: string)
    ensures !VersionGe(version, Cap(version)) && Key(Cap(version)) == [Key(version)[0] + 1]
  {
    var major := Key(version)[0] + 1;
    KeyOfDotted([major]);
    assert Dotted([major]) == NatText(major);
    hide Key;
  }

  /** Raising again changes nothing, and the higher of two raises wins in either order. */
  lemma RaisesSettle(current: string, a: string, b: string)
    ensures Raised(Raised(current, a), a) == Raised(current, a)
    ensures Key(Raised(Raised(current, a), b)) == Key(Raised(Raised(current, b), a))
  {
    hide Key;
    VersionsArePreordered(current, a, b);
    VersionsArePreordered(current, b, a);
    VersionsArePreordered(a, b, current);
    VersionsArePreordered(b, a, current);
    VersionsArePreordered(a, current, b);
    VersionsArePreordered(b, current, a);
  }

  // ---------------------------------------------------------------- bumps around the resolver

  datatype Bump = Bump(package: string, version: string)

  datatype Disk = Disk(pyproject: string, lock: string)

  /** What a call of the resolver does: it succeeds or fails, and may leave anything on disk either way. */
  datatype Outcome = Outcome(ok: bool, disk: Disk)

  /** The editor of one package's floor or constraint, the resolver, and the reader of the lock file, all arbitrary. */
  datatype World = World(
    edit: (string, Bump) -> string,
    resolve: (Disk, seq<string>) -> Outcome,
    locked: (string, string) -> Option<string>)

  function Specs(w: World, text: string, bumps: seq<Bump>): string {
    if bumps == [] then text
    else w.edit(Specs(w, text, bumps[..|bumps| - 1]), bumps[|bumps| - 1])
  }

  function Packages(bumps: seq<Bump>): seq<string> {
    seq(|bumps|, i requires 0 <= i < |bumps| => bumps[i].package)
  }

  predicate Satisfied(w: World, lock: string, b: Bump) {
    match w.locked(lock, b.package)
    case None => false
    case Some(v) => VersionGe(v, b.version)
  }

  /** The lock file has the package, at the bump's version or a later one. */
  predicate Reaches(w: World, lock: string, b: Bump) {
    w.locked(lock, b.package).Some? && VersionGe(w.locked(lock, b.package).value, b.version)
  }

  predicate Verified(w: World, lock: string, bumps: seq<Bump>) {
    forall i :: 0 <= i < |bumps| ==> Satisfied(w, lock, bumps[i])
  }

  lemma VerifiedMeans(w: World, lock: string, bumps: seq<Bump>)
    ensures Verified(w, lock, bumps) <==> forall i :: 0 <= i < |bumps| ==> Reaches(w, lock, bumps[i])
  {
    hide VersionGe;
    forall i | 0 <= i < |bumps| ensures Satisfied(w, lock, bumps[i]) <==> Reaches(w, lock, bumps[i]) {
    }
  }

  /** Editing, locking and verifying some bumps on top of a disk. */
  function Attempt(w: World, disk: Disk, bumps: seq<Bump>): Outcome {
    var o := w.resolve(Disk(Specs(w, disk.pyproject, bumps), disk.lock), Packages(bumps));
    Outcome(o.ok && Verified(w, o.disk.lock, bumps), o.disk)
  }

  function Step(w: World, good: Disk, b: Bump): Disk {
    if Attempt(w, good, [b]).ok then Attempt(w, good, [b]).disk else good
  }

  /** The retry loop: each bump on top of the last good disk. */
  function Steps(w: World, good: Disk, bumps: seq<Bump>): Disk {
    if bumps == [] then good else Step(w, Steps(w, good, bumps[..|bumps| - 1]), bumps[|bumps| - 1])
  }

  /** The bumps that succeeded in the retry loop. */
  function Applied(w: World, good: Disk, bumps: seq<Bump>): seq<Bump> {
    if bumps == [] then []
    else
      var init, last := bumps[..|bumps| - 1], bumps[|bumps| - 1];
      Applied(w, good, init) + (if Attempt(w, Steps(w, good, init), [last]).ok then [last] else [])
  }

  function Final(w: World, original: Disk, bumps: seq<Bump>): Disk {
    if bumps == [] then original
    else if Attempt(w, original, bumps).ok then Attempt(w, original, bumps).disk
    else Steps(w, original, bumps)
  }

  method ApplyPythonSpecs(w: World, text: string, bumps: seq<Bump>) returns (edited: string)
    ensures edited == Specs(w, text, bumps)
  {
    edited := text;
    var i := 0;
    while i < |bumps|
      invariant 0 <= i <= |bumps| && edited == Specs(w, text, bumps[..i])
    {
      assert bumps[..i + 1][..i] == bumps[..i];
      edited := w.edit(edited, bumps[i]);
      i := i + 1;
    }
    assert bumps[..i] == bumps;
  }

  method VerifyPythonLock(w: World, lock: string, bumps: seq<Bump>) returns (ok: bool)
    ensures ok == Verified(w, lock, bumps)
  {
    hide VersionGe;
    var i := 0;
    while i < |bumps|
      invariant 0 <= i <= |bumps| && forall k :: 0 <= k < i ==> Satisfied(w, lock, bumps[k])
    {
      if !Satisfied(w, lock, bumps[i]) {
        return false;
      }
      i := i + 1;
    }
    return true;
  }

  class Backend {
    var disk: Disk

    constructor (disk: Disk)
      ensures this.disk == disk
    {
      this.disk := disk;
    }

    /** One try: write the edited project file, lock, verify.  The disk is left as the resolver left it. */
    method Try(w: World, project: string, bumps: seq<Bump>) returns (ok: bool)
      requires disk.pyproject == project
      modifies this
      ensures Outcome(ok, disk) == Attempt(w, old(disk), bumps)
      ensures var o := w.resolve(Disk(Specs(w, project, bumps), old(disk).lock), Packages(bumps));
        disk == o.disk && (ok <==> o.ok && forall i :: 0 <= i < |bumps| ==> Reaches(w, o.disk.lock, bumps[i]))
    {
      hide Verified, Reaches;
      var text := ApplyPythonSpecs(w, project, bumps);
      disk := disk.(pyproject := text);
      var o := w.resolve(disk, Packages(bumps));
      disk := o.disk;
      var verified := VerifyPythonLock(w, disk.lock, bumps);
      VerifiedMeans(w, disk.lock, bumps);
      return o.ok && verified;
    }

    method ApplyPythonBumps(w: World, bumps: seq<Bump>) returns (applied: nat)
      modifies this
      ensures disk == Final(w, old(disk), bumps)
      ensures applied == if bumps != [] && Attempt(w, old(disk), bumps).ok then |bumps|
        else |Applied(w, old(disk), bumps)|
    {
      hide Attempt;
      applied := 0;
      if bumps == [] {
        return;
      }
      var original := disk;
      var bulk := Try(w, original.pyproject, bumps);
      if bulk {
        return |bumps|;
      }
      disk := original;
      applied := Retry(w, bumps);
    }

    method Retry(w: World, bumps: seq<Bump>) returns (applied: nat)
      modifies this
      ensures disk == Steps(w, old(disk), bumps) && applied == |Applied(w, old(disk), bumps)|
    {
      hide Attempt, Specs, Packages, Reaches;
      var good := disk;
      applied := 0;
      var i := 0;
      while i < |bumps|
        invariant 0 <= i <= |bumps| && disk == good && good == Steps(w, old(disk), bumps[..i])
        invariant applied == |Applied(w, old(disk), bumps[..i])|
      {
        assert bumps[..i + 1][..i] == bumps[..i];
        var ok := Try(w, good.pyproject, [bumps[i]]);
        if !ok {
          disk := good;
          i := i + 1;
          continue;
        }
        applied := applied + 1;
        good := disk;
        i := i + 1;
      }
      assert bumps[..i] == bumps;
    }
  }

  // ---------------------------------------------------------------- what a run leaves

  /** Bumps applied one after another, all taken as they come. */
  function Folded(w: World, disk: Disk, bumps: seq<Bump>): Disk {
    if bumps == [] then disk else Attempt(w, Folded(w, disk, bumps[..|bumps| - 1]), [bumps[|bumps| - 1]]).disk
  }

  predicate AllSucceed(w: World, disk: Disk, bumps: seq<Bump>) {
    bumps == [] || (AllSucceed(w, disk, bumps[..|bumps| - 1])
                    && Attempt(w, Folded(w, disk, bumps[..|bumps| - 1]), [bumps[|bumps| - 1]]).ok)
  }

  /**
   The retry loop's disk is the fold of exactly the successful bumps, each of which succeeds on top of those before it.
   */
  lemma {:induction false} StepsAreApplied(w: World, disk: Disk, bumps: seq<Bump>)
    ensures Steps(w, disk, bumps) == Folded(w, disk, Applied(w, disk, bumps))
    ensures AllSucceed(w, disk, Applied(w, disk, bumps))
  {
    hide Attempt;
    if bumps != [] {
      var init, last := bumps[..|bumps| - 1], bumps[|bumps| - 1];
      var before := Applied(w, disk, init);
      StepsAreApplied(w, disk, init);
      assert (before + [last])[..|before|] == before && before + [] == before;
    }
  }

  /** The next bump is applied exactly if the resolver takes it on top of the last good disk, and skipped otherwise. */
  lemma NextBump(w: World, disk: Disk, bumps: seq<Bump>, b: Bump)
    ensures var good := Steps(w, disk, bumps);
            var o := w.resolve(Disk(w.edit(good.pyproject, b), good.lock), [b.package]);
            var taken := o.ok && Reaches(w, o.disk.lock, b);
      && Steps(w, disk, bumps + [b]) == (if taken then o.disk else good)
      && Applied(w, disk, bumps + [b]) == Applied(w, disk, bumps) + if taken then [b] else []
  {
    hide VersionGe;
    assert (bumps + [b])[..|bumps|] == bumps;
    var good := Steps(w, disk, bumps);
    assert Specs(w, good.pyproject, [b]) == w.edit(good.pyproject, b) by {
      assert [b][..0] == [];
    }
    assert Packages([b]) == [b.package];
    var lock := Attempt(w, good, [b]).disk.lock;
    assert Verified(w, lock, [b]) <==> Satisfied(w, lock, [b][0]);
  }

  lemma {:induction false} SuccessesApply(w: World, disk: Disk, bumps: seq<Bump>)
    requires AllSucceed(w, disk, bumps)
    ensures Applied(w, disk, bumps) == bumps && Steps(w, disk, bumps) == Folded(w, disk, bumps)
  {
    hide Attempt;
    if bumps != [] {
      SuccessesApply(w, disk, bumps[..|bumps| - 1]);
    }
  }

  /**
   Skipped bumps leave no trace: the loop run on the successful ones alone applies them all and ends on the same disk.
   */
  lemma SkippedLeaveNoTrace(w: World, disk: Disk, bumps: seq<Bump>)
    ensures var kept := Applied(w, disk, bumps);
      Steps(w, disk, kept) == Steps(w, disk, bumps) && Applied(w, disk, kept) == kept
  {
    hide Steps, Applied, Folded, AllSucceed;
    StepsAreApplied(w, disk, bumps);
    SuccessesApply(w, disk, Applied(w, disk, bumps));
  }

  /**
   The disk after a run: the verified result of all bumps at once, or the fold of exactly the successful ones; with
   none of them successful, the original.
   */
  lemma FinalDisk(w: World, original: Disk, bumps: seq<Bump>)
    ensures var bulk := Attempt(w, original, bumps); var kept := Applied(w, original, bumps);
      && (bumps != [] && bulk.ok ==> Final(w, original, bumps) == bulk.disk && Verified(w, bulk.disk.lock, bumps))
      && (bumps != [] && !bulk.ok ==>
            Final(w, original, bumps) == Folded(w, original, kept) && AllSucceed(w, original, kept))
      && (bumps == [] || (!bulk.ok && kept == []) ==> Final(w, original, bumps) == original)
  {
    hide Steps, Applied, AllSucceed, Specs, VersionGe;
    StepsAreApplied(w, original, bumps);
  }

  // ---------------------------------------------------------------- do applied bumps stay verified?

  /** Python's order of strings. */
  predicate Before(a: string, b: string) {
    b != "" && (a == "" || a[0] < b[0] || (a[0] == b[0] && Before(a[1..], b[1..])))
  }

  /** The bumps as a dictionary's sorted items come. */
  ghost predicate Sorted(bumps: seq<Bump>) {
    forall i, j :: 0 <= i < j < |bumps| ==> Before(bumps[i].package, bumps[j].package)
  }

  /** No step that succeeds after a run of verified successes undoes one of them. */
  ghost predicate StepsKeepVerified(w: World) {
    forall disk: Disk, bumps: seq<Bump>, b: Bump ::
      Sorted(bumps + [b]) && AllSucceed(w, disk, bumps) && Verified(w, Folded(w, disk, bumps).lock, bumps)
      && Attempt(w, Folded(w, disk, bumps), [b]).ok
      ==> Verified(w, Attempt(w, Folded(w, disk, bumps), [b]).disk.lock, bumps)
  }

  /** Every retry loop leaves all the bumps it applied verified. */
  ghost predicate RunsKeepVerified(w: World) {
    forall disk: Disk, bumps: seq<Bump> ::
      Sorted(bumps) ==> Verified(w, Steps(w, disk, bumps).lock, Applied(w, disk, bumps))
  }

  lemma {:induction false} AppliedAreBumps(w: World, disk: Disk, bumps: seq<Bump>, b: Bump)
    requires b in Applied(w, disk, bumps)
    ensures b in bumps
  {
    hide Attempt, Steps;
    if b in Applied(w, disk, bumps[..|bumps| - 1]) {
      AppliedAreBumps(w, disk, bumps[..|bumps| - 1], b);
    }
  }

  lemma {:induction false} AppliedAreSorted(w: World, disk: Disk, bumps: seq<Bump>)
    requires Sorted(bumps)
    ensures Sorted(Applied(w, disk, bumps))
  {
    hide Attempt, Before, Steps;
    if bumps != [] {
      var init := bumps[..|bumps| - 1];
      AppliedAreSorted(w, disk, init);
      var before := Applied(w, disk, init);
      forall i | 0 <= i < |before| ensures Before(before[i].package, bumps[|bumps| - 1].package) {
        AppliedAreBumps(w, disk, init, before[i]);
      }
    }
  }

  /** Successes one after another stay verified if single steps keep them. */
  lemma {:induction false} SuccessesStayVerified(w: World, disk: Disk, bumps: seq<Bump>)
    requires StepsKeepVerified(w) && Sorted(bumps) && AllSucceed(w, disk, bumps)
    ensures Verified(w, Folded(w, disk, bumps).lock, bumps)
  {
    hide Satisfied, Attempt, Before;
    if bumps != [] {
      var init, last := bumps[..|bumps| - 1], bumps[|bumps| - 1];
      assert init + [last] == bumps;
      SuccessesStayVerified(w, disk, init);
      LastIsSatisfied(w, Folded(w, disk, init), last);
      VerifiedGrows(w, Folded(w, disk, bumps).lock, init, last);
    }
  }

  lemma StepKeeps(w: World, disk: Disk, bumps: seq<Bump>, b: Bump)
    requires RunsKeepVerified(w) && Sorted(bumps + [b]) && AllSucceed(w, disk, bumps) &&
      Attempt(w, Folded(w, disk, bumps), [b]).ok
    ensures Verified(w, Attempt(w, Folded(w, disk, bumps), [b]).disk.lock, bumps)
  {
    var all := bumps + [b];
    assert all[..|bumps|] == bumps;
    assert AllSucceed(w, disk, all);
    SuccessesApply(w, disk, all);
    hide Attempt, Before, Steps, Applied, Sorted;
    assert Verified(w, Steps(w, disk, all).lock, Applied(w, disk, all));
    assert Folded(w, disk, all) == Attempt(w, Folded(w, disk, bumps), [b]).disk;
    VerifiedPart(w, Folded(w, disk, all).lock, bumps, b);
  }

  lemma VerifiedPart(w: World, lock: string, init: seq<Bump>, last: Bump)
    requires Verified(w, lock, init + [last])
    ensures Verified(w, lock, init)
  {
    hide Satisfied;
    forall i | 0 <= i < |init| ensures Satisfied(w, lock, init[i]) {
      assert (init + [last])[i] == init[i];
    }
  }

  /**
   Which resolvers are safe to retry with: every run leaves its applied bumps verified exactly if no single successful
   step undoes a bump of a run that was verified until then.
   */
  lemma VerifiedExactlyIfStepsKeep(w: World)
    ensures RunsKeepVerified(w) <==> StepsKeepVerified(w)
  {
    if RunsKeepVerified(w) {
      forall disk: Disk, bumps: seq<Bump>, b: Bump |
        Sorted(bumps + [b]) && AllSucceed(w, disk, bumps) && Verified(w, Folded(w, disk, bumps).lock, bumps)
        && Attempt(w, Folded(w, disk, bumps), [b]).ok
        ensures Verified(w, Attempt(w, Folded(w, disk, bumps), [b]).disk.lock, bumps)
      {
        hide *;
        StepKeeps(w, disk, bumps, b);
      }
    }
    if StepsKeepVerified(w) {
      hide Attempt, Before, Verified, Sorted, StepsKeepVerified, AllSucceed;
      forall disk: Disk, bumps: seq<Bump> | Sorted(bumps)
        ensures Verified(w, Steps(w, disk, bumps).lock, Applied(w, disk, bumps))
      {
        StepsAreApplied(w, disk, bumps);
        AppliedAreSorted(w, disk, bumps);
        SuccessesStayVerified(w, disk, Applied(w, disk, bumps));
      }
    }
  }

  /** A resolver that never lowers a locked version. */
  ghost predicate NeverLowers(w: World) {
    forall d: Disk, packages: seq<string>, p: string ::
      w.resolve(d, packages).ok && w.locked(d.lock, p).Some? ==>
        var after := w.locked(w.resolve(d, packages).disk.lock, p);
        after.Some? && VersionGe(after.value, w.locked(d.lock, p).value)
  }

  lemma StaysSatisfied(w: World, disk: Disk, more: Bump, b: Bump)
    requires NeverLowers(w) && Attempt(w, disk, [more]).ok && Satisfied(w, disk.lock, b)
    ensures Satisfied(w, Attempt(w, disk, [more]).disk.lock, b)
  {
    hide VersionGe, Specs;
    var d := Disk(Specs(w, disk.pyproject, [more]), disk.lock);
    var after := w.locked(w.resolve(d, Packages([more])).disk.lock, b.package);
    assert after.Some? && VersionGe(after.value, w.locked(d.lock, b.package).value);
    VersionsArePreordered(after.value, w.locked(d.lock, b.package).value, b.version);
  }

  /** With such a resolver, every bump the retry loop applied is verified in the final lock file. */
  lemma {:induction false} AppliedStayVerified(w: World, disk: Disk, bumps: seq<Bump>)
    requires NeverLowers(w) && AllSucceed(w, disk, bumps)
    ensures Verified(w, Folded(w, disk, bumps).lock, bumps)
  {
    hide NeverLowers, Satisfied, Attempt;
    if bumps != [] {
      var init, last := bumps[..|bumps| - 1], bumps[|bumps| - 1];
      AppliedStayVerified(w, disk, init);
      OneMoreVerified(w, Folded(w, disk, init), init, last);
      assert init + [last] == bumps;
    }
  }

  lemma OneMoreVerified(w: World, before: Disk, init: seq<Bump>, last: Bump)
    requires NeverLowers(w) && Verified(w, before.lock, init) && Attempt(w, before, [last]).ok
    ensures Verified(w, Attempt(w, before, [last]).disk.lock, init + [last])
  {
    LastIsSatisfied(w, before, last);
    hide NeverLowers, Satisfied, Attempt;
    var after := Attempt(w, before, [last]).disk.lock;
    forall i | 0 <= i < |init| ensures Satisfied(w, after, init[i]) {
      StaysSatisfied(w, before, last, init[i]);
    }
    VerifiedGrows(w, after, init, last);
  }

  lemma VerifiedGrows(w: World, lock: string, init: seq<Bump>, last: Bump)
    requires Verified(w, lock, init) && Satisfied(w, lock, last)
    ensures Verified(w, lock, init + [last])
  {
    hide Satisfied;
  }

  lemma LastIsSatisfied(w: World, disk: Disk, b: Bump)
    requires Attempt(w, disk, [b]).ok
    ensures Satisfied(w, Attempt(w, disk, [b]).disk.lock, b)
  {
    hide VersionGe, Specs;
    assert [b][0] == b;
  }

  // ---------------------------------------------------------------- a bump that is lost

  /** A resolver that can hold a or b at 2, but not both. */
  function Seesaw(): World {
    World((text: string, b: Bump) => text,
          (d: Disk, packages: seq<string>) => if |packages| == 1 then Outcome(true, Disk(d.pyproject, packages[0]))
            else Outcome(false, d),
          (lock: string, package: string) => Some(if lock == package then "2" else "1"))
  }

  lemma SmallKey(n: nat)
    requires n < 10
    ensures Key([DigitChar(n)]) == [n]
  {
    assert NatText(n) == [DigitChar(n)];
    hide Key, NatText;
    KeyOfDotted([n]);
  }

  lemma SmallKeys()
    ensures VersionGe("2", "2") && !VersionGe("1", "2")
  {
    hide Key;
    SmallKey(1);
    SmallKey(2);
    assert [DigitChar(1)] == "1" && [DigitChar(2)] == "2";
  }

  /** The retry loop does not look back: a bump it applied and verified can be undone by a later one. */
  lemma EarlierBumpCanBeLost(original: Disk)
    ensures var bumps := [Bump("a", "2"), Bump("b", "2")]; var w := Seesaw();
      && !Attempt(w, original, bumps).ok && Applied(w, original, bumps) == bumps
      && !Satisfied(w, Final(w, original, bumps).lock, bumps[0])
    ensures !RunsKeepVerified(Seesaw())
  {
    var w, a, b := Seesaw(), Bump("a", "2"), Bump("b", "2");
    assert "a"[0] < "b"[0] && Before("a", "b") && Sorted([a, b]);
    SeesawTips(original, a, b);
    BulkFails(w, original, a, b);
    SeesawHolds(a, "b");
    hide Steps, Applied, Attempt, Seesaw, Satisfied, Sorted;
    var kept := Applied(w, original, [a, b]);
    assert kept[0] == a && !Verified(w, Steps(w, original, [a, b]).lock, kept);
  }

  lemma SeesawHolds(b: Bump, lock: string)
    requires b.version == "2"
    ensures Satisfied(Seesaw(), lock, b) <==> lock == b.package
  {
    SmallKeys();
    hide VersionGe;
  }

  /** The resolver takes the bump on top of the disk, and leaves its package's name in the lock file. */
  predicate Takes(w: World, disk: Disk, b: Bump) {
    var o := w.resolve(Disk(w.edit(disk.pyproject, b), disk.lock), [b.package]);
    o.ok && o.disk.lock == b.package && Reaches(w, o.disk.lock, b)
  }

  lemma TakenNext(w: World, disk: Disk, bumps: seq<Bump>, b: Bump)
    requires Takes(w, Steps(w, disk, bumps), b)
    ensures Applied(w, disk, bumps + [b]) == Applied(w, disk, bumps) + [b]
    ensures Steps(w, disk, bumps + [b]).lock == b.package
  {
    NextBump(w, disk, bumps, b);
    hide Steps, Applied, Reaches;
  }

  /** The loop applies both, and the lock ends with the second. */
  lemma SeesawTips(disk: Disk, a: Bump, b: Bump)
    requires a.version == "2" && b.version == "2"
    ensures Applied(Seesaw(), disk, [a, b]) == [a, b] && Steps(Seesaw(), disk, [a, b]).lock == b.package
  {
    NothingApplied(disk);
    hide *;
    SeesawTakes(disk, a);
    TakenNext(Seesaw(), disk, [], a);
    SeesawTakes(Steps(Seesaw(), disk, [a]), b);
    TakenNext(Seesaw(), disk, [a], b);
    assert [] + [a] == [a] && [a] + [b] == [a, b];
  }

  lemma NothingApplied(disk: Disk)
    ensures Applied(Seesaw(), disk, []) == [] && Steps(Seesaw(), disk, []) == disk
  {
    hide Seesaw;
  }

  /** It takes either of them alone. */
  lemma SeesawTakes(disk: Disk, b: Bump)
    requires b.version == "2"
    ensures Takes(Seesaw(), disk, b)
  {
    SmallKeys();
    hide VersionGe;
  }

  lemma BulkFails(w: World, disk: Disk, a: Bump, b: Bump)
    requires w == Seesaw()
    ensures !Attempt(w, disk, [a, b]).ok
  {
    hide Specs, Verified;
    assert |Packages([a, b])| == 2;
  }
}
