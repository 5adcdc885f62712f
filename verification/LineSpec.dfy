/** Line lists of the coverage file: the interval text printed by format_missing and read back by parse_line_spec. */
module LineSpec {
  import opened Wrappers
  import opened Text

  type Interval = (nat, nat)

  // ---------------------------------------------------------------- parsing

  function Range(lo: int, hi: int): (r: set<int>)
    ensures forall x :: x in r <==> lo <= x <= hi
    decreases hi - lo
  {
    if lo > hi then {} else Range(lo, hi - 1) + {hi}
  }

  function FirstDash(s: string): (i: nat)
    requires '-' in s
    ensures i < |s| && s[i] == '-' && '-' !in s[..i]
  {
    if s[0] == '-' then 0
    else
      var k := FirstDash(s[1..]);
      assert s[..1 + k] == [s[0]] + s[1..][..k];
      1 + k
  }

  function ParseInterval(token: string): Result<set<int>, string>
    requires '-' in token
  {
    var k := FirstDash(token);
    match (PyInt(Strip(token[..k])), PyInt(Strip(token[k + 1..])))
    case (Some(lo), Some(hi)) => if lo > hi then Err("Invalid line interval: " + token) else Ok(Range(lo, hi))
    case _ => Err("Invalid line interval: " + token)
  }

  function ParseToken(raw: string): Result<set<int>, string> {
    ParseStripped(Strip(raw))
  }

  function ParseStripped(token: string): Result<set<int>, string> {
    if token == "" then Ok({})
    else if '-' in token then ParseInterval(token)
    else
      match PyInt(token)
      case Some(n) => Ok({n})
      case None => Err("Invalid line number: " + token)
  }

  /** The union of the tokens' lines, or the error of the first bad token. */
  function ParseTokens(raws: seq<string>): Result<set<int>, string> {
    if raws == [] then Ok({})
    else
      match ParseTokens(raws[..|raws| - 1])
      case Err(e) => Err(e)
      case Ok(lines) =>
        match ParseToken(raws[|raws| - 1])
        case Err(e) => Err(e)
        case Ok(more) => Ok(lines + more)
  }

  function ParsedSpec(spec: string): Result<set<int>, string> {
    ParseTokens(Split(spec, ','))
  }

  function ParsedMissing(missing: string): Result<set<int>, string> {
    if Strip(missing) == "" then Ok({}) else ParsedSpec(missing)
  }

  method ParseLineSpec(spec: string) returns (r: Result<set<int>, string>)
    ensures r == ParsedSpec(spec)
  {
    hide ParseToken, Split;
    var tokens := Split(spec, ',');
    var lines: set<int> := {};
    var i := 0;
    while i < |tokens|
      invariant 0 <= i <= |tokens| && ParseTokens(tokens[..i]) == Ok(lines)
    {
      assert tokens[..i + 1][..i] == tokens[..i];
      var token := ParseToken(tokens[i]);
      if token.Err? {
        ErrorStays(tokens, i + 1);
        return Err(token.error);
      }
      lines := lines + token.value;
      i := i + 1;
    }
    assert tokens[..i] == tokens;
    return Ok(lines);
  }

  lemma {:induction false} ErrorStays(raws: seq<string>, k: nat)
    requires k <= |raws| && ParseTokens(raws[..k]).Err?
    ensures ParseTokens(raws) == ParseTokens(raws[..k])
  {
    if k == |raws| {
      assert raws[..k] == raws;
    } else {
      var init := raws[..|raws| - 1];
      assert init[..k] == raws[..k];
      ErrorStays(init, k);
    }
  }

  /** A blank token names no line, and one without a dash exactly the number it spells; all others are refused. */
  lemma PlainTokens(raw: string)
    requires '-' !in Strip(raw)
    ensures ParseToken(raw).Ok? <==> Strip(raw) == "" || PyInt(Strip(raw)).Some?
    ensures Strip(raw) == "" ==> ParseToken(raw) == Ok({})
    ensures Strip(raw) != "" && PyInt(Strip(raw)).Some? ==> ParseToken(raw) == Ok({PyInt(Strip(raw)).value})
    ensures ParseToken(raw).Err? ==> ParseToken(raw).error == "Invalid line number: " + Strip(raw)
  {
  }

  lemma FirstDashIs(a: string, b: string)
    requires '-' !in a
    ensures '-' in a + "-" + b && FirstDash(a + "-" + b) == |a|
    ensures (a + "-" + b)[..|a|] == a && (a + "-" + b)[|a| + 1..] == b
  {
    assert (a + "-" + b)[|a|] == '-';
  }

  /**
   A token with a dash is split at the first one; it is taken exactly if both parts are numbers in order, and then
   names every line between them.
   */
  lemma DashedTokens(raw: string, a: string, b: string)
    requires Strip(raw) == a + "-" + b && '-' !in a
    ensures var lo, hi, r := PyInt(Strip(a)), PyInt(Strip(b)), ParseToken(raw);
      && (r.Ok? <==> lo.Some? && hi.Some? && lo.value <= hi.value)
      && (r.Ok? ==> forall x :: x in r.value <==> lo.value <= x <= hi.value)
      && (r.Err? ==> r.error == "Invalid line interval: " + Strip(raw))
  {
    hide PyInt, Strip;
    FirstDashIs(a, b);
  }

  /** Every token with a dash is one of those. */
  lemma DashSplits(token: string) returns (a: string, b: string)
    requires '-' in token
    ensures token == a + "-" + b && '-' !in a
  {
    var k := FirstDash(token);
    a, b := token[..k], token[k + 1..];
  }

  // ---------------------------------------------------------------- sorting

  lemma SomeMember<T>(s: set<T>) returns (m: T)
    requires s != {}
    ensures m in s
  {
    m :| m in s;
  }

  lemma {:induction false} MaxExists(s: set<int>)
    requires s != {}
    ensures exists m :: IsMax(s, m)
  {
    var m := SomeMember(s);
    if forall x :: x in s ==> x <= m {
      assert IsMax(s, m);
    } else {
      var k :| k in s && k > m;
      assert k in s - {m};
      MaxExists(s - {m});
      var n :| IsMax(s - {m}, n);
      assert forall x :: x in s ==> x == m || x in s - {m};
      assert k <= n && IsMax(s, n);
    }
  }

  predicate IsMax(s: set<int>, m: int) {
    m in s && forall x :: x in s ==> x <= m
  }

  function Largest(s: set<int>): (m: int)
    requires s != {}
    ensures IsMax(s, m)
  {
    MaxExists(s);
    var m :| m in s && forall x :: x in s ==> x <= m;
    m
  }

  ghost predicate Ascending(r: seq<int>) {
    forall i, j :: 0 <= i < j < |r| ==> r[i] < r[j]
  }

  ghost function Elements(r: seq<int>): set<int> {
    if r == [] then {} else Elements(r[..|r| - 1]) + {r[|r| - 1]}
  }

  lemma {:induction false} ElementsAreMembers(r: seq<int>, i: nat)
    requires i < |r|
    ensures r[i] in Elements(r)
  {
    if i < |r| - 1 {
      ElementsAreMembers(r[..|r| - 1], i);
    }
  }

  /** Python's `sorted` on a set of numbers. */
  function Sorted(s: set<int>): seq<int> {
    if s == {} then [] else Sorted(s - {Largest(s)}) + [Largest(s)]
  }

  lemma ElementsGrow(r: seq<int>, m: int)
    ensures Elements(r + [m]) == Elements(r) + {m}
  {
    assert (r + [m])[..|r|] == r;
  }

  lemma AscendingGrows(r: seq<int>, m: int)
    requires Ascending(r) && forall x :: x in Elements(r) ==> x < m
    ensures Ascending(r + [m])
  {
    forall i | 0 <= i < |r| ensures r[i] < m {
      ElementsAreMembers(r, i);
    }
  }

  lemma SortedStep(s: set<int>)
    ensures Sorted(s) == if s == {} then [] else Sorted(s - {Largest(s)}) + [Largest(s)]
  {
    hide Largest;
  }

  lemma {:induction false} SortedIsSorted(s: set<int>)
    ensures Ascending(Sorted(s)) && Elements(Sorted(s)) == s
  {
    SortedStep(s);
    hide Largest, Sorted;
    if s != {} {
      var m := Largest(s);
      SortedIsSorted(s - {m});
      hide Ascending, Elements;
      AscendingGrows(Sorted(s - {m}), m);
      ElementsGrow(Sorted(s - {m}), m);
    }
  }

  // ---------------------------------------------------------------- intervals

  /** One more number, past all the intervals so far: it lengthens the last interval or starts a new one. */
  function Extend(ivs: seq<(int, int)>, x: int): (r: seq<(int, int)>)
    ensures r != []
  {
    if ivs != [] && x == ivs[|ivs| - 1].1 + 1
    then ivs[..|ivs| - 1] + [(ivs[|ivs| - 1].0, x)]
    else ivs + [(x, x)]
  }

  /** The maximal runs of consecutive numbers of an ascending list. */
  function Runs(r: seq<int>): seq<(int, int)> {
    if r == [] then [] else Extend(Runs(r[..|r| - 1]), r[|r| - 1])
  }

  function IntervalText(iv: (int, int)): string {
    if iv.0 == iv.1 then IntText(iv.0) else IntText(iv.0) + "-" + IntText(iv.1)
  }

  function IntervalTexts(ivs: seq<(int, int)>): seq<string> {
    seq(|ivs|, i requires 0 <= i < |ivs| => IntervalText(ivs[i]))
  }

  function MissingText(lines: set<int>): string {
    Join(IntervalTexts(Runs(Sorted(lines))), ", ")
  }

  lemma TextsGrow(ivs: seq<(int, int)>, iv: (int, int))
    ensures IntervalTexts(ivs + [iv]) == IntervalTexts(ivs) + [IntervalText(iv)]
  {
  }

  method FormatMissing(lines: set<int>) returns (text: string)
    ensures text == MissingText(lines)
  {
    if lines == {} {
      return "";
    }
    var sorted := Sorted(lines);
    var parts: seq<string> := [];
    var start, end := sorted[0], sorted[0];
    ghost var done: seq<(int, int)> := [];
    var i := 1;
    assert sorted[..1] == [start] && sorted[..1][..0] == [];
    while i < |sorted|
      invariant 1 <= i <= |sorted|
      invariant Runs(sorted[..i]) == done + [(start, end)] && parts == IntervalTexts(done)
    {
      var line := sorted[i];
      assert sorted[..i + 1][..i] == sorted[..i];
      assert (done + [(start, end)])[..|done|] == done;
      if line == end + 1 {
        end := line;
      } else {
        TextsGrow(done, (start, end));
        parts := parts + [if start == end then IntText(start) else IntText(start) + "-" + IntText(end)];
        done := done + [(start, end)];
        start, end := line, line;
      }
      i := i + 1;
    }
    assert sorted[..i] == sorted;
    TextsGrow(done, (start, end));
    parts := parts + [if start == end then IntText(start) else IntText(start) + "-" + IntText(end)];
    return Join(parts, ", ");
  }

  ghost function Covered(ivs: seq<(int, int)>): set<int> {
    if ivs == [] then {} else Covered(ivs[..|ivs| - 1]) + Range(ivs[|ivs| - 1].0, ivs[|ivs| - 1].1)
  }

  /** Each interval is nonempty and every later one starts at least two past its end. */
  ghost predicate Maximal(ivs: seq<(int, int)>) {
    && (forall k :: 0 <= k < |ivs| ==> ivs[k].0 <= ivs[k].1)
    && (forall j, k :: 0 <= j < k < |ivs| ==> ivs[j].1 + 2 <= ivs[k].0)
  }

  lemma CoveredGrows(ivs: seq<(int, int)>, iv: (int, int))
    ensures Covered(ivs + [iv]) == Covered(ivs) + Range(iv.0, iv.1)
  {
    assert (ivs + [iv])[..|ivs|] == ivs;
  }

  lemma LengthenIsExact(rest: seq<(int, int)>, lo: int, hi: int)
    requires lo <= hi
    ensures Covered(rest + [(lo, hi + 1)]) == Covered(rest + [(lo, hi)]) + {hi + 1}
  {
    CoveredGrows(rest, (lo, hi));
    CoveredGrows(rest, (lo, hi + 1));
    hide Covered;
    assert Range(lo, hi + 1) == Range(lo, hi) + {hi + 1};
  }

  lemma ExtendIsExact(ivs: seq<(int, int)>, x: int)
    requires Maximal(ivs) && (ivs != [] ==> ivs[|ivs| - 1].1 < x)
    ensures var r := Extend(ivs, x); Maximal(r) && Covered(r) == Covered(ivs) + {x} && r[|r| - 1].1 == x
  {
    hide Covered;
    if ivs != [] && x == ivs[|ivs| - 1].1 + 1 {
      var last := ivs[|ivs| - 1];
      assert ivs == ivs[..|ivs| - 1] + [(last.0, last.1)];
      LengthenIsExact(ivs[..|ivs| - 1], last.0, last.1);
    } else {
      CoveredGrows(ivs, (x, x));
      assert Range(x, x) == {x};
    }
  }

  /** The printed intervals are ascending, maximal, and cover exactly the lines. */
  lemma {:induction false} RunsAreExact(r: seq<int>)
    requires Ascending(r)
    ensures Maximal(Runs(r)) && Covered(Runs(r)) == Elements(r)
    ensures r != [] ==> Runs(r) != [] && Runs(r)[|Runs(r)| - 1].1 == r[|r| - 1]
  {
    if r != [] {
      var init := r[..|r| - 1];
      RunsAreExact(init);
      if init != [] {
        assert init[|init| - 1] < r[|r| - 1];
      }
      ExtendIsExact(Runs(init), r[|r| - 1]);
    }
  }

  // ---------------------------------------------------------------- round trip

  lemma DigitsOnly(n: nat)
    ensures '-' !in IntText(n) && ',' !in IntText(n) && IntText(n) != "" && IsDigit(IntText(n)[0])
  {
  }

  lemma IntervalTextShape(iv: (int, int))
    requires 0 <= iv.0 <= iv.1
    ensures var t := IntervalText(iv);
      && t != "" && NoSpace(t) && ',' !in t && !IsSpace(t[0])
  {
    DigitsOnly(iv.0);
    DigitsOnly(iv.1);
    IntTextIsSolid(iv.0);
    IntTextIsSolid(iv.1);
    DigitIsNotSpace('-');
  }

  lemma PlainIntRoundTrip(n: nat)
    ensures Strip(IntText(n)) == IntText(n) && PyInt(IntText(n)) == Some(n)
  {
    IntRoundTrip("", n);
    StripSolid("", IntText(n));
    assert "" + IntText(n) == IntText(n);
  }

  lemma PairRoundTrip(lo: nat, hi: nat)
    requires lo <= hi
    ensures var t := IntText(lo) + "-" + IntText(hi); '-' in t && ParseInterval(t) == Ok(Range(lo, hi))
  {
    hide PyInt, Strip, IntText, IsSpace;
    var a, b := IntText(lo), IntText(hi);
    var t := a + "-" + b;
    DigitsOnly(lo);
    FirstDashIs(a, b);
    PlainIntRoundTrip(lo);
    PlainIntRoundTrip(hi);
    assert t[|a|] == '-' && t[..|a|] == a && t[|a| + 1..] == b;
  }

  lemma StrippedRoundTrip(iv: (int, int))
    requires 0 <= iv.0 <= iv.1
    ensures ParseStripped(IntervalText(iv)) == Ok(Range(iv.0, iv.1))
  {
    hide PyInt, Strip, IntText, ParseInterval;
    if iv.0 == iv.1 {
      DigitsOnly(iv.0);
      PlainIntRoundTrip(iv.0);
      assert Range(iv.0, iv.1) == {iv.0};
    } else {
      PairRoundTrip(iv.0, iv.1);
    }
  }

  lemma TokenRoundTrip(pad: string, iv: (int, int))
    requires AllSpace(pad) && 0 <= iv.0 <= iv.1
    ensures ParseToken(pad + IntervalText(iv)) == Ok(Range(iv.0, iv.1))
  {
    IntervalTextShape(iv);
    StripSolid(pad, IntervalText(iv));
    StrippedRoundTrip(iv);
  }

  ghost predicate Natural(ivs: seq<(int, int)>) {
    forall k :: 0 <= k < |ivs| ==> 0 <= ivs[k].0 <= ivs[k].1
  }

  lemma {:induction false} TokensRoundTrip(raws: seq<string>, pads: seq<string>, ivs: seq<(int, int)>)
    requires |raws| == |pads| == |ivs| && Natural(ivs)
    requires forall k :: 0 <= k < |raws| ==> AllSpace(pads[k]) && raws[k] == pads[k] + IntervalText(ivs[k])
    ensures ParseTokens(raws) == Ok(Covered(ivs))
  {
    if raws != [] {
      var n := |raws| - 1;
      TokensRoundTrip(raws[..n], pads[..n], ivs[..n]);
      TokenRoundTrip(pads[n], ivs[n]);
    }
  }

  lemma {:induction false} RunsAreNatural(r: seq<int>)
    requires Ascending(r) && forall i :: 0 <= i < |r| ==> 0 <= r[i]
    ensures Natural(Runs(r))
  {
    if r != [] {
      RunsAreNatural(r[..|r| - 1]);
      RunsAreExact(r);
    }
  }

  lemma TextsHaveNoComma(ivs: seq<(int, int)>)
    requires Natural(ivs)
    ensures forall t :: t in IntervalTexts(ivs) ==> ',' !in t
  {
    hide IntervalText, IsSpace;
    forall t | t in IntervalTexts(ivs) ensures ',' !in t {
      var k :| 0 <= k < |ivs| && IntervalTexts(ivs)[k] == t;
      IntervalTextShape(ivs[k]);
    }
  }

  lemma TextsRoundTrip(ivs: seq<(int, int)>)
    requires ivs != [] && Natural(ivs)
    ensures var text := Join(IntervalTexts(ivs), ", "); Strip(text) != "" && ParsedSpec(text) == Ok(Covered(ivs))
  {
    assert IsSpace(' ');
    TextsHaveNoComma(ivs);
    IntervalTextShape(ivs[0]);
    hide ParseTokens, Covered, Split, IsSpace, Strip, IntervalText, Natural;
    var texts := IntervalTexts(ivs);
    SplitJoined(texts, ',', " ");
    assert [','] + " " == ", ";
    var text := Join(texts, ", ");
    var pads := [""] + seq(|ivs| - 1, i => " ");
    var raws := Split(text, ',');
    forall k | 0 <= k < |raws| ensures AllSpace(pads[k]) && raws[k] == pads[k] + IntervalText(ivs[k]) {
      assert "" + texts[0] == texts[0];
    }
    TokensRoundTrip(raws, pads, ivs);
    NotBlank(text);
  }

  /** Reading the printed text of any finite set of line numbers gives the set back. */
  lemma MissingRoundTrip(lines: set<int>)
    requires NaturalSet(lines)
    ensures ParsedMissing(MissingText(lines)) == Ok(lines)
  {
    var r := Sorted(lines);
    SortedIsSorted(lines);
    if lines != {} {
      forall i | 0 <= i < |r| ensures 0 <= r[i] {
        ElementsAreMembers(r, i);
      }
      RunsAreNatural(r);
      RunsAreExact(r);
      TextsRoundTrip(Runs(r));
    }
  }

  lemma WithoutDashIsNatural(s: string)
    requires '-' !in s && PyInt(s).Some?
    ensures 0 <= PyInt(s).value
  {
  }

  predicate NaturalSet(lines: set<int>) {
    forall x :: x in lines ==> 0 <= x
  }

  lemma TokenIsNatural(raw: string)
    requires ParseToken(raw).Ok?
    ensures NaturalSet(ParseToken(raw).value)
  {
    var token := Strip(raw);
    if token != "" {
      if '-' in token {
        WithoutDashIsNatural(Strip(token[..FirstDash(token)]));
      } else {
        WithoutDashIsNatural(token);
      }
    }
  }

  lemma NaturalUnion(a: set<int>, b: set<int>)
    requires NaturalSet(a) && NaturalSet(b)
    ensures NaturalSet(a + b)
  {
  }

  /** Whatever was typed, the lines read from it are natural numbers. */
  lemma {:induction false} TokensAreNatural(raws: seq<string>)
    requires ParseTokens(raws).Ok?
    ensures NaturalSet(ParseTokens(raws).value)
  {
    if raws != [] {
      var last := raws[|raws| - 1];
      TokensAreNatural(raws[..|raws| - 1]);
      TokenIsNatural(last);
      NaturalUnion(ParseTokens(raws[..|raws| - 1]).value, ParseToken(last).value);
    }
  }

  /** Printing what was read is a normal form: doing it again changes nothing. */
  lemma NormalForm(text: string)
    requires ParsedMissing(text).Ok?
    ensures var normal := MissingText(ParsedMissing(text).value);
      ParsedMissing(normal) == ParsedMissing(text) && MissingText(ParsedMissing(normal).value) == normal
  {
    if Strip(text) != "" {
      TokensAreNatural(Split(text, ','));
    }
    MissingRoundTrip(ParsedMissing(text).value);
  }
}
