/** Python's string and integer conversions, as far as the coverage tool uses them. */
module Text {
  import opened Wrappers

  // ---------------------------------------------------------------- characters

  /** The characters for which `str.isspace` holds. */
  predicate IsSpace(c: char) {
    || '\t' <= c <= '\r' || '\U{1c}' <= c <= ' ' || c == '\U{85}' || c == '\U{a0}' || c == '\U{1680}'
    || '\U{2000}' <= c <= '\U{200a}' || c == '\U{2028}' || c == '\U{2029}' || c == '\U{202f}' || c == '\U{205f}'
    || c == '\U{3000}'
  }

  predicate IsDigit(c: char) {
    '0' <= c <= '9'
  }

  predicate AllDigits(s: string) {
    forall i :: 0 <= i < |s| ==> IsDigit(s[i])
  }

  predicate NoSpace(s: string) {
    forall i :: 0 <= i < |s| ==> !IsSpace(s[i])
  }

  // ---------------------------------------------------------------- stripping

  function LStrip(s: string): (r: string)
    ensures |r| <= |s| && r == s[|s| - |r|..] && (r != "" ==> !IsSpace(r[0]))
  {
    if s != "" && IsSpace(s[0]) then LStrip(s[1..]) else s
  }

  function RStrip(s: string): (r: string)
    ensures |r| <= |s| && r == s[..|r|] && (r != "" ==> !IsSpace(r[|r| - 1]))
  {
    if s != "" && IsSpace(s[|s| - 1]) then RStrip(s[..|s| - 1]) else s
  }

  function Strip(s: string): string {
    RStrip(LStrip(s))
  }

  predicate AllSpace(s: string) {
    forall i :: 0 <= i < |s| ==> IsSpace(s[i])
  }

  lemma {:induction false} LStripPadded(pad: string, s: string)
    requires AllSpace(pad) && (s == "" || !IsSpace(s[0]))
    ensures LStrip(pad + s) == s
  {
    if pad == "" {
      assert pad + s == s;
    } else {
      assert (pad + s)[0] == pad[0] && (pad + s)[1..] == pad[1..] + s;
      LStripPadded(pad[1..], s);
    }
  }

  lemma StripSolid(pad: string, s: string)
    requires AllSpace(pad) && NoSpace(s)
    ensures LStrip(pad + s) == s && Strip(pad + s) == s
  {
    LStripPadded(pad, s);
  }

  lemma NotBlank(s: string)
    requires s != "" && !IsSpace(s[0])
    ensures LStrip(s) == s && Strip(s) != "" && Strip(s)[0] == s[0]
  {
    RStripKeepsFirst(s);
  }

  lemma {:induction false} RStripKeepsFirst(s: string)
    requires s != "" && !IsSpace(s[0])
    ensures RStrip(s) != ""
  {
    if IsSpace(s[|s| - 1]) {
      RStripKeepsFirst(s[..|s| - 1]);
    }
  }

  // ---------------------------------------------------------------- decimal numbers

  function DigitChar(d: nat): char
    requires d < 10
  {
    '0' + d as char
  }

  function DigitValue(c: char): nat
    requires IsDigit(c)
  {
    (c - '0') as nat
  }

  function NatText(n: nat): (r: string)
    ensures r != "" && AllDigits(r)
  {
    if n < 10 then [DigitChar(n)] else NatText(n / 10) + [DigitChar(n % 10)]
  }

  function NatOf(s: string): nat
    requires AllDigits(s)
  {
    if s == "" then 0 else 10 * NatOf(s[..|s| - 1]) + DigitValue(s[|s| - 1])
  }

  /** The number a run of digits stands for. */
  function DigitsOf(d: string): nat {
    if AllDigits(d) then NatOf(d) else 0
  }

  lemma {:induction false} NatRoundTrip(n: nat)
    ensures NatOf(NatText(n)) == n
  {
    var t := NatText(n);
    if n >= 10 {
      NatRoundTrip(n / 10);
      assert t[..|t| - 1] == NatText(n / 10);
    } else {
      assert t[..0] == "";
    }
  }

  /** Python's `%d`. */
  function IntText(i: int): string {
    if i < 0 then "-" + NatText(-i) else NatText(i)
  }

  /** Digits with single underscores between them, the only form `int` allows them in. */
  predicate Underscored(s: string) {
    && s != "" && IsDigit(s[0]) && IsDigit(s[|s| - 1])
    && (forall i :: 0 <= i < |s| ==> IsDigit(s[i]) || s[i] == '_')
    && (forall i :: 0 <= i < |s| - 1 ==> IsDigit(s[i]) || IsDigit(s[i + 1]))
  }

  function DropUnderscores(s: string): (r: string)
    requires forall i :: 0 <= i < |s| ==> IsDigit(s[i]) || s[i] == '_'
    ensures AllDigits(r) && (AllDigits(s) ==> r == s)
  {
    if s == "" then "" else if s[0] == '_' then DropUnderscores(s[1..]) else [s[0]] + DropUnderscores(s[1..])
  }

  function UnsignedInt(s: string): Option<nat> {
    if Underscored(s) then Some(NatOf(DropUnderscores(s))) else None
  }

  /** Python's `int(s)` in base ten; None stands for its ValueError. */
  function PyInt(s: string): Option<int> {
    SignedInt(Strip(s))
  }

  function SignedInt(t: string): Option<int> {
    if t != "" && (t[0] == '-' || t[0] == '+')
    then
      match UnsignedInt(t[1..])
      case None => None
      case Some(n) => Some(if t[0] == '-' then -(n as int) else n)
    else UnsignedInt(t)
  }

  lemma UnsignedRoundTrip(n: nat)
    ensures UnsignedInt(NatText(n)) == Some(n)
  {
    NatRoundTrip(n);
  }

  lemma DigitIsNotSpace(c: char)
    requires IsDigit(c) || c == '-'
    ensures !IsSpace(c)
  {
  }

  lemma IntTextIsSolid(i: int)
    ensures NoSpace(IntText(i))
  {
    var t := IntText(i);
    forall k | 0 <= k < |t| ensures !IsSpace(t[k]) {
      DigitIsNotSpace(t[k]);
    }
  }

  lemma SignedRoundTrip(i: int)
    ensures SignedInt(IntText(i)) == Some(i)
  {
    var n := if i < 0 then -i else i;
    UnsignedRoundTrip(n);
    if i < 0 {
      assert IntText(i)[1..] == NatText(n);
    } else {
      assert IsDigit(IntText(i)[0]);
    }
  }

  /** Printing then reading an integer gives it back, whatever white space precedes it. */
  lemma IntRoundTrip(pad: string, i: int)
    requires AllSpace(pad)
    ensures NoSpace(IntText(i)) && PyInt(pad + IntText(i)) == Some(i)
  {
    IntTextIsSolid(i);
    SignedRoundTrip(i);
    StripSolid(pad, IntText(i));
  }

  // ---------------------------------------------------------------- split and join

  /** Python's `s.split(c)` for a one-character separator. */
  function Split(s: string, c: char): (parts: seq<string>)
    ensures parts != []
  {
    if s == "" then [""]
    else
      var rest := Split(s[1..], c);
      if s[0] == c then [""] + rest else [[s[0]] + rest[0]] + rest[1..]
  }

  function Join(parts: seq<string>, sep: string): string {
    if parts == [] then ""
    else if |parts| == 1 then parts[0]
    else parts[0] + sep + Join(parts[1..], sep)
  }

  lemma {:induction false} SplitPrefix(p: string, s: string, c: char)
    requires c !in p
    ensures Split(p + s, c) == [p + Split(s, c)[0]] + Split(s, c)[1..]
  {
    if p == "" {
      assert p + s == s && p + Split(s, c)[0] == Split(s, c)[0];
    } else {
      assert (p + s)[1..] == p[1..] + s && (p + s)[0] == p[0];
      SplitPrefix(p[1..], s, c);
      assert [p[0]] + (p[1..] + Split(s, c)[0]) == p + Split(s, c)[0];
    }
  }

  /** Splitting a joined text at its separator's first character gives the parts back, later ones still padded. */
  lemma {:induction false} SplitJoined(parts: seq<string>, c: char, pad: string)
    requires parts != [] && c !in pad && forall p :: p in parts ==> c !in p
    ensures Split(Join(parts, [c] + pad), c)
      == [parts[0]] + seq(|parts| - 1, i requires 0 <= i < |parts| - 1 => pad + parts[i + 1])
    decreases |parts|
  {
    var sep := [c] + pad;
    if |parts| == 1 {
      SplitPrefix(parts[0], "", c);
      assert parts[0] + "" == parts[0];
    } else {
      var rest := Join(parts[1..], sep);
      SplitJoined(parts[1..], c, pad);
      SplitPrefix(pad, rest, c);
      assert Join(parts, sep) == parts[0] + ([c] + (pad + rest));
      assert ([c] + (pad + rest))[1..] == pad + rest;
      SplitPrefix(parts[0], [c] + (pad + rest), c);
      assert parts[0] + "" == parts[0];
    }
  }

  // ---------------------------------------------------------------- spans

  /** Character classes of the row pattern: not white space, a digit, a digit or a dot. */
  datatype Class = Solid | Digit | Decimal

  predicate In(c: char, k: Class) {
    match k
    case Solid => !IsSpace(c)
    case Digit => IsDigit(c)
    case Decimal => IsDigit(c) || c == '.'
  }

  /** The longest prefix in a class. */
  function Span(s: string, k: Class): (r: string)
    ensures |r| <= |s| && r == s[..|r|]
  {
    if s != "" && In(s[0], k) then [s[0]] + Span(s[1..], k) else ""
  }

  lemma {:induction false} SpanExact(w: string, rest: string, k: Class)
    requires forall i :: 0 <= i < |w| ==> In(w[i], k)
    requires rest == "" || !In(rest[0], k)
    ensures Span(w + rest, k) == w && (w + rest)[|w|..] == rest
  {
    hide In;
    if w == "" {
      assert w + rest == rest;
    } else {
      assert (w + rest)[0] == w[0] && (w + rest)[1..] == w[1..] + rest;
      SpanExact(w[1..], rest, k);
    }
  }

  /** Python's `s.split()`. */
  function Words(s: string): seq<string>
    decreases |s|
  {
    var t := LStrip(s);
    if t == "" then []
    else
      var w := Span(t, Solid);
      assert w != "";
      [w] + Words(t[|w|..])
  }

  lemma WordsStep(pad: string, w: string, rest: string)
    requires AllSpace(pad) && NoSpace(w) && w != "" && (rest == "" || IsSpace(rest[0]))
    ensures Words(pad + (w + rest)) == [w] + Words(rest)
  {
    LStripPadded(pad, w + rest);
    SpanExact(w, rest, Solid);
  }

  // ---------------------------------------------------------------- lines

  /** The characters `str.splitlines` breaks at. */
  predicate IsBreak(c: char) {
    || '\n' <= c <= '\r' || '\U{1c}' <= c <= '\U{1e}' || c == '\U{85}' || c == '\U{2028}' || c == '\U{2029}'
  }

  predicate NoBreak(s: string) {
    forall i :: 0 <= i < |s| ==> !IsBreak(s[i])
  }

  /** Python's `s.splitlines()`; a carriage return and a following line feed are one break. */
  function SplitLines(s: string): seq<string> {
    if s == "" then []
    else if IsBreak(s[0])
    then [""] + SplitLines(if s[0] == '\r' && |s| > 1 && s[1] == '\n' then s[2..] else s[1..])
    else
      var rest := SplitLines(s[1..]);
      if rest == [] then [[s[0]]] else [[s[0]] + rest[0]] + rest[1..]
  }

  function Unlines(lines: seq<string>): string {
    if lines == [] then "" else lines[0] + "\n" + Unlines(lines[1..])
  }

  lemma {:induction false} SplitLine(line: string, rest: string)
    requires NoBreak(line)
    ensures SplitLines(line + "\n" + rest) == [line] + SplitLines(rest)
  {
    var s := line + "\n" + rest;
    if line == "" {
      assert s[0] == '\n' && s[1..] == rest;
    } else {
      assert s[0] == line[0] && s[1..] == line[1..] + "\n" + rest;
      SplitLine(line[1..], rest);
      assert SplitLines(s[1..]) == [line[1..]] + SplitLines(rest);
      assert [s[0]] + line[1..] == line;
    }
  }

  lemma {:induction false} SplitUnlines(lines: seq<string>)
    requires forall i :: 0 <= i < |lines| ==> NoBreak(lines[i])
    ensures SplitLines(Unlines(lines)) == lines
  {
    if lines != [] {
      SplitLine(lines[0], Unlines(lines[1..]));
      SplitUnlines(lines[1..]);
    }
  }

  lemma {:induction false} JoinedLines(lines: seq<string>)
    requires lines != []
    ensures Join(lines, "\n") + "\n" == Unlines(lines)
  {
    if |lines| > 1 {
      JoinedLines(lines[1..]);
    }
  }
}
