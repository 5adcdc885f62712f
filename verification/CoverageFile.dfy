/** The text of the coverage file: write_file's lines and parse_rows' reading of them. */
module CoverageFile {
  import opened Sequences
  import opened Wrappers
  import opened Text
  import opened CoverageRows

  // ---------------------------------------------------------------- printing

  function Repeat(c: char, n: int): string {
    seq(if n > 0 then n else 0, i => c)
  }

  function Spaces(n: int): string {
    Repeat(' ', n)
  }

  /**
   The padding right of a left-justified field, the space between fields, and the padding left of a right-justified
   one.
   */
  function Gap(after: int, before: int): string {
    Spaces(after) + " " + Spaces(before)
  }

  function HundredthsText(h: nat): string {
    NatText(h / 100) + ("." + [DigitChar(h % 100 / 10), DigitChar(h % 10)])
  }

  /** `100.0 if stmts == 0 else (stmts - miss) * 100.0 / stmts` to two decimals, the sign of a negative cover kept. */
  function CoverText(stmts: nat, miss: int): string {
    if stmts == 0 then HundredthsText(10000)
    else if miss <= stmts then HundredthsText(Hundredths(stmts - miss, stmts))
    else "-" + HundredthsText(Hundredths(miss - stmts, stmts))
  }

  /** `part * 100 / whole`, in hundredths, rounded to the nearest. */
  function Hundredths(part: nat, whole: nat): nat
    requires whole > 0
  {
    (part * 20000 + whole) / (2 * whole)
  }

  /** `%-79s %5d %6d %6.2f%%`, and the missing lines if there are any. */
  function FormatRow(name: string, stmts: nat, miss: int, missing: string): string {
    name + (Gap(79 - |name|, 5 - |IntText(stmts)|)
    + (IntText(stmts) + (Gap(0, 6 - |IntText(miss)|)
    + (IntText(miss) + (Gap(0, 6 - |CoverText(stmts, miss)|)
    + (CoverText(stmts, miss) + ("%" + Tail(missing))))))))
  }

  function Tail(missing: string): string {
    if missing == "" then "" else "   " + missing
  }

  datatype Total = Total(stmts: int, miss: int, cover: string)

  /** `TOTAL %75s %6d %6d %6.2f%%` with an empty first field. */
  function TotalLine(stmts: nat, miss: int): string {
    "TOTAL" + (Gap(0, 75) + (Gap(0, 6 - |IntText(stmts)|)
    + (IntText(stmts) + (Gap(0, 6 - |IntText(miss)|)
    + (IntText(miss) + (Gap(0, 6 - |CoverText(stmts, miss)|)
    + (CoverText(stmts, miss) + "%")))))))
  }

  function Rule(): string {
    Repeat('-', 110)
  }

  function Title(): string {
    "Name" + (Spaces(76) + "Stmts   Miss   Cover   Missing")
  }

  predicate IsOutdated(name: string, row: Row, sources: map<string, set<int>>) {
    name !in sources || |sources[name]| != row.stmts
  }

  /** A row's line, commented out when the row no longer fits its file. */
  function RowLine(name: string, row: Row, sources: map<string, set<int>>): string {
    (if IsOutdated(name, row, sources) then "# " else "") + FormatRow(name, row.stmts, row.miss, row.missing)
  }

  predicate Known(order: seq<string>, rows: map<string, Row>) {
    forall k :: 0 <= k < |order| ==> order[k] in rows
  }

  method WriteFile(rows: map<string, Row>, order: seq<string>, sources: map<string, set<int>>, totalStmts: nat,
      totalMiss: int)
    returns (text: string)
    requires Known(order, rows)
    ensures text == FileText(rows, order, sources, totalStmts, totalMiss)
  {
    hide RowLine, TotalLine;
    var lines := [Title() + "\n" + Rule()];
    var i := 0;
    while i < |order|
      invariant 0 <= i <= |order|
      invariant lines == [Title() + "\n" + Rule()] + RowLines(rows, order[..i], sources)
    {
      assert order[..i + 1][..i] == order[..i];
      lines := lines + [RowLine(order[i], rows[order[i]], sources)];
      i := i + 1;
    }
    assert order[..i] == order;
    lines := lines + [Rule()];
    lines := lines + [TotalLine(totalStmts, totalMiss)];
    assert lines
      == [Title() + "\n" + Rule()] + (RowLines(rows, order, sources) + [Rule(), TotalLine(totalStmts, totalMiss)]);
    return Join(lines, "\n") + "\n";
  }

  function RowLines(rows: map<string, Row>, order: seq<string>, sources: map<string, set<int>>): seq<string>
    requires Known(order, rows)
  {
    if order == [] then []
    else
      RowLines(rows, order[..|order| - 1], sources) + [RowLine(order[|order| - 1], rows[order[|order| - 1]], sources)]
  }

  function FileText(rows: map<string, Row>, order: seq<string>, sources: map<string, set<int>>, stmts: nat,
      miss: int): string
    requires Known(order, rows)
  {
    Join([Title() + "\n" + Rule()] + (RowLines(rows, order, sources) + [Rule(), TotalLine(stmts, miss)]), "\n") + "\n"
  }

  // ---------------------------------------------------------------- the printed share and its place

  /** The number of hundredths a text with two decimals stands for. */
  ghost function HundredthsOf(s: string): Option<int> {
    if s != "" && s[0] == '-' then
      match UnsignedHundredths(s[1..])
      case Some(h) => Some(-(h as int))
      case None => None
    else UnsignedHundredths(s)
  }

  ghost function UnsignedHundredths(s: string): Option<nat> {
    var n := |s| - 3;
    if n >= 1 && AllDigits(s[..n]) && s[n] == '.' && IsDigit(s[n + 1]) && IsDigit(s[n + 2])
    then Some(100 * NatOf(s[..n]) + 10 * DigitValue(s[n + 1]) + DigitValue(s[n + 2]))
    else None
  }

  lemma HundredthsRead(h: nat)
    ensures UnsignedHundredths(HundredthsText(h)) == Some(h)
    ensures HundredthsText(h) != "" && IsDigit(HundredthsText(h)[0])
  {
    var whole, s := NatText(h / 100), HundredthsText(h);
    NatRoundTrip(h / 100);
    hide NatText;
    assert s[..|s| - 3] == whole;
    assert h == 100 * (h / 100) + 10 * (h % 100 / 10) + h % 10;
  }

  lemma Rounded(part: nat, whole: nat)
    requires whole > 0
    ensures var h := Hundredths(part, whole); -(whole as int) <= 2 * (h * whole - part * 10000) <= whole
  {
    var h := Hundredths(part, whole);
    var n, d := part * 20000 + whole, 2 * whole;
    assert n == d * (n / d) + n % d;
    assert d * h == 2 * (h * whole);
  }

  /** The printed cover is within half a hundredth of the exact one, and 100.00 where nothing is missed. */
  lemma PrintedCover(stmts: nat, miss: int)
    ensures HundredthsOf(CoverText(stmts, miss)).Some?
    ensures var h, c := HundredthsOf(CoverText(stmts, miss)).value, Cover(stmts, miss);
      -c.den <= 2 * (h * c.den - 100 * c.num) <= c.den
    ensures miss == 0 ==> HundredthsOf(CoverText(stmts, miss)) == Some(10000)
  {
    hide HundredthsText, UnsignedHundredths, Hundredths;
    HundredthsRead(10000);
    if stmts > 0 {
      var part: nat := if miss <= stmts then stmts - miss else miss - stmts;
      var h := Hundredths(part, stmts);
      HundredthsRead(h);
      Rounded(part, stmts);
      if miss > stmts {
        assert ("-" + HundredthsText(h))[1..] == HundredthsText(h);
        assert (-h) * stmts == -(h * stmts);
      }
      if miss == 0 {
        WholeIsHundred(stmts);
      }
    }
  }

  lemma NearZero(k: int, whole: int)
    requires whole > 0 && -whole <= 2 * (k * whole) <= whole
    ensures k == 0
  {
  }

  lemma WholeIsHundred(whole: nat)
    requires whole > 0
    ensures Hundredths(whole, whole) == 10000
  {
    Rounded(whole, whole);
    NearZero(Hundredths(whole, whole) - 10000, whole);
  }

  /** A row is printed as a comment exactly if its file is gone or no longer has the row's number of statements. */
  lemma OutdatedRowsAreComments(name: string, row: Row, sources: map<string, set<int>>)
    requires name != "" && name[0] != '#'
    ensures var line := RowLine(name, row, sources);
      && (line[..2] == "# " <==> name !in sources || |sources[name]| != row.stmts)
      && (line[..2] != "# " ==> line[0] == name[0])
  {
    hide Gap, IntText, CoverText, Tail;
    assert RowLine(name, row, sources)[..2] == "# " ==> RowLine(name, row, sources)[0] == '#';
    assert IsOutdated(name, row, sources) ==> RowLine(name, row, sources)[..2] == "# ";
  }

  /** Right-justified in a field of the given width. */
  predicate Right(field: string, text: string, width: nat) {
    |field| == width && |text| <= width && field == Spaces(width - |text|) + text
  }

  lemma GapSplits(left: string, after: int, before: int, field: string, rest: string)
    ensures left + (Gap(after, before) + (field + rest))
         == (left + Spaces(after)) + (" " + ((Spaces(before) + field) + rest))
    ensures left == "" && after == 0 ==>
              Gap(after, before) + (field + rest) == " " + ((Spaces(before) + field) + rest)
    ensures |Spaces(before) + field| == |field| + if before > 0 then before else 0
  {
    hide Spaces;
    SpacesLength(before);
    NoSpaces();
    var a, b := Spaces(after), Spaces(before);
    assert Gap(after, before) + (field + rest) == a + (" " + ((b + field) + rest));
    if left == "" && after == 0 {
      assert a + (" " + ((b + field) + rest)) == " " + ((b + field) + rest);
    }
  }

  lemma SpacesLength(n: int)
    ensures |Spaces(n)| == if n > 0 then n else 0
  {
  }

  lemma NoSpaces()
    ensures Spaces(0) == ""
  {
  }

  lemma LeftLength(name: string)
    requires |name| <= 79
    ensures |name + Spaces(79 - |name|)| == 79
  {
  }

  /** A blank, a field, and the rest. */
  lemma CutField(s: string, field: string, rest: string)
    requires s == " " + (field + rest)
    ensures s != "" && s[0] == ' ' && s[1..1 + |field|] == field && s[1 + |field|..] == rest
  {
    assert s[1..] == field + rest;
  }

  lemma ColumnsOf(left: string, f1: string, f2: string, f3: string, rest: string, row: string)
    requires |left| == 79 && |f1| == 5 && |f2| == 6 && |f3| == 6
    requires row == left + (" " + (f1 + (" " + (f2 + (" " + (f3 + rest))))))
    ensures |row| == 99 + |rest| && row[..79] == left && row[80..85] == f1 && row[86..92] == f2 && row[93..99] == f3
    ensures row[79] == row[85] == row[92] == ' ' && row[99..] == rest
  {
    var r3 := " " + (f3 + rest);
    var r2 := " " + (f2 + r3);
    var r1 := " " + (f1 + r2);
    assert row[79..] == r1;
    CutField(r1, f1, r2);
    assert row[85..] == r1[6..] && row[80..85] == r1[1..6] && row[79] == r1[0];
    CutField(r2, f2, r3);
    assert row[92..] == row[85..][7..] && row[86..92] == row[85..][1..7] && row[85] == row[85..][0];
    CutField(r3, f3, rest);
    assert row[99..] == row[92..][7..] && row[93..99] == row[92..][1..7] && row[92] == row[92..][0];
  }

  /** The columns of a row whose fields fit: the name on the left, then three numbers on the right of their columns. */
  lemma Columns(name: string, stmts: nat, miss: int, missing: string)
    requires |name| <= 79 && |IntText(stmts)| <= 5 && |IntText(miss)| <= 6 && |CoverText(stmts, miss)| <= 6
    ensures var row := FormatRow(name, stmts, miss, missing);
      && |row| >= 100 && row[..79] == name + Spaces(79 - |name|)
      && Right(row[80..85], IntText(stmts), 5) && Right(row[86..92], IntText(miss), 6)
      && Right(row[93..99], CoverText(stmts, miss), 6)
      && row[79] == row[85] == row[92] == ' ' && row[99] == '%'
      && row[100..] == if missing == "" then "" else "   " + missing
  {
    hide IntText, CoverText;
    var s, m, c := IntText(stmts), IntText(miss), CoverText(stmts, miss);
    var row := FormatRow(name, stmts, miss, missing);
    var left := name + Spaces(79 - |name|);
    var f1, f2, f3 := Spaces(5 - |s|) + s, Spaces(6 - |m|) + m, Spaces(6 - |c|) + c;
    var tail := Tail(missing);
    assert tail == if missing == "" then "" else "   " + missing;
    hide Spaces, Gap, Tail;
    var t3 := Gap(0, 6 - |c|) + (c + ("%" + tail));
    var t2 := Gap(0, 6 - |m|) + (m + t3);
    assert row == name + (Gap(79 - |name|, 5 - |s|) + (s + t2));
    GapSplits("", 0, 6 - |c|, c, "%" + tail);
    GapSplits("", 0, 6 - |m|, m, t3);
    GapSplits(name, 79 - |name|, 5 - |s|, s, t2);
    hide FormatRow;
    LeftLength(name);
    ColumnsOf(left, f1, f2, f3, "%" + tail, row);
    assert row[100..] == row[99..][1..] && ("%" + tail)[1..] == tail;
  }

  // ---------------------------------------------------------------- reading

  datatype ParsedRow = ParsedRow(stmts: nat, miss: nat, cover: string, missing: string)

  /** White space and then a number. */
  function SkipNumber(s: string): Option<(nat, string)> {
    var t := LStrip(s);
    var d := Span(t, Digit);
    if |t| == |s| || d == "" then None else Some((DigitsOf(d), t[|d|..]))
  }

  /** White space, then digits and dots, then a percent sign. */
  function SkipPercent(s: string): Option<(string, string)> {
    var t := LStrip(s);
    var c := Span(t, Decimal);
    var rest := t[|c|..];
    if |t| == |s| || c == "" || rest == "" || rest[0] != '%' then None else Some((c, rest[1..]))
  }

  /** The optional last field: nothing, or white space and then the rest of the line. */
  function LastField(s: string): Option<string> {
    if s == "" then Some("") else if IsSpace(s[0]) then Some(LStrip(s)) else None
  }

  /** The row pattern.  Neighbouring pieces of it share no characters, so reading greedily is matching it. */
  function MatchRow(work: string): Option<(string, ParsedRow)> {
    var name := Span(work, Solid);
    if name == "" then None else MatchStmts(name, work[|name|..])
  }

  function MatchStmts(name: string, s: string): Option<(string, ParsedRow)> {
    match SkipNumber(s)
    case None => None
    case Some((stmts, rest)) => MatchMiss(name, stmts, rest)
  }

  function MatchMiss(name: string, stmts: nat, s: string): Option<(string, ParsedRow)> {
    match SkipNumber(s)
    case None => None
    case Some((miss, rest)) => MatchCover(name, stmts, miss, rest)
  }

  function MatchCover(name: string, stmts: nat, miss: nat, s: string): Option<(string, ParsedRow)> {
    match SkipPercent(s)
    case None => None
    case Some((cover, rest)) =>
      match LastField(rest)
      case None => None
      case Some(missing) => Some((name, ParsedRow(stmts, miss, cover, missing)))
  }

  /** Digits with at most one dot, after an optional sign; other texts are read as float's ValueError. */
  predicate FloatOk(s: string) {
    var t := if s != "" && (s[0] == '-' || s[0] == '+') then s[1..] else s;
    var whole := Span(t, Digit);
    var rest := t[|whole|..];
    if rest == "" then whole != ""
    else rest[0] == '.' && AllDigits(rest[1..]) && (whole != "" || |rest| > 1)
  }

  datatype Item = Nothing | RowItem(name: string, row: ParsedRow) | TotalItem(total: Total) | Bad

  function ParseTotal(line: string): Item {
    var parts := Words(line);
    if |parts| < 4 then Bad
    else
      var cover := RStripPercent(parts[3]);
      match (PyInt(parts[1]), PyInt(parts[2]))
      case (Some(stmts), Some(miss)) => if FloatOk(cover) then TotalItem(Total(stmts, miss, cover)) else Bad
      case _ => Bad
  }

  function RStripPercent(s: string): string {
    if s != "" && s[|s| - 1] == '%' then RStripPercent(s[..|s| - 1]) else s
  }

  predicate StartsWith(s: string, p: string) {
    p <= s
  }

  function Uncommented(line: string): string {
    var t := LStrip(line);
    if StartsWith(t, "#") then LStrip(t[1..]) else line
  }

  function ParseLine(line: string): Item {
    if StartsWith(line, "TOTAL") then ParseTotal(line) else ParseWork(Uncommented(line))
  }

  function ParseWork(work: string): Item {
    var sparse := Strip(work);
    if sparse == "" || StartsWith(sparse, "-") then Nothing else FromMatch(MatchRow(work))
  }

  function FromMatch(m: Option<(string, ParsedRow)>): Item {
    match m
    case None => Nothing
    case Some((name, row)) => if FloatOk(row.cover) then RowItem(name, row) else Bad
  }

  datatype Table = Table(rows: map<string, ParsedRow>, total: Option<Total>)

  function ParsedLines(lines: seq<string>): Result<Table, string> {
    if lines == [] then Ok(Table(map[], None))
    else
      match ParsedLines(lines[..|lines| - 1])
      case Err(e) => Err(e)
      case Ok(t) => WithItem(t, ParseLine(lines[|lines| - 1]))
  }

  function WithItem(t: Table, item: Item): Result<Table, string> {
    match item
    case Nothing => Ok(t)
    case RowItem(name, row) => Ok(t.(rows := t.rows[name := row]))
    case TotalItem(total) => Ok(t.(total := Some(total)))
    case Bad => Err("ValueError")
  }

  method ParseRows(text: string) returns (r: Result<Table, string>)
    ensures r == ParsedLines(SplitLines(text))
  {
    hide ParseLine, SplitLines;
    var lines := SplitLines(text);
    var rows: map<string, ParsedRow> := map[];
    var total: Option<Total> := None;
    var i := 0;
    while i < |lines|
      invariant 0 <= i <= |lines| && ParsedLines(lines[..i]) == Ok(Table(rows, total))
    {
      assert lines[..i + 1][..i] == lines[..i];
      match ParseLine(lines[i]) {
        case Nothing =>
        case RowItem(name, row) => rows := rows[name := row];
        case TotalItem(t) => total := Some(t);
        case Bad =>
          FailureStays(lines, i + 1);
          return Err("ValueError");
      }
      i := i + 1;
    }
    assert lines[..i] == lines;
    return Ok(Table(rows, total));
  }

  lemma {:induction false} FailureStays(lines: seq<string>, k: nat)
    requires k <= |lines| && ParsedLines(lines[..k]).Err?
    ensures ParsedLines(lines) == ParsedLines(lines[..k])
  {
    hide ParseLine;
    if k == |lines| {
      assert lines[..k] == lines;
    } else {
      assert lines[..|lines| - 1][..k] == lines[..k];
      FailureStays(lines[..|lines| - 1], k);
    }
  }

  // ---------------------------------------------------------------- one row, there and back

  lemma NumberSkipped(gap: string, n: nat, rest: string)
    requires AllSpace(gap) && gap != "" && (rest == "" || !IsDigit(rest[0]))
    ensures SkipNumber(gap + (NatText(n) + rest)) == Some((n, rest))
  {
    var d := NatText(n);
    DigitIsNotSpace(d[0]);
    hide IsSpace;
    LStripPadded(gap, d + rest);
    SpanExact(d, rest, Digit);
    NatRoundTrip(n);
  }

  lemma NoNumber(gap: string, rest: string)
    requires AllSpace(gap) && rest != "" && !IsSpace(rest[0]) && !IsDigit(rest[0])
    ensures SkipNumber(gap + rest) == None
  {
    hide IsSpace;
    LStripPadded(gap, rest);
    SpanExact("", rest, Digit);
    assert "" + rest == rest;
  }

  lemma PercentSkipped(gap: string, c: string, rest: string)
    requires AllSpace(gap) && gap != "" && c != "" && AllDecimal(c)
    ensures SkipPercent(gap + (c + ("%" + rest))) == Some((c, rest))
  {
    if c[0] == '.' {
      assert !IsSpace('.');
    } else {
      DigitIsNotSpace(c[0]);
    }
    hide IsSpace;
    LStripPadded(gap, c + ("%" + rest));
    SpanExact(c, "%" + rest, Decimal);
  }

  lemma NoPercent(gap: string, rest: string)
    requires AllSpace(gap) && rest != "" && rest[0] == '-'
    ensures SkipPercent(gap + rest) == None
  {
    DigitIsNotSpace('-');
    hide IsSpace;
    LStripPadded(gap, rest);
    SpanExact("", rest, Decimal);
    assert "" + rest == rest;
  }

  predicate AllDecimal(c: string) {
    forall i :: 0 <= i < |c| ==> In(c[i], Decimal)
  }

  /** One word, a number for float, with no percent sign in it. */
  predicate NumberWord(c: string) {
    c != "" && NoSpace(c) && FloatOk(c) && '%' !in c
  }

  lemma DottedShape(whole: string, part: string)
    requires whole != "" && AllDigits(whole) && AllDigits(part)
    ensures var c := whole + ("." + part); NumberWord(c) && AllDecimal(c) && NumberWord("-" + c)
  {
    var c := whole + ("." + part);
    forall i | 0 <= i < |c| ensures !IsSpace(c[i]) {
      assert IsDigit(c[i]) || c[i] == '.';
      DigitIsNotSpace(if c[i] == '.' then '0' else c[i]);
    }
    DigitIsNotSpace('-');
    hide IsSpace;
    SpanExact(whole, "." + part, Digit);
    assert ("-" + c)[1..] == c && ("." + part)[1..] == part;
  }

  lemma HundredthsShape(h: nat)
    ensures NumberWord(HundredthsText(h)) && AllDecimal(HundredthsText(h)) && NumberWord("-" + HundredthsText(h))
  {
    hide NumberWord, AllDecimal, NatText;
    DottedShape(NatText(h / 100), [DigitChar(h % 100 / 10), DigitChar(h % 10)]);
  }

  lemma CoverTextShape(stmts: nat, miss: int)
    ensures var c := CoverText(stmts, miss);
      && NumberWord(c)
      && (miss <= stmts || stmts == 0 ==> AllDecimal(c))
      && (miss > stmts > 0 ==> c[0] == '-')
  {
    hide NumberWord, AllDecimal, HundredthsText, Hundredths;
    HundredthsShape(10000);
    if stmts > 0 {
      HundredthsShape(Hundredths(if miss <= stmts then stmts - miss else miss - stmts, stmts));
    }
  }

  /** Row names as coverage prints them: no white space, and not read as a comment, a rule or the total. */
  predicate PlainName(name: string) {
    name != "" && NoSpace(name) && name[0] != '#' && name[0] != '-' && !StartsWith(name, "TOTAL")
  }

  /** Missing text as format_missing prints it: no line break, and no white space in front. */
  predicate PlainMissing(missing: string) {
    NoBreak(missing) && (missing != "" ==> !IsSpace(missing[0]))
  }

  /** The counts that the printed row can be read back from. */
  predicate Readable(stmts: nat, miss: int) {
    0 <= miss && (miss <= stmts || stmts == 0)
  }

  lemma GapIsSpace(after: int, before: int)
    ensures AllSpace(Gap(after, before)) && Gap(after, before) != ""
  {
    assert IsSpace(' ');
  }

  lemma FieldRead(missing: string)
    requires PlainMissing(missing)
    ensures LastField(Tail(missing)) == Some(missing)
  {
    assert IsSpace(' ');
    hide IsSpace;
    LStripPadded("   ", missing);
  }

  lemma CoverMatch(name: string, stmts: nat, miss: nat, missing: string)
    requires PlainMissing(missing)
    ensures MatchCover(name, stmts, miss,
                       Gap(0, 6 - |CoverText(stmts, miss)|) + (CoverText(stmts, miss) + ("%" + Tail(missing))))
      == if Readable(stmts, miss) then Some((name, ParsedRow(stmts, miss, CoverText(stmts, miss), missing))) else None
  {
    var gap, c := Gap(0, 6 - |CoverText(stmts, miss)|), CoverText(stmts, miss);
    GapIsSpace(0, 6 - |c|);
    FieldRead(missing);
    CoverTextShape(stmts, miss);
    hide IsSpace, Gap, CoverText, Tail, LastField, SkipPercent, AllDecimal, FloatOk, NoSpace;
    if Readable(stmts, miss) {
      PercentSkipped(gap, c, Tail(missing));
    } else {
      NoPercent(gap, c + ("%" + Tail(missing)));
    }
  }

  lemma MissMatch(name: string, stmts: nat, miss: int, missing: string)
    requires PlainMissing(missing)
    ensures MatchMiss(name, stmts, Gap(0, 6 - |IntText(miss)|) + (IntText(miss) + (Gap(0, 6 - |CoverText(stmts, miss)|)
                                     + (CoverText(stmts, miss) + ("%" + Tail(missing))))))
      == if Readable(stmts, miss) then Some((name, ParsedRow(stmts, miss, CoverText(stmts, miss), missing))) else None
  {
    var gap := Gap(0, 6 - |IntText(miss)|);
    var gap3 := Gap(0, 6 - |CoverText(stmts, miss)|);
    var rest := gap3 + (CoverText(stmts, miss) + ("%" + Tail(missing)));
    GapIsSpace(0, 6 - |IntText(miss)|);
    GapIsSpace(0, 6 - |CoverText(stmts, miss)|);
    FirstIsNoDigit(gap3, CoverText(stmts, miss) + ("%" + Tail(missing)));
    DigitIsNotSpace('-');
    hide IsSpace, Gap, CoverText, Tail, SkipNumber, MatchCover;
    if miss < 0 {
      NoNumber(gap, IntText(miss) + rest);
    } else {
      NumberSkipped(gap, miss, rest);
      CoverMatch(name, stmts, miss, missing);
    }
  }

  /** A row is read back exactly when its counts are readable; otherwise its line is passed over. */
  lemma RowMatch(name: string, stmts: nat, miss: int, missing: string)
    requires PlainName(name) && PlainMissing(missing)
    ensures MatchRow(FormatRow(name, stmts, miss, missing)) ==
      if Readable(stmts, miss) then Some((name, ParsedRow(stmts, miss, CoverText(stmts, miss), missing))) else None
  {
    var g1 := Gap(79 - |name|, 5 - |IntText(stmts)|);
    var afterMiss := Gap(0, 6 - |CoverText(stmts, miss)|) + (CoverText(stmts, miss) + ("%" + Tail(missing)));
    var afterStmts := Gap(0, 6 - |IntText(miss)|) + (IntText(miss) + afterMiss);
    assert FormatRow(name, stmts, miss, missing) == name + (g1 + (IntText(stmts) + afterStmts));
    GapIsSpace(79 - |name|, 5 - |IntText(stmts)|);
    GapIsSpace(0, 6 - |IntText(miss)|);
    FirstIsNoDigit(Gap(0, 6 - |IntText(miss)|), IntText(miss) + afterMiss);
    NatIsInt(stmts);
    SolidName(name);
    hide *;
    NameMatched(name, g1, NatText(stmts) + afterStmts);
    StmtsMatched(name, g1, stmts, afterStmts);
    MissMatch(name, stmts, miss, missing);
  }

  lemma SolidName(name: string)
    requires PlainName(name)
    ensures name != "" && NoSpace(name)
  {
  }

  lemma NameMatched(name: string, gap: string, rest: string)
    requires name != "" && NoSpace(name) && AllSpace(gap) && gap != ""
    ensures MatchRow(name + (gap + rest)) == MatchStmts(name, gap + rest)
  {
    FirstIsNoDigit(gap, rest);
    hide IsSpace, MatchStmts;
    SpanExact(name, gap + rest, Solid);
  }

  lemma StmtsMatched(name: string, gap: string, stmts: nat, rest: string)
    requires AllSpace(gap) && gap != "" && (rest == "" || !IsDigit(rest[0]))
    ensures MatchStmts(name, gap + (NatText(stmts) + rest)) == MatchMiss(name, stmts, rest)
  {
    hide SkipNumber, MatchMiss, AllSpace, NatText;
    NumberSkipped(gap, stmts, rest);
  }

  lemma NatIsInt(n: nat)
    ensures IntText(n) == NatText(n)
  {
  }

  lemma FirstIsNoDigit(gap: string, rest: string)
    requires AllSpace(gap) && gap != ""
    ensures gap + rest != "" && !IsDigit((gap + rest)[0]) && IsSpace((gap + rest)[0])
  {
    if IsDigit(gap[0]) {
      DigitIsNotSpace(gap[0]);
    }
  }

  // ---------------------------------------------------------------- one line, there and back

  function ReadOf(name: string, row: Row): Item {
    if Readable(row.stmts, row.miss)
    then RowItem(name, ParsedRow(row.stmts, row.miss, CoverText(row.stmts, row.miss), row.missing))
    else Nothing
  }

  lemma NotATotal(name: string, gap: string, rest: string)
    requires PlainName(name) && AllSpace(gap) && gap != ""
    ensures !StartsWith(name + (gap + rest), "TOTAL")
  {
    var s := name + (gap + rest);
    assert |name| < 5 ==> IsSpace(s[|name|]) && !IsSpace("TOTAL"[|name|]);
    assert |name| >= 5 ==> s[..5] == name[..5];
  }

  lemma FirstChar(s: string, c: char)
    requires s != ""
    ensures StartsWith(s, [c]) <==> s[0] == c
  {
    assert s[0] == c ==> s[..1] == [c];
  }

  predicate BodyStart(body: string) {
    body != "" && !IsSpace(body[0]) && body[0] != '#' && body[0] != '-' && !StartsWith(body, "TOTAL")
  }

  lemma WorkRead(body: string)
    requires BodyStart(body)
    ensures ParseWork(body) == FromMatch(MatchRow(body))
  {
    hide IsSpace, MatchRow, FromMatch, StartsWith, Strip;
    NotBlank(body);
    FirstChar(Strip(body), '-');
  }

  lemma CommentStart(body: string)
    requires BodyStart(body)
    ensures Uncommented(body) == body && Uncommented("# " + body) == body && !StartsWith("# " + body, "TOTAL")
  {
    assert IsSpace(' ') && !IsSpace('#');
    var line := "# " + body;
    assert line[0] == '#' && line[1..] == " " + body;
    FirstChar(line, '#');
    FirstChar(body, '#');
    assert "TOTAL"[0] == 'T';
    hide IsSpace;
    NotBlank(body);
    NotBlank(line);
    LStripPadded(" ", body);
  }

  lemma BodyRead(body: string)
    requires BodyStart(body)
    ensures ParseLine(body) == FromMatch(MatchRow(body)) && ParseLine("# " + body) == FromMatch(MatchRow(body))
  {
    hide IsSpace, MatchRow, FromMatch, StartsWith, Uncommented, ParseWork;
    CommentStart(body);
    WorkRead(body);
  }

  /** White space around a comment sign does not matter, but an active line that starts with any is passed over. */
  lemma PaddedLines(pad: string, more: string, body: string)
    requires BodyStart(body) && AllSpace(pad) && AllSpace(more)
    ensures ParseLine(pad + ("#" + (more + body))) == ParseLine(body)
    ensures pad != "" ==> ParseLine(pad + body) == Nothing
  {
    BodyRead(body);
    PaddedComment(pad, more, body);
    WorkRead(body);
    if pad != "" {
      PaddedWork(pad, body);
    }
    hide *;
  }

  lemma PaddedComment(pad: string, more: string, body: string)
    requires BodyStart(body) && AllSpace(pad) && AllSpace(more)
    ensures var line := pad + ("#" + (more + body)); !StartsWith(line, "TOTAL") && Uncommented(line) == body
    ensures ParseLine(pad + ("#" + (more + body))) == ParseWork(body)
  {
    var line := pad + ("#" + (more + body));
    assert !IsSpace('#') && !IsSpace('T') && "TOTAL"[0] == 'T';
    assert line[0] == if pad == "" then '#' else pad[0];
    var rest := "#" + (more + body);
    assert rest[0] == '#' && rest[1..] == more + body;
    hide IsSpace;
    LStripPadded(pad, rest);
    FirstChar(rest, '#');
    LStripPadded(more, body);
  }

  lemma PaddedWork(pad: string, body: string)
    requires BodyStart(body) && AllSpace(pad) && pad != ""
    ensures ParseLine(pad + body) == Nothing
  {
    var line := pad + body;
    assert !IsSpace('T') && "TOTAL"[0] == 'T' && line[0] == pad[0];
    SpaceIsNoName(line);
    LStripPadded(pad, body);
    FirstChar(body, '#');
    hide IsSpace, MatchRow, Strip;
    assert !StartsWith(line, "TOTAL") && Uncommented(line) == line;
  }

  lemma SpaceIsNoName(line: string)
    requires line != "" && IsSpace(line[0])
    ensures MatchRow(line) == None
  {
    hide IsSpace;
    SpanExact("", line, Solid);
    assert "" + line == line;
  }

  lemma RowStarts(name: string, stmts: nat, miss: int, missing: string)
    requires PlainName(name)
    ensures var body := FormatRow(name, stmts, miss, missing);
      body != "" && body[0] == name[0] && !IsSpace(body[0]) && !StartsWith(body, "TOTAL") && BodyStart(body)
  {
    var gap := Gap(79 - |name|, 5 - |IntText(stmts)|);
    GapIsSpace(79 - |name|, 5 - |IntText(stmts)|);
    hide IsSpace, StartsWith, CoverText, Gap, Tail, IntText;
    var body := FormatRow(name, stmts, miss, missing);
    NotATotal(name, gap, (IntText(stmts) + (Gap(0, 6 - |IntText(miss)|)
      + (IntText(miss) + (Gap(0, 6 - |CoverText(stmts, miss)|) + (CoverText(stmts, miss) + ("%" + Tail(missing))))))));
  }

  lemma CoverIsFloat(stmts: nat, miss: int)
    ensures FloatOk(CoverText(stmts, miss))
  {
    hide CoverText, AllDecimal, FloatOk, NoSpace;
    CoverTextShape(stmts, miss);
  }

  lemma MatchIsRow(name: string, row: Row)
    requires PlainName(name) && PlainMissing(row.missing)
    ensures FromMatch(MatchRow(FormatRow(name, row.stmts, row.miss, row.missing))) == ReadOf(name, row)
  {
    hide CoverText, FloatOk, MatchRow, FormatRow, PlainName, PlainMissing;
    CoverIsFloat(row.stmts, row.miss);
    RowMatch(name, row.stmts, row.miss, row.missing);
  }

  lemma BodyIsRow(name: string, row: Row)
    requires PlainName(name) && PlainMissing(row.missing)
    ensures var body := FormatRow(name, row.stmts, row.miss, row.missing);
      ParseLine(body) == ReadOf(name, row) && ParseLine("# " + body) == ReadOf(name, row)
  {
    hide FormatRow, MatchRow, FromMatch, ReadOf, ParseLine, StartsWith, IsSpace, PlainMissing, NoSpace, BodyStart;
    MatchIsRow(name, row);
    RowStarts(name, row.stmts, row.miss, row.missing);
    BodyRead(FormatRow(name, row.stmts, row.miss, row.missing));
  }

  /** Active or commented out, a row's line is read as its row. */
  lemma RowLineRead(name: string, row: Row, sources: map<string, set<int>>)
    requires PlainName(name) && PlainMissing(row.missing)
    ensures ParseLine(RowLine(name, row, sources)) == ReadOf(name, row)
  {
    hide FormatRow, ReadOf, ParseLine, IsOutdated, PlainName, PlainMissing;
    BodyIsRow(name, row);
    var body := FormatRow(name, row.stmts, row.miss, row.missing);
    assert "" + body == body;
  }

  lemma TitleShape()
    ensures NoSpace("Name") && Spaces(76) != "" && AllSpace(Spaces(76)) && IsSpace(Spaces(76)[0]) && !IsSpace('S') &&
      !IsDigit('S')
    ensures Title() != "" && !IsSpace(Title()[0]) && Title()[0] == 'N' && !StartsWith(Title(), "TOTAL")
  {
    assert Title()[1] == 'a' && "TOTAL"[1] == 'O';
  }

  lemma TitleMatch()
    ensures MatchRow(Title()) == None
  {
    var tail := "Stmts   Miss   Cover   Missing";
    TitleShape();
    hide IsSpace, NoSpace, AllSpace, SkipNumber, Spaces;
    NoNumber(Spaces(76), tail);
    assert forall i :: 0 <= i < 4 ==> In("Name"[i], Solid) by { NameIsSolid(); }
    SpanExact("Name", Spaces(76) + tail, Solid);
  }

  lemma NameIsSolid()
    ensures forall i :: 0 <= i < 4 ==> In("Name"[i], Solid)
  {
  }

  lemma RuleShape()
    ensures Rule() != "" && Rule()[0] == '-' && !IsSpace('-') && !StartsWith(Rule(), "TOTAL")
  {
    assert Rule()[0] == '-';
  }

  lemma HeadRead()
    ensures ParseLine(Title()) == Nothing && ParseLine(Rule()) == Nothing
  {
    TitleShape();
    RuleShape();
    hide IsSpace, NoSpace, AllSpace, Title, Rule, MatchRow, StartsWith;
    TitleMatch();
    BodyRead(Title());
    RuleRead(Rule());
  }

  lemma RuleRead(rule: string)
    requires rule != "" && rule[0] == '-' && !IsSpace('-') && !StartsWith(rule, "TOTAL")
    ensures ParseLine(rule) == Nothing
  {
    hide IsSpace, MatchRow;
    NotBlank(rule);
  }

  lemma {:induction false} PercentStripped(c: string)
    requires '%' !in c
    ensures RStripPercent(c + "%") == c
  {
    assert (c + "%")[..|c|] == c;
  }

  lemma WordsEnd(pad: string, w: string)
    requires AllSpace(pad) && NoSpace(w) && w != ""
    ensures Words(pad + w) == [w]
  {
    hide *;
    WordsStep(pad, w, "");
    NoWords();
    assert w + "" == w;
  }

  lemma NoWords()
    ensures Words("") == []
  {
  }

  lemma TwoWords(g: string, m: string, h: string, c: string)
    requires AllSpace(g) && AllSpace(h) && h != "" && NoSpace(m) && NoSpace(c) && m != "" && c != ""
    ensures Words(g + (m + (h + c))) == [m, c]
  {
    hide IsSpace, Words;
    WordsEnd(h, c);
    WordsStep(g, m, h + c);
  }

  /** A word, then padding, then text whose words are known. */
  lemma WordAhead(g: string, w: string, h: string, rest: string)
    requires AllSpace(g) && AllSpace(h) && h != "" && NoSpace(w) && w != ""
    ensures Words(g + (w + (h + rest))) == [w] + Words(h + rest)
  {
    hide IsSpace, Words;
    WordsStep(g, w, h + rest);
  }

  lemma FourWords(w: string, g0: string, g1: string, s: string, g2: string, m: string, g3: string, c: string)
    requires AllSpace(g0) && AllSpace(g1) && AllSpace(g2) && AllSpace(g3) && g0 != "" && g2 != "" && g3 != ""
    requires NoSpace(w) && NoSpace(s) && NoSpace(m) && NoSpace(c) && w != "" && s != "" && m != "" && c != ""
    ensures Words(w + (g0 + (g1 + (s + (g2 + (m + (g3 + c))))))) == [w, s, m, c]
  {
    hide IsSpace, NoSpace, AllSpace, Words;
    var r2 := m + (g3 + c);
    var r1 := g2 + r2;
    TwoWords(g2, m, g3, c);
    PadsJoin(g0, g1);
    EmptyIsSolid();
    WordAhead(g0 + g1, s, g2, r2);
    WordAhead("", w, g0 + g1, s + r1);
    Regroup(g0, g1, s + r1);
    EmptyBefore(w + (g0 + (g1 + (s + r1))));
  }

  lemma EmptyBefore(s: string)
    ensures "" + s == s
  {
  }

  lemma PadsJoin(g: string, h: string)
    requires AllSpace(g) && AllSpace(h)
    ensures AllSpace(g + h)
  {
  }

  lemma IntWord(i: int)
    ensures NoSpace(IntText(i)) && IntText(i) != "" && PyInt(IntText(i)) == Some(i)
  {
    hide IsSpace, NatText, SignedInt;
    IntRoundTrip("", i);
    assert "" + IntText(i) == IntText(i);
  }

  lemma CoverWord(stmts: nat, miss: int)
    ensures var c := CoverText(stmts, miss);
      && NoSpace(c) && NoSpace(c + "%") && FloatOk(c) && RStripPercent(c + "%") == c
  {
    hide CoverText, FloatOk, AllDecimal;
    CoverTextShape(stmts, miss);
    PercentStripped(CoverText(stmts, miss));
    assert !IsSpace('%');
    hide IsSpace;
  }

  lemma TotalWords(stmts: nat, miss: int)
    ensures Words(TotalLine(stmts, miss)) == ["TOTAL", IntText(stmts), IntText(miss), CoverText(stmts, miss) + "%"]
  {
    hide IsSpace, Gap, CoverText, IntText, FloatOk, Words, PyInt, RStripPercent;
    var s, m, c := IntText(stmts), IntText(miss), CoverText(stmts, miss) + "%";
    GapIsSpace(0, 75);
    GapIsSpace(0, 6 - |s|);
    GapIsSpace(0, 6 - |m|);
    GapIsSpace(0, 6 - |CoverText(stmts, miss)|);
    IntWord(stmts);
    IntWord(miss);
    CoverWord(stmts, miss);
    TotalIsAWord();
    FourWords("TOTAL", Gap(0, 75), Gap(0, 6 - |s|), s, Gap(0, 6 - |m|), m, Gap(0, 6 - |CoverText(stmts, miss)|), c);
  }

  lemma TotalIsAWord()
    ensures NoSpace("TOTAL") && NoBreak("TOTAL")
  {
    SolidHasNoBreak("TOTAL");
  }

  lemma TotalRead(stmts: nat, miss: int)
    ensures ParseLine(TotalLine(stmts, miss)) == TotalItem(Total(stmts, miss, CoverText(stmts, miss)))
  {
    hide Words, PyInt, FloatOk, CoverText, IntText, NoSpace, ParseWork, RStripPercent, Gap;
    TotalWords(stmts, miss);
    IntWord(stmts);
    IntWord(miss);
    CoverWord(stmts, miss);
  }

  // ---------------------------------------------------------------- no line has a break in it

  lemma SolidHasNoBreak(s: string)
    requires NoSpace(s)
    ensures NoBreak(s)
  {
    forall i | 0 <= i < |s| ensures !IsBreak(s[i]) {
      assert !IsSpace(s[i]);
    }
  }

  lemma NoBreakJoin(a: string, b: string)
    requires NoBreak(a) && NoBreak(b)
    ensures NoBreak(a + b)
  {
  }

  lemma FieldHasNoBreak(after: int, before: int, word: string, rest: string)
    requires NoSpace(word) && NoBreak(rest)
    ensures NoBreak(Gap(after, before) + (word + rest))
  {
    SolidHasNoBreak(word);
    NoBreakJoin(word, rest);
    assert !IsBreak(' ') && NoBreak(Gap(after, before));
    hide IsBreak, Gap;
    NoBreakJoin(Gap(after, before), word + rest);
  }

  lemma TailHasNoBreak(missing: string)
    requires NoBreak(missing)
    ensures NoBreak("%" + Tail(missing)) && NoBreak("# ") && NoBreak("%")
  {
    assert NoBreak("%") && NoBreak("   ") && NoBreak("# ");
    NoBreakJoin("   ", missing);
    NoBreakJoin("%", Tail(missing));
  }

  /** Three numbers behind their gaps, and whatever follows. */
  lemma FieldsHaveNoBreak(a1: int, b1: int, stmts: nat, miss: int, rest: string)
    requires NoBreak(rest)
    ensures NoBreak(Gap(a1, b1) + (IntText(stmts) + (Gap(0, 6 - |IntText(miss)|) + (IntText(miss)
      + (Gap(0, 6 - |CoverText(stmts, miss)|) + (CoverText(stmts, miss) + rest))))))
  {
    hide IsBreak, IsSpace, NoBreak, NoSpace, CoverText, IntText, Gap, FloatOk, RStripPercent, PyInt;
    var c := CoverText(stmts, miss);
    IntWord(stmts);
    IntWord(miss);
    CoverWord(stmts, miss);
    FieldHasNoBreak(0, 6 - |c|, c, rest);
    FieldHasNoBreak(0, 6 - |IntText(miss)|, IntText(miss), Gap(0, 6 - |c|) + (c + rest));
    FieldHasNoBreak(a1, b1, IntText(stmts), Gap(0, 6 - |IntText(miss)|)
      + (IntText(miss) + (Gap(0, 6 - |c|) + (c + rest))));
  }

  lemma RowHasNoBreak(name: string, row: Row, sources: map<string, set<int>>)
    requires NoSpace(name) && NoBreak(row.missing)
    ensures NoBreak(RowLine(name, row, sources))
  {
    hide IsBreak, IsSpace, NoBreak, NoSpace, CoverText, IntText, Gap, IsOutdated, Tail;
    var body := FormatRow(name, row.stmts, row.miss, row.missing);
    SolidHasNoBreak(name);
    TailHasNoBreak(row.missing);
    FieldsHaveNoBreak(79 - |name|, 5 - |IntText(row.stmts)|, row.stmts, row.miss, "%" + Tail(row.missing));
    NoBreakJoin(name, body[|name|..]);
    NoBreakJoin("# ", body);
    assert "" + body == body && body == name + body[|name|..];
  }

  lemma TotalHasNoBreak(stmts: nat, miss: int)
    ensures NoBreak(TotalLine(stmts, miss))
  {
    hide IsBreak, IsSpace, NoBreak, NoSpace, CoverText, IntText, Gap;
    TotalIsAWord();
    TailHasNoBreak("");
    FieldsHaveNoBreak(0, 6 - |IntText(stmts)|, stmts, miss, "%");
    var c := CoverText(stmts, miss);
    var rest := Gap(0, 6 - |IntText(stmts)|) + (IntText(stmts) + (Gap(0, 6 - |IntText(miss)|)
      + (IntText(miss) + (Gap(0, 6 - |c|) + (c + "%")))));
    EmptyIsSolid();
    FieldHasNoBreak(0, 75, "", rest);
    assert "" + rest == rest;
    NoBreakJoin("TOTAL", Gap(0, 75) + rest);
  }

  lemma EmptyIsSolid()
    ensures NoSpace("") && NoBreak("") && AllSpace("")
  {
  }

  lemma HeadHasNoBreak()
    ensures NoBreak(Title()) && NoBreak(Rule())
  {
  }

  // ---------------------------------------------------------------- the whole file, there and back

  /** What a row's printed line is read back as. */
  function Printed(row: Row): ParsedRow
    requires Readable(row.stmts, row.miss)
  {
    ParsedRow(row.stmts, row.miss, CoverText(row.stmts, row.miss), row.missing)
  }

  predicate Plain(rows: map<string, Row>, order: seq<string>) {
    forall k :: 0 <= k < |order| ==> order[k] in rows && PlainName(order[k]) && PlainMissing(rows[order[k]].missing)
  }

  predicate ReadableRow(rows: map<string, Row>, name: string) {
    name in rows && Readable(rows[name].stmts, rows[name].miss)
  }

  function ReadBack(rows: map<string, Row>, order: seq<string>): map<string, ParsedRow> {
    map name | name in order && ReadableRow(rows, name) :: Printed(rows[name])
  }

  lemma {:induction false} RowsRead(rows: map<string, Row>, order: seq<string>, sources: map<string, set<int>>)
    requires Plain(rows, order)
    ensures ParsedLines([Title(), Rule()] + RowLines(rows, order, sources)) == Ok(Table(ReadBack(rows, order), None))
  {
    hide ParseLine, PlainName, PlainMissing, RowLine, Title, Rule, Readable, CoverText;
    HeadRead();
    if order == [] {
      var head := [Title(), Rule()];
      assert head + [] == head && head[..1] == [Title()] && [Title()][..0] == [];
      assert ParsedLines(head[..1]) == Ok(Table(map[], None));
      assert ReadBack(rows, order) == map[];
    } else {
      var before, name := order[..|order| - 1], order[|order| - 1];
      RowsRead(rows, before, sources);
      RowLineRead(name, rows[name], sources);
      LastLine([Title(), Rule()] + RowLines(rows, before, sources), RowLine(name, rows[name], sources));
      assert [Title(), Rule()] + RowLines(rows, order, sources)
        == [Title(), Rule()] + RowLines(rows, before, sources) + [RowLine(name, rows[name], sources)];
      ReadBackStep(rows, before, name);
      assert before + [name] == order;
    }
  }

  lemma LastLine(lines: seq<string>, line: string)
    ensures ParsedLines(lines + [line]) ==
      match ParsedLines(lines)
      case Err(e) => Err(e)
      case Ok(t) => WithItem(t, ParseLine(line))
  {
    hide ParseLine;
    assert (lines + [line])[..|lines|] == lines;
  }

  lemma ReadBackStep(rows: map<string, Row>, before: seq<string>, name: string)
    requires name in rows
    ensures WithItem(Table(ReadBack(rows, before), None), ReadOf(name, rows[name]))
         == Ok(Table(ReadBack(rows, before + [name]), None))
  {
    hide Readable, CoverText;
    var was, now := ReadBack(rows, before), ReadBack(rows, before + [name]);
    if ReadableRow(rows, name) {
      assert now == was[name := Printed(rows[name])];
    } else {
      assert now == was;
    }
  }

  lemma {:induction false} RowLinesHaveNoBreak(rows: map<string, Row>, order: seq<string>,
      sources: map<string, set<int>>)
    requires Plain(rows, order)
    ensures NoBreaks(RowLines(rows, order, sources))
  {
    hide NoBreak, RowLine, IsSpace, StartsWith;
    if order != [] {
      RowLinesHaveNoBreak(rows, order[..|order| - 1], sources);
      RowHasNoBreak(order[|order| - 1], rows[order[|order| - 1]], sources);
    }
  }

  /** The header is one element of two lines; joining is the same as printing every line. */
  lemma HeaderIsTwoLines(head: string, rule: string, rest: seq<string>)
    ensures Join([head + "\n" + rule] + rest, "\n") + "\n" == Unlines([head] + ([rule] + rest))
  {
    hide Join, Unlines;
    JoinedLines([head + "\n" + rule] + rest);
    UnlinesStep(head + "\n" + rule, rest);
    UnlinesStep(rule, rest);
    UnlinesStep(head, [rule] + rest);
    RegroupHead(head, rule, Unlines(rest));
  }

  predicate NoBreaks(lines: seq<string>) {
    forall i :: 0 <= i < |lines| ==> NoBreak(lines[i])
  }

  lemma NoBreaksJoin(a: seq<string>, b: seq<string>)
    requires NoBreaks(a) && NoBreaks(b)
    ensures NoBreaks(a + b)
  {
  }

  lemma FileLines(head: string, rule: string, rest: seq<string>)
    requires NoBreak(head) && NoBreak(rule) && NoBreaks(rest)
    ensures SplitLines(Join([head + "\n" + rule] + rest, "\n") + "\n") == [head, rule] + rest
  {
    assert [head] + ([rule] + rest) == [head, rule] + rest;
    hide NoBreak, SplitLines, Join, Unlines;
    HeaderIsTwoLines(head, rule, rest);
    NoBreaksJoin([head, rule], rest);
    SplitUnlines([head, rule] + rest);
  }

  lemma UnlinesStep(line: string, rest: seq<string>)
    ensures Unlines([line] + rest) == line + ("\n" + Unlines(rest))
  {
    assert ([line] + rest)[1..] == rest;
  }

  lemma RegroupHead(head: string, rule: string, text: string)
    ensures (head + "\n" + rule) + ("\n" + text) == head + ("\n" + (rule + ("\n" + text)))
  {
  }

  /**
   Reading the written file gives back exactly the rows whose counts can be read, active or commented out, and the
   total.
   */
  lemma FileRoundTrip(rows: map<string, Row>, order: seq<string>, sources: map<string, set<int>>, stmts: nat, miss: int)
    requires Known(order, rows) && Plain(rows, order)
    ensures ParsedLines(SplitLines(FileText(rows, order, sources, stmts, miss)))
         == Ok(Table(ReadBack(rows, order), Some(Total(stmts, miss, CoverText(stmts, miss)))))
  {
    hide NoBreak, ParseLine, TotalLine, Title, Rule, SplitLines, Join, CoverText, Plain, ReadBack, Known;
    var body := RowLines(rows, order, sources);
    var foot := [Rule(), TotalLine(stmts, miss)];
    HeadHasNoBreak();
    HeadRead();
    TotalHasNoBreak(stmts, miss);
    TotalRead(stmts, miss);
    RowLinesHaveNoBreak(rows, order, sources);
    NoBreaksJoin(body, foot);
    FileLines(Title(), Rule(), body + foot);
    RowsRead(rows, order, sources);
    LastLine([Title(), Rule()] + body, Rule());
    LastLine([Title(), Rule()] + body + [Rule()], TotalLine(stmts, miss));
    assert [Title(), Rule()] + (body + foot) == [Title(), Rule()] + body + [Rule()] + [TotalLine(stmts, miss)];
  }

  /** A table comes back whole exactly when every count in it can be read. */
  lemma WholeTableComesBack(rows: map<string, Row>, order: seq<string>)
    requires Plain(rows, order) && forall name :: name in rows ==> name in order
    ensures ReadBack(rows, order).Keys == rows.Keys <==>
      forall name :: name in rows ==> Readable(rows[name].stmts, rows[name].miss)
  {
    hide Readable, PlainName, PlainMissing;
    var back := ReadBack(rows, order);
    if back.Keys == rows.Keys {
      forall name | name in rows ensures Readable(rows[name].stmts, rows[name].miss) {
        assert name in back;
      }
    }
    if forall name :: name in rows ==> Readable(rows[name].stmts, rows[name].miss) {
      forall name | name in rows ensures name in back {
        assert ReadableRow(rows, name);
      }
    }
  }
}
