/** The row editors of the coverage tool, and the count they keep between a row's text and its file. */
module CoverageRows {
  import opened Wrappers
  import opened Text
  import opened LineSpec

  /** An exact quotient. */
  datatype Fraction = Fraction(num: int, den: int)

  datatype Row = Row(stmts: nat, miss: int, cover: Fraction, missing: string)

  function Cover(stmts: int, miss: int): Fraction {
    if stmts == 0 then Fraction(100, 1) else Fraction((stmts - miss) * 100, stmts)
  }

  /** Cover is the covered share in percent: 100 with nothing missed, 0 with all missed, lower with more missed. */
  lemma CoverIsShare(stmts: nat, miss: int)
    ensures Cover(stmts, miss).den > 0
    ensures stmts > 0 ==>
              Cover(stmts, miss).num * stmts == (stmts - miss) * 100 * Cover(stmts, miss).den
    ensures miss == 0 || stmts == 0 ==> Cover(stmts, miss).num == 100 * Cover(stmts, miss).den
    ensures miss == stmts > 0 ==> Cover(stmts, miss).num == 0
    ensures forall more :: miss < more && stmts > 0 ==>
              Cover(stmts, more).num < Cover(stmts, miss).num && Cover(stmts, more).den == Cover(stmts, miss).den
  {
  }

  /** The statement lines of a source file; None is a file that is not there. */
  type Source = Option<set<int>>

  /** Statements on the given lines; the file is only opened when there are lines. */
  function CountOn(source: Source, lines: set<int>): Result<int, string> {
    if lines == {} then Ok(0)
    else if source.None? then Err("No such file")
    else Ok(|source.value * lines|)
  }

  // ---------------------------------------------------------------- what each edit does to a row

  function Both<T>(a: Result<T, string>, b: Result<T, string>): Result<(T, T), string> {
    match (a, b)
    case (Ok(x), Ok(y)) => Ok((x, y))
    case (Err(e), _) => Err(e)
    case (_, Err(e)) => Err(e)
  }

  /** The row's missing lines and the lines of a spec, or the first error of reading them. */
  function Lines(row: Row, spec: string): Result<(set<int>, set<int>), string> {
    Both(ParsedMissing(row.missing), ParsedSpec(spec))
  }

  /** The row with its miss changed by the statements on `counted`, and with new missing lines. */
  function Recounted(row: Row, source: Source, base: int, sign: int, counted: set<int>, missing: set<int>)
    : Result<Row, string>
  {
    match CountOn(source, counted)
    case Ok(n) => Ok(Row(row.stmts, base + sign * n, Cover(row.stmts, base + sign * n), MissingText(missing)))
    case Err(e) => Err(e)
  }

  function AddOn(row: Row, source: Source, m: set<int>, x: set<int>): Result<Row, string> {
    Recounted(row, source, row.miss, -1, m * x, m - x)
  }

  function RemoveOn(row: Row, source: Source, m: set<int>, x: set<int>): Result<Row, string> {
    Recounted(row, source, row.miss, 1, x - m, m + x)
  }

  function AfterAdd(row: Row, source: Source, spec: string): Result<Row, string> {
    match Lines(row, spec)
    case Ok((m, x)) => AddOn(row, source, m, x)
    case Err(e) => Err(e)
  }

  function AfterRemove(row: Row, source: Source, spec: string): Result<Row, string> {
    match Lines(row, spec)
    case Ok((m, x)) => RemoveOn(row, source, m, x)
    case Err(e) => Err(e)
  }

  function AfterReplace(row: Row, source: Source, spec: string): Result<Row, string> {
    match ParsedSpec(spec)
    case Ok(x) => Recounted(row, source, 0, 1, x, x)
    case Err(e) => Err(e)
  }

  /** An edit of one row: it succeeds with exactly that row changed, or fails with nothing changed. */
  predicate Edited(before: map<string, Row>, path: string, after: Result<Row, string>,
                   r: Result<(), string>, rows: map<string, Row>)
  {
    match after
    case Ok(row) => r == Ok(()) && rows == before[path := row]
    case Err(e) => r == Err(e) && rows == before
  }

  // ---------------------------------------------------------------- what an edit leaves to read

  /** The lines a row says are missing. */
  ghost function MissingOf(row: Row): Result<set<int>, string> {
    ParsedMissing(row.missing)
  }

  /** The statements on some lines; none where there is no file to count in. */
  ghost function Statements(source: Source, lines: set<int>): nat {
    if source.None? then 0 else |source.value * lines|
  }

  /** Only `path`'s row has changed: its text now reads as `lines`, and its miss is `miss`. */
  ghost predicate NowReads(before: map<string, Row>, after: map<string, Row>, path: string, lines: set<int>, miss: int)
  {
    && path in before && path in after && after - {path} == before - {path}
    && MissingOf(after[path]) == Ok(lines)
    && after[path].stmts == before[path].stmts && after[path].miss == miss
    && after[path].cover == Cover(before[path].stmts, miss)
  }

  lemma ReadIsNatural(text: string)
    requires ParsedMissing(text).Ok?
    ensures NaturalSet(ParsedMissing(text).value)
  {
    if Strip(text) != "" {
      TokensAreNatural(Split(text, ','));
    }
  }

  lemma SpecIsNatural(spec: string)
    requires ParsedSpec(spec).Ok?
    ensures NaturalSet(ParsedSpec(spec).value)
  {
    TokensAreNatural(Split(spec, ','));
  }

  /** Whatever was read, the lines a rewrite leaves read back as themselves. */
  lemma RewriteReads(m: set<int>, x: set<int>)
    requires NaturalSet(m) && NaturalSet(x)
    ensures ParsedMissing(MissingText(m - x)) == Ok(m - x) && ParsedMissing(MissingText(m + x)) == Ok(m + x)
    ensures ParsedMissing(MissingText(x)) == Ok(x)
  {
    MissingRoundTrip(m - x);
    MissingRoundTrip(m + x);
    MissingRoundTrip(x);
  }

  lemma OnlyThisRow(rows: map<string, Row>, path: string, row: Row)
    ensures rows[path := row] - {path} == rows - {path}
  {
  }

  /** Covered lines no longer read as missing, and the miss falls by the statements among them. */
  ghost predicate Covers(before: map<string, Row>, path: string, source: Source, spec: string, r: Result<(), string>,
                         after: map<string, Row>)
    requires path in before
  {
    var m, x := MissingOf(before[path]), ParsedSpec(spec);
    && (r.Ok? <==> m.Ok? && x.Ok? && (source.Some? || m.value * x.value == {}))
    && (r.Ok? ==> NowReads(before, after, path, m.value - x.value,
                           before[path].miss - Statements(source, m.value * x.value)))
  }

  /** Uncovered lines read as missing, and the miss grows by the statements that did not before. */
  ghost predicate Uncovers(before: map<string, Row>, path: string, source: Source, spec: string, r: Result<(), string>,
                           after: map<string, Row>)
    requires path in before
  {
    var m, x := MissingOf(before[path]), ParsedSpec(spec);
    && (r.Ok? <==> m.Ok? && x.Ok? && (source.Some? || x.value - m.value == {}))
    && (r.Ok? ==> NowReads(before, after, path, m.value + x.value,
                           before[path].miss + Statements(source, x.value - m.value)))
  }

  /** Exactly the given lines read as missing, and the miss is their statements. */
  ghost predicate Replaces(before: map<string, Row>, path: string, source: Source, spec: string, r: Result<(), string>,
                           after: map<string, Row>)
    requires path in before
  {
    var x := ParsedSpec(spec);
    && (r.Ok? <==> x.Ok? && (source.Some? || x.value == {}))
    && (r.Ok? ==> NowReads(before, after, path, x.value, Statements(source, x.value)))
  }

  lemma CountOnIs(source: Source, lines: set<int>)
    ensures CountOn(source, lines).Ok? <==> source.Some? || lines == {}
    ensures CountOn(source, lines).Ok? ==> CountOn(source, lines) == Ok(Statements(source, lines))
  {
    if source.Some? && lines == {} {
      assert source.value * lines == {};
    }
  }

  lemma CoveredReads(before: map<string, Row>, path: string, source: Source, spec: string, r: Result<(), string>,
                     after: map<string, Row>)
    requires path in before && Edited(before, path, AfterAdd(before[path], source, spec), r, after)
    ensures Covers(before, path, source, spec, r, after)
  {
    hide ParsedMissing, ParsedSpec, MissingText, Cover, CountOn, Statements;
    if Lines(before[path], spec).Ok? {
      var (m, x) := Lines(before[path], spec).value;
      CountOnIs(source, m * x);
      ReadIsNatural(before[path].missing);
      SpecIsNatural(spec);
      RewriteReads(m, x);
      OnlyThisRow(before, path, after[path]);
    }
  }

  lemma UncoveredReads(before: map<string, Row>, path: string, source: Source, spec: string, r: Result<(), string>,
                       after: map<string, Row>)
    requires path in before && Edited(before, path, AfterRemove(before[path], source, spec), r, after)
    ensures Uncovers(before, path, source, spec, r, after)
  {
    hide ParsedMissing, ParsedSpec, MissingText, Cover, CountOn, Statements;
    if Lines(before[path], spec).Ok? {
      var (m, x) := Lines(before[path], spec).value;
      CountOnIs(source, x - m);
      ReadIsNatural(before[path].missing);
      SpecIsNatural(spec);
      RewriteReads(m, x);
      OnlyThisRow(before, path, after[path]);
    }
  }

  lemma ReplacedReads(before: map<string, Row>, path: string, source: Source, spec: string, r: Result<(), string>,
                      after: map<string, Row>)
    requires path in before && Edited(before, path, AfterReplace(before[path], source, spec), r, after)
    ensures Replaces(before, path, source, spec, r, after)
  {
    hide ParsedMissing, ParsedSpec, MissingText, Cover, CountOn, Statements;
    if ParsedSpec(spec).Ok? {
      var x := ParsedSpec(spec).value;
      CountOnIs(source, x);
      SpecIsNatural(spec);
      RewriteReads({}, x);
      OnlyThisRow(before, path, after[path]);
    }
  }

  method ReadLines(row: Row, spec: string) returns (r: Result<(set<int>, set<int>), string>)
    ensures r == Lines(row, spec)
  {
    var current := ParsedMissing(row.missing);
    if current.Err? {
      return Err(current.error);
    }
    var lines := ParseLineSpec(spec);
    if lines.Err? {
      return Err(lines.error);
    }
    return Ok((current.value, lines.value));
  }

  class CoverageTable {
    var rows: map<string, Row>
    const sources: map<string, set<int>>

    constructor (rows: map<string, Row>, sources: map<string, set<int>>)
      ensures this.rows == rows && this.sources == sources
    {
      this.rows, this.sources := rows, sources;
    }

    function SourceOf(path: string): Source {
      if path in sources then Some(sources[path]) else None
    }

    method SetCovered(path: string) returns (r: Result<(), string>)
      modifies this
      ensures path !in old(rows) ==> r.Err? && rows == old(rows)
      ensures path in old(rows) ==>
        Edited(old(rows), path, Ok(Row(old(rows)[path].stmts, 0, Cover(old(rows)[path].stmts, 0), "")), r, rows)
    {
      if path !in rows {
        return Err("Unknown coverage row: " + path);
      }
      var row := rows[path].(miss := 0, missing := "");
      rows := rows[path := row.(cover := Cover(row.stmts, row.miss))];
      return Ok(());
    }

    method Rewrite(path: string, miss: int, missing: set<int>)
      requires path in rows
      modifies this
      ensures rows == old(rows)[path :=
        Row(old(rows)[path].stmts, miss, Cover(old(rows)[path].stmts, miss), MissingText(missing))]
    {
      var text := FormatMissing(missing);
      var row := rows[path].(miss := miss, missing := text);
      rows := rows[path := row.(cover := Cover(row.stmts, row.miss))];
    }

    method CoverLines(path: string, current: set<int>, lines: set<int>) returns (r: Result<(), string>)
      requires path in rows
      modifies this
      ensures Edited(old(rows), path, AddOn(old(rows)[path], SourceOf(path), current, lines), r, rows)
    {
      var covered := current * lines;
      var count := CountOn(SourceOf(path), covered);
      if count.Err? {
        return Err(count.error);
      }
      assert current - covered == current - lines;
      Rewrite(path, rows[path].miss - count.value, current - covered);
      return Ok(());
    }

    method AddLinesAsCovered(path: string, spec: string) returns (r: Result<(), string>)
      modifies this
      ensures path !in old(rows) ==> r.Err? && rows == old(rows)
      ensures path in old(rows) ==> Edited(old(rows), path, AfterAdd(old(rows)[path], SourceOf(path), spec), r, rows)
      ensures path in old(rows) ==> Covers(old(rows), path, SourceOf(path), spec, r, rows)
    {
      if path !in rows {
        return Err("Unknown coverage row: " + path);
      }
      var read := ReadLines(rows[path], spec);
      if read.Err? {
        return Err(read.error);
      }
      r := CoverLines(path, read.value.0, read.value.1);
      CoveredReads(old(rows), path, SourceOf(path), spec, r, rows);
    }

    method UncoverLines(path: string, current: set<int>, lines: set<int>) returns (r: Result<(), string>)
      requires path in rows
      modifies this
      ensures Edited(old(rows), path, RemoveOn(old(rows)[path], SourceOf(path), current, lines), r, rows)
    {
      var added := lines - current;
      var count := CountOn(SourceOf(path), added);
      if count.Err? {
        return Err(count.error);
      }
      Rewrite(path, rows[path].miss + count.value, current + lines);
      return Ok(());
    }

    method RemoveLinesAsCovered(path: string, spec: string) returns (r: Result<(), string>)
      modifies this
      ensures path !in old(rows) ==> r.Err? && rows == old(rows)
      ensures path in old(rows) ==> Edited(old(rows), path, AfterRemove(old(rows)[path], SourceOf(path), spec), r, rows)
      ensures path in old(rows) ==> Uncovers(old(rows), path, SourceOf(path), spec, r, rows)
    {
      if path !in rows {
        return Err("Unknown coverage row: " + path);
      }
      var read := ReadLines(rows[path], spec);
      if read.Err? {
        return Err(read.error);
      }
      r := UncoverLines(path, read.value.0, read.value.1);
      UncoveredReads(old(rows), path, SourceOf(path), spec, r, rows);
    }

    method ReplaceFileMissing(path: string, spec: string) returns (r: Result<(), string>)
      modifies this
      ensures path !in old(rows) ==> r.Err? && rows == old(rows)
      ensures path in old(rows) ==>
        Edited(old(rows), path, AfterReplace(old(rows)[path], SourceOf(path), spec), r, rows)
      ensures path in old(rows) ==> Replaces(old(rows), path, SourceOf(path), spec, r, rows)
    {
      if path !in rows {
        return Err("Unknown coverage row: " + path);
      }
      var missing := ParseLineSpec(spec);
      if missing.Err? {
        return Err(missing.error);
      }
      var count := CountOn(SourceOf(path), missing.value);
      if count.Err? {
        r := Err(count.error);
      } else {
        Rewrite(path, count.value, missing.value);
        r := Ok(());
      }
      ReplacedReads(old(rows), path, SourceOf(path), spec, r, rows);
    }

    method AddTestFile(path: string) returns (r: Result<(), string>)
      modifies this
      ensures path !in sources ==> r.Err? && rows == old(rows)
      ensures path in sources ==>
        Edited(old(rows), path, Ok(Row(|sources[path]|, 0, Cover(|sources[path]|, 0), "")), r, rows)
    {
      if path !in sources {
        return Err("No such file");
      }
      var stmts := |sources[path]|;
      rows := rows[path := Row(stmts, 0, Cover(stmts, 0), "")];
      return Ok(());
    }
  }

  // ---------------------------------------------------------------- the count

  /** Miss counts exactly the file's statements on the lines the text names, and the cover is computed from it. */
  ghost predicate Consistent(row: Row, statements: set<int>) {
    && ParsedMissing(row.missing).Ok?
    && row.miss == |statements * ParsedMissing(row.missing).value|
    && row.cover == Cover(row.stmts, row.miss)
  }

  lemma CardinalityBound(a: set<int>, b: set<int>)
    ensures 0 <= |a * b| <= |a|
  {
    assert a == (a * b) + (a - b);
    assert |a| == |a * b| + |a - b|;
  }

  /** An up-to-date consistent row has a miss between 0 and its statements and a cover between 0 and 100. */
  lemma ConsistentBounds(row: Row, statements: set<int>)
    requires Consistent(row, statements) && row.stmts == |statements|
    ensures 0 <= row.miss <= row.stmts
    ensures 0 < row.cover.den && 0 <= row.cover.num <= 100 * row.cover.den
  {
    CardinalityBound(statements, ParsedMissing(row.missing).value);
  }

  /** The statements on two line sets, counted by parts. */
  lemma SplitCount(s: set<int>, m: set<int>, x: set<int>)
    ensures |s * m| == |s * (m * x)| + |s * (m - x)|
    ensures |s * (m + x)| == |s * m| + |s * (x - m)|
    ensures |s * x| == |s * (m * x)| + |s * (x - m)|
  {
    assert s * m == s * (m * x) + s * (m - x);
    assert s * (m + x) == s * m + s * (x - m);
    assert s * x == s * (m * x) + s * (x - m);
  }

  lemma CountOfFile(statements: set<int>, lines: set<int>)
    ensures CountOn(Some(statements), lines) == Ok(|statements * lines|)
  {
    if lines == {} {
      assert statements * lines == {};
    }
  }

  function WithMiss(row: Row, miss: int, missing: set<int>): Row {
    Row(row.stmts, miss, Cover(row.stmts, miss), MissingText(missing))
  }

  /** The statements among some lines. */
  function Hits(s: set<int>, lines: set<int>): nat {
    |s * lines|
  }

  /** Both edits leave the miss off by as much as it was before, counted against the lines they leave. */
  lemma EditCounts(row: Row, s: set<int>, m: set<int>, x: set<int>)
    ensures AddOn(row, Some(s), m, x) == Ok(WithMiss(row, row.miss - Hits(s, m) + Hits(s, m - x), m - x))
    ensures RemoveOn(row, Some(s), m, x) == Ok(WithMiss(row, row.miss - Hits(s, m) + Hits(s, m + x), m + x))
  {
    hide MissingText, Cover;
    CountOfFile(s, m * x);
    CountOfFile(s, x - m);
    SplitCount(s, m, x);
  }

  lemma EditTwice(m: set<int>, x: set<int>)
    ensures (m - x) + x == m + x && (m + x) - x == m - x
  {
  }

  /** Covering lines and then uncovering them is uncovering them alone, and the other way round. */
  lemma EditsAbsorb(row: Row, s: set<int>, m: set<int>, x: set<int>)
    ensures var a := AddOn(row, Some(s), m, x);
      a.Ok? && RemoveOn(a.value, Some(s), m - x, x) == RemoveOn(row, Some(s), m, x)
    ensures var b := RemoveOn(row, Some(s), m, x);
      b.Ok? && AddOn(b.value, Some(s), m + x, x) == AddOn(row, Some(s), m, x)
  {
    hide AddOn, RemoveOn, MissingText, Cover, Hits;
    EditTwice(m, x);
    EditCounts(row, s, m, x);
    EditCounts(WithMiss(row, row.miss - Hits(s, m) + Hits(s, m - x), m - x), s, m - x, x);
    EditCounts(WithMiss(row, row.miss - Hits(s, m) + Hits(s, m + x), m + x), s, m + x, x);
  }

  /** Whatever an edit prints is read back as the lines it meant. */
  lemma LinesAreNatural(row: Row, spec: string)
    requires Lines(row, spec).Ok?
    ensures NaturalSet(Lines(row, spec).value.0) && NaturalSet(Lines(row, spec).value.1)
  {
    ReadIsNatural(row.missing);
    SpecIsNatural(spec);
  }

  lemma ReadAgain(row: Row, spec: string, lines: set<int>, after: Row)
    requires Lines(row, spec).Ok? && NaturalSet(lines) && after.missing == MissingText(lines)
    ensures Lines(after, spec) == Ok((lines, Lines(row, spec).value.1))
  {
    MissingRoundTrip(lines);
    BothOk(ParsedMissing(row.missing), ParsedSpec(spec));
    BothOk(ParsedMissing(after.missing), ParsedSpec(spec));
  }

  lemma BothOk<T>(a: Result<T, string>, b: Result<T, string>)
    ensures Both(a, b).Ok? <==> a.Ok? && b.Ok?
    ensures a.Ok? && b.Ok? ==> Both(a, b) == Ok((a.value, b.value))
  {
  }

  lemma ConsistentAfter(row: Row, statements: set<int>, lines: set<int>)
    requires NaturalSet(lines) && row.missing == MissingText(lines)
    requires row.miss == |statements * lines| && row.cover == Cover(row.stmts, row.miss)
    ensures Consistent(row, statements)
  {
    MissingRoundTrip(lines);
  }

  lemma CurrentLines(row: Row, statements: set<int>, spec: string)
    requires Consistent(row, statements) && Lines(row, spec).Ok?
    ensures row.miss == |statements * Lines(row, spec).value.0|
  {
  }

  /** Every edit that can be read succeeds and keeps the count through its own text. */
  lemma EditsKeepTheCount(row: Row, statements: set<int>, spec: string)
    requires Consistent(row, statements) && Lines(row, spec).Ok?
    ensures var r := AfterAdd(row, Some(statements), spec); r.Ok? && Consistent(r.value, statements)
    ensures var r := AfterRemove(row, Some(statements), spec); r.Ok? && Consistent(r.value, statements)
  {
    hide ParsedMissing, ParsedSpec, MissingText;
    var (m, x) := Lines(row, spec).value;
    LinesAreNatural(row, spec);
    CurrentLines(row, statements, spec);
    EditCounts(row, statements, m, x);
    ConsistentAfter(AddOn(row, Some(statements), m, x).value, statements, m - x);
    ConsistentAfter(RemoveOn(row, Some(statements), m, x).value, statements, m + x);
  }

  /** Replacing the missing lines restores the count, whatever the row was. */
  lemma ReplaceSetsTheCount(row: Row, statements: set<int>, spec: string)
    requires ParsedSpec(spec).Ok?
    ensures var r := AfterReplace(row, Some(statements), spec); r.Ok? && Consistent(r.value, statements)
  {
    var x := ParsedSpec(spec).value;
    SpecIsNatural(spec);
    CountOfFile(statements, x);
    ConsistentAfter(AfterReplace(row, Some(statements), spec).value, statements, x);
  }

  /** Covering lines and then uncovering them is uncovering them, and the other way round, whatever the row was. */
  lemma LastEditWins(row: Row, statements: set<int>, spec: string)
    requires Lines(row, spec).Ok?
    ensures var source := Some(statements); var a := AfterAdd(row, source, spec);
      a.Ok? && AfterRemove(a.value, source, spec) == AfterRemove(row, source, spec)
    ensures var source := Some(statements); var b := AfterRemove(row, source, spec);
      b.Ok? && AfterAdd(b.value, source, spec) == AfterAdd(row, source, spec)
  {
    hide ParsedMissing, ParsedSpec, MissingText;
    var (m, x) := Lines(row, spec).value;
    LinesAreNatural(row, spec);
    EditsAbsorb(row, statements, m, x);
    ReadAgain(row, spec, m - x, AddOn(row, Some(statements), m, x).value);
    ReadAgain(row, spec, m + x, RemoveOn(row, Some(statements), m, x).value);
  }
}
