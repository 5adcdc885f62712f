/** JSON texts: the value grammar of RFC 8259, and the compact texts that the Ghidra scripts print. */
module Json {
  import opened Wrappers
  import opened Text

  datatype Value =
    | Null | Bool(b: bool) | Num(n: int) | Str(s: string) | Arr(items: seq<Value>) | Obj(members: seq<Member>)

  datatype Member = Member(name: string, value: Value)

  // ---------------------------------------------------------------- reading (RFC 8259, sections 2 to 7)

  /** Section 2: space, horizontal tab, line feed, carriage return. */
  predicate IsWs(c: char) {
    c == ' ' || c == '\t' || c == '\n' || c == '\r'
  }

  function Skip(s: string): (r: string)
    ensures |r| <= |s|
  {
    if s != "" && IsWs(s[0]) then Skip(s[1..]) else s
  }

  function HexValue(c: char): Option<nat> {
    if '0' <= c <= '9' then Some((c - '0') as nat)
    else if 'a' <= c <= 'f' then Some((c - 'a') as nat + 10)
    else if 'A' <= c <= 'F' then Some((c - 'A') as nat + 10)
    else None
  }

  function Hex4Value(s: string): Option<nat>
    requires |s| == 4
  {
    match (HexValue(s[0]), HexValue(s[1]), HexValue(s[2]), HexValue(s[3]))
    case (Some(a), Some(b), Some(c), Some(d)) => Some(((a * 16 + b) * 16 + c) * 16 + d)
    case _ => None
  }

  /** Section 7: the character a two-character escape stands for. */
  function Unescaped(c: char): Option<char> {
    match c
    case '"' => Some('"')
    case '\\' => Some('\\')
    case '/' => Some('/')
    case 'b' => Some('\U{8}')
    case 'f' => Some('\U{c}')
    case 'n' => Some('\n')
    case 'r' => Some('\r')
    case 't' => Some('\t')
    case _ => None
  }

  /**
   One character of a string, escaped or not; a control character must be escaped.  An escaped surrogate is refused.
   */
  function ReadChar(s: string): (r: Option<(char, string)>)
    ensures r.Some? ==> |r.value.1| < |s|
  {
    if s == "" || s[0] < ' ' then None
    else if s[0] != '\\' then Some((s[0], s[1..]))
    else if |s| < 2 then None
    else if s[1] == 'u' then ReadHex(s)
    else
      match Unescaped(s[1])
      case Some(c) => Some((c, s[2..]))
      case None => None
  }

  function ReadHex(s: string): (r: Option<(char, string)>)
    ensures r.Some? ==> |r.value.1| < |s|
  {
    if |s| < 6 then None
    else
      match Hex4Value(s[2..6])
      case Some(n) => if n < 0xD800 || 0xE000 <= n < 0x10000 then Some((n as char, s[6..])) else None
      case None => None
  }

  /** The rest of a string after its opening quote. */
  function ReadChars(s: string): (r: Option<(string, string)>)
    ensures r.Some? ==> |r.value.1| < |s|
    decreases |s|
  {
    if s != "" && s[0] == '"' then Some(("", s[1..]))
    else
      match ReadChar(s)
      case None => None
      case Some((c, rest)) =>
        match ReadChars(rest)
        case None => None
        case Some((cs, after)) => Some(([c] + cs, after))
  }

  /** Section 6, integers only: a fraction or an exponent is refused. */
  function ReadNumber(s: string): (r: Option<(Value, string)>)
    ensures r.Some? ==> |r.value.1| < |s|
  {
    if s != "" && s[0] == '-'
    then
      (match ReadNatural(s[1..])
       case None => None
       case Some((n, rest)) => Some((Num(-(n as int)), rest)))
    else
      match ReadNatural(s)
      case None => None
      case Some((n, rest)) => Some((Num(n), rest))
  }

  function ReadNatural(s: string): (r: Option<(nat, string)>)
    ensures r.Some? ==> |r.value.1| < |s|
  {
    var d := Span(s, Digit);
    var rest := s[|d|..];
    if d == "" || (d[0] == '0' && |d| > 1) || (rest != "" && rest[0] in {'.', 'e', 'E'}) then None
    else Some((DigitsOf(d), rest))
  }

  function ReadWord(s: string, word: string, v: Value): (r: Option<(Value, string)>)
    requires word != ""
    ensures r.Some? ==> |r.value.1| < |s|
  {
    if word <= s then Some((v, s[|word|..])) else None
  }

  function ReadValue(s: string): (r: Option<(Value, string)>)
    ensures r.Some? ==> |r.value.1| < |s|
    decreases |s|, 2
  {
    var t := Skip(s);
    if t == "" then None
    else
      match t[0]
      case 'n' => ReadWord(t, "null", Null)
      case 't' => ReadWord(t, "true", Bool(true))
      case 'f' => ReadWord(t, "false", Bool(false))
      case '"' =>
        (match ReadChars(t[1..])
         case None => None
         case Some((cs, rest)) => Some((Str(cs), rest)))
      case '[' =>
        (match ReadItems(t[1..])
         case None => None
         case Some((items, rest)) => Some((Arr(items), rest)))
      case '{' =>
        (match ReadMembers(t[1..])
         case None => None
         case Some((members, rest)) => Some((Obj(members), rest)))
      case _ => ReadNumber(t)
  }

  /** Section 5: what follows an opening bracket, or an item. */
  function ReadItems(s: string): (r: Option<(seq<Value>, string)>)
    ensures r.Some? ==> |r.value.1| < |s|
    decreases |s|, 4
  {
    var t := Skip(s);
    if t != "" && t[0] == ']' then Some(([], t[1..])) else ReadItem(s)
  }

  function ReadItem(s: string): (r: Option<(seq<Value>, string)>)
    ensures r.Some? ==> |r.value.1| < |s|
    decreases |s|, 3
  {
    match ReadValue(s)
    case None => None
    case Some((v, rest)) =>
      match ReadMoreItems(rest)
      case None => None
      case Some((items, after)) => Some(([v] + items, after))
  }

  function ReadMoreItems(s: string): (r: Option<(seq<Value>, string)>)
    ensures r.Some? ==> |r.value.1| < |s|
    decreases |s|, 0
  {
    var t := Skip(s);
    if t == "" then None
    else if t[0] == ']' then Some(([], t[1..]))
    else if t[0] == ',' then ReadItem(t[1..])
    else None
  }

  /** Section 4: what follows an opening brace, or a member. */
  function ReadMembers(s: string): (r: Option<(seq<Member>, string)>)
    ensures r.Some? ==> |r.value.1| < |s|
    decreases |s|, 4
  {
    var t := Skip(s);
    if t != "" && t[0] == '}' then Some(([], t[1..])) else ReadMember(s)
  }

  /** A name and its colon. */
  function ReadName(s: string): (r: Option<(string, string)>)
    ensures r.Some? ==> |r.value.1| < |s|
  {
    var t := Skip(s);
    if t == "" || t[0] != '"' then None
    else
      match ReadChars(t[1..])
      case None => None
      case Some((name, rest)) =>
        var u := Skip(rest);
        if u == "" || u[0] != ':' then None else Some((name, u[1..]))
  }

  function ReadMember(s: string): (r: Option<(seq<Member>, string)>)
    ensures r.Some? ==> |r.value.1| < |s|
    decreases |s|, 3
  {
    match ReadName(s)
    case None => None
    case Some((name, colon)) =>
      match ReadValue(colon)
      case None => None
      case Some((v, rest)) =>
        match ReadMoreMembers(rest)
        case None => None
        case Some((members, after)) => Some(([Member(name, v)] + members, after))
  }

  function ReadMoreMembers(s: string): (r: Option<(seq<Member>, string)>)
    ensures r.Some? ==> |r.value.1| < |s|
    decreases |s|, 0
  {
    var t := Skip(s);
    if t == "" then None
    else if t[0] == '}' then Some(([], t[1..]))
    else if t[0] == ',' then ReadMember(t[1..])
    else None
  }

  /** A whole JSON text. */
  function Parse(s: string): Option<Value> {
    match ReadValue(s)
    case None => None
    case Some((v, rest)) => if Skip(rest) == "" then Some(v) else None
  }

  // ---------------------------------------------------------------- printing

  /** How a script escapes: jsonString, jsonStr (which also has short forms for \b and \f), or escapeJson. */
  datatype Style = General | WithShortForms | NoControls

  function HexDigit(n: nat): char
    requires n < 16
  {
    if n < 10 then '0' + n as char else 'a' + (n - 10) as char
  }

  /** `%04x`. */
  function Hex4(n: nat): string
    requires n < 0x10000
  {
    [HexDigit(n / 16 / 16 / 16), HexDigit(n / 16 / 16 % 16), HexDigit(n / 16 % 16), HexDigit(n % 16)]
  }

  function Escape(k: Style, c: char): string {
    if c == '"' then "\\\""
    else if c == '\\' then "\\\\"
    else if c == '\n' then "\\n"
    else if c == '\r' then "\\r"
    else if c == '\t' then "\\t"
    else if c == '\U{8}' && k.WithShortForms? then "\\b"
    else if c == '\U{c}' && k.WithShortForms? then "\\f"
    else if c < ' ' && !k.NoControls? then "\\u" + Hex4(c as nat)
    else [c]
  }

  function Escaped(k: Style, s: string): string {
    if s == "" then "" else Escape(k, s[0]) + Escaped(k, s[1..])
  }

  function Quoted(k: Style, s: string): string {
    "\"" + (Escaped(k, s) + "\"")
  }

  function Printed(k: Style, v: Value): string {
    match v
    case Null => "null"
    case Bool(b) => if b then "true" else "false"
    case Num(n) => IntText(n)
    case Str(s) => Quoted(k, s)
    case Arr(items) => "[" + (PrintedItems(k, items) + "]")
    case Obj(members) => "{" + (PrintedMembers(k, members) + "}")
  }

  function PrintedItems(k: Style, items: seq<Value>): string {
    if items == [] then ""
    else Printed(k, items[0]) + (if |items| == 1 then "" else "," + PrintedItems(k, items[1..]))
  }

  function PrintedMembers(k: Style, members: seq<Member>): string {
    if members == [] then ""
    else PrintedMember(k, members[0]) + (if |members| == 1 then "" else "," + PrintedMembers(k, members[1..]))
  }

  function PrintedMember(k: Style, m: Member): string {
    Quoted(k, m.name) + (":" + Printed(k, m.value))
  }

  // ---------------------------------------------------------------- which texts survive

  /** A character that a style prints so that it can be read back. */
  predicate FineChar(k: Style, c: char) {
    k.NoControls? && c < ' ' ==> c == '\n' || c == '\r' || c == '\t'
  }

  predicate Fine(k: Style, s: string) {
    s == "" || (FineChar(k, s[0]) && Fine(k, s[1..]))
  }

  predicate FineValue(k: Style, v: Value) {
    match v
    case Str(s) => Fine(k, s)
    case Arr(items) => FineItems(k, items)
    case Obj(members) => FineMembers(k, members)
    case _ => true
  }

  predicate FineItems(k: Style, items: seq<Value>) {
    items == [] || (FineValue(k, items[0]) && FineItems(k, items[1..]))
  }

  predicate FineMembers(k: Style, members: seq<Member>) {
    members == [] || (FineMember(k, members[0]) && FineMembers(k, members[1..]))
  }

  predicate FineMember(k: Style, m: Member) {
    Fine(k, m.name) && FineValue(k, m.value)
  }

  // ---------------------------------------------------------------- strings, there and back

  lemma HexSplits(n: nat)
    ensures ((n / 16 / 16 / 16 * 16 + n / 16 / 16 % 16) * 16 + n / 16 % 16) * 16 + n % 16 == n
  {
  }

  lemma HexRead(n: nat)
    requires n < 0x10000
    ensures |Hex4(n)| == 4 && Hex4Value(Hex4(n)) == Some(n)
  {
    hide HexValue, HexDigit;
    HexDigitRead(n / 16 / 16 / 16);
    HexDigitRead(n / 16 / 16 % 16);
    HexDigitRead(n / 16 % 16);
    HexDigitRead(n % 16);
    HexSplits(n);
  }

  lemma HexDigitRead(n: nat)
    requires n < 16
    ensures HexValue(HexDigit(n)) == Some(n)
  {
  }

  lemma HexEscapeRead(n: nat, rest: string)
    requires n < 32
    ensures ReadChar("\\u" + Hex4(n) + rest) == Some((n as char, rest))
  {
    var t := "\\u" + Hex4(n) + rest;
    HexRead(n);
    hide Hex4, Hex4Value;
    assert t[0] == '\\' && t[1] == 'u' && t[2..6] == Hex4(n) && t[6..] == rest;
  }

  lemma ShortEscapeRead(e: char, c: char, rest: string)
    requires e != 'u' && Unescaped(e) == Some(c)
    ensures ReadChar(['\\', e] + rest) == Some((c, rest))
  {
    var t := ['\\', e] + rest;
    assert t[0] == '\\' && t[1] == e && t[2..] == rest;
  }

  lemma PlainRead(c: char, rest: string)
    requires c != '\\'
    ensures ReadChar([c] + rest) == if c < ' ' then None else Some((c, rest))
  {
    var t := [c] + rest;
    assert t[0] == c && t[1..] == rest;
  }

  lemma EscapeRead(k: Style, c: char, rest: string)
    ensures Escape(k, c) != "" && Escape(k, c)[0] != '"'
    ensures ReadChar(Escape(k, c) + rest) == if FineChar(k, c) then Some((c, rest)) else None
  {
    hide ReadChar, Hex4;
    if c == '"' { ShortEscapeRead('"', c, rest); }
    else if c == '\\' { ShortEscapeRead('\\', c, rest); }
    else if c == '\n' { ShortEscapeRead('n', c, rest); }
    else if c == '\r' { ShortEscapeRead('r', c, rest); }
    else if c == '\t' { ShortEscapeRead('t', c, rest); }
    else if c == '\U{8}' && k.WithShortForms? { ShortEscapeRead('b', c, rest); }
    else if c == '\U{c}' && k.WithShortForms? { ShortEscapeRead('f', c, rest); }
    else if c < ' ' && !k.NoControls? { HexEscapeRead(c as nat, rest); }
    else { PlainRead(c, rest); }
  }

  lemma CharStep(c: char, text: string, rest: string, fine: bool)
    requires text != "" && text[0] != '"' && ReadChar(text) == if fine then Some((c, rest)) else None
    ensures ReadChars(text) ==
      if !fine then None
      else match ReadChars(rest) { case None => None case Some((cs, after)) => Some(([c] + cs, after)) }
  {
    hide ReadChar;
  }

  lemma QuoteRead(rest: string)
    ensures ReadChars("\"" + rest) == Some(("", rest))
  {
    hide ReadChar;
    assert ("\"" + rest)[1..] == rest;
  }

  /** A quoted string is read back exactly if its style can print all its characters; otherwise it is refused. */
  lemma {:induction false} CharsRead(k: Style, s: string, rest: string)
    ensures ReadChars(Escaped(k, s) + ("\"" + rest)) == if Fine(k, s) then Some((s, rest)) else None
  {
    hide Escape, ReadChar, ReadChars, FineChar;
    if s == "" {
      assert Escaped(k, s) + ("\"" + rest) == "\"" + rest;
      QuoteRead(rest);
    } else {
      var after := Escaped(k, s[1..]) + ("\"" + rest);
      assert Escaped(k, s) + ("\"" + rest) == Escape(k, s[0]) + after;
      EscapeRead(k, s[0], after);
      CharStep(s[0], Escape(k, s[0]) + after, after, FineChar(k, s[0]));
      CharsRead(k, s[1..], rest);
      assert [s[0]] + s[1..] == s;
    }
  }

  lemma EveryStringIsFine(k: Style, s: string)
    requires !k.NoControls?
    ensures Fine(k, s)
  {
  }

  // ---------------------------------------------------------------- values, there and back

  /** What may follow a value inside a text. */
  predicate Follows(rest: string) {
    rest == "" || rest[0] == ',' || rest[0] == ']' || rest[0] == '}'
  }

  lemma NoLeadingZero(n: nat)
    ensures NatText(n)[0] == '0' ==> |NatText(n)| == 1
  {
  }

  lemma DigitsRead(n: nat, rest: string)
    requires Follows(rest)
    ensures ReadNatural(NatText(n) + rest) == Some((n, rest))
  {
    var d := NatText(n);
    NoLeadingZero(n);
    NatRoundTrip(n);
    hide NatText, NatOf;
    SpanExact(d, rest, Digit);
  }

  lemma NumberRead(n: int, rest: string)
    requires Follows(rest)
    ensures ReadNumber(IntText(n) + rest) == Some((Num(n), rest))
  {
    var t := IntText(n) + rest;
    assert IsDigit(NatText(if n < 0 then -n else n)[0]);
    hide NatText, ReadNatural;
    if n < 0 {
      assert t[0] == '-' && t[1..] == NatText(-n) + rest;
      DigitsRead(-n, rest);
    } else {
      DigitsRead(n, rest);
    }
  }

  lemma SkipNothing(s: string)
    requires s == "" || !IsWs(s[0])
    ensures Skip(s) == s
  {
  }

  lemma NumberStarts(n: int, rest: string)
    requires Follows(rest)
    ensures ReadValue(IntText(n) + rest) == Some((Num(n), rest))
  {
    var t := IntText(n) + rest;
    IntStarts(n);
    NumberRead(n, rest);
    hide ReadNumber, IntText, ReadChars, ReadItems, ReadMembers, ReadWord, Skip;
    SkipNothing(t);
  }

  lemma IntStarts(n: int)
    ensures var t := IntText(n); t != "" && (IsDigit(t[0]) || t[0] == '-')
  {
  }

  lemma WordRead(v: Value, rest: string)
    requires v.Null? || v.Bool?
    ensures ReadValue(Printed(General, v) + rest) == Some((v, rest))
  {
    hide ReadNumber, ReadChars, ReadItems, ReadMembers, Skip;
    var w := Printed(General, v);
    var t := w + rest;
    SkipNothing(t);
    assert t[0] == w[0] && t[|w|..] == rest;
  }

  lemma StringRead(k: Style, s: string, rest: string)
    ensures ReadValue(Quoted(k, s) + rest) == if Fine(k, s) then Some((Str(s), rest)) else None
  {
    CharsRead(k, s, rest);
    hide ReadChars, Escaped, Fine, ReadNumber, ReadItems, ReadMembers, ReadWord, Skip;
    var t := Quoted(k, s) + rest;
    assert t[0] == '"' && t[1..] == Escaped(k, s) + ("\"" + rest);
    SkipNothing(t);
  }

  lemma NameRead(k: Style, name: string, rest: string)
    ensures ReadName(Quoted(k, name) + (":" + rest)) == if Fine(k, name) then Some((name, rest)) else None
  {
    CharsRead(k, name, ":" + rest);
    hide ReadChars, Escaped, Fine, Skip;
    var t := Quoted(k, name) + (":" + rest);
    assert t[0] == '"' && t[1..] == Escaped(k, name) + ("\"" + (":" + rest));
    SkipNothing(t);
    SkipNothing(":" + rest);
    assert (":" + rest)[1..] == rest;
  }

  lemma {:induction false} ValueRead(k: Style, v: Value, rest: string)
    requires Follows(rest)
    ensures ReadValue(Printed(k, v) + rest) == if FineValue(k, v) then Some((v, rest)) else None
    decreases v, 1
  {
    hide ReadValue, ReadChars, Escaped, Fine, IntText, Quoted;
    match v
    case Null => WordRead(v, rest);
    case Bool(b) => WordRead(v, rest);
    case Num(n) => NumberStarts(n, rest);
    case Str(s) => StringRead(k, s, rest);
    case Arr(items) => ArrayRead(k, items, rest);
    case Obj(members) => ObjectRead(k, members, rest);
  }

  lemma BracketRead(body: string)
    ensures ReadValue("[" + body)
      == match ReadItems(body) { case None => None case Some((items, rest)) => Some((Arr(items), rest)) }
    ensures ReadValue("{" + body)
      == match ReadMembers(body) { case None => None case Some((ms, rest)) => Some((Obj(ms), rest)) }
  {
    hide ReadItems, ReadMembers, ReadNumber, ReadChars, ReadWord, Skip;
    SkipNothing("[" + body);
    SkipNothing("{" + body);
    assert ("[" + body)[1..] == body && ("{" + body)[1..] == body;
  }

  lemma ClosedRead(rest: string)
    ensures ReadItems("]" + rest) == Some(([], rest)) && ReadMembers("}" + rest) == Some(([], rest))
    ensures ReadMoreItems("]" + rest) == Some(([], rest)) && ReadMoreMembers("}" + rest) == Some(([], rest))
  {
    hide ReadItem, ReadMember, Skip;
    SkipNothing("]" + rest);
    SkipNothing("}" + rest);
    assert ("]" + rest)[1..] == rest && ("}" + rest)[1..] == rest;
  }

  lemma CommaRead(text: string)
    ensures ReadMoreItems("," + text) == ReadItem(text) && ReadMoreMembers("," + text) == ReadMember(text)
  {
    hide ReadItem, ReadMember, Skip;
    SkipNothing("," + text);
    assert ("," + text)[1..] == text;
  }

  lemma {:induction false} ArrayRead(k: Style, items: seq<Value>, rest: string)
    requires Follows(rest)
    ensures ReadValue(Printed(k, Arr(items)) + rest) == if FineItems(k, items) then Some((Arr(items), rest)) else None
    decreases items, 1
  {
    hide ReadItem, ReadValue, ReadItems, Skip, PrintedItems;
    var body := PrintedItems(k, items) + ("]" + rest);
    assert Printed(k, Arr(items)) + rest == "[" + body;
    BracketRead(body);
    if items == [] {
      NoItems(k);
      assert body == "]" + rest;
      ClosedRead(rest);
    } else {
      ItemsStart(k, items, "]" + rest);
      ItemRead(k, items, rest);
    }
  }

  lemma NoItems(k: Style)
    ensures PrintedItems(k, []) == "" && PrintedMembers(k, []) == ""
  {
  }

  /** A printed value starts with none of white space and closing brackets. */
  lemma ValueStarts(k: Style, v: Value)
    ensures var t := Printed(k, v); t != "" && !IsWs(t[0]) && t[0] != ']'
  {
    if v.Num? {
      IntStarts(v.n);
      hide IntText;
    }
  }

  lemma ItemsStart(k: Style, items: seq<Value>, rest: string)
    requires items != []
    ensures ReadItems(PrintedItems(k, items) + rest) == ReadItem(PrintedItems(k, items) + rest)
  {
    hide Printed, ReadItem, Skip;
    ValueStarts(k, items[0]);
    var t := PrintedItems(k, items) + rest;
    assert t[0] == Printed(k, items[0])[0];
    SkipNothing(t);
  }

  lemma {:induction false} ItemRead(k: Style, items: seq<Value>, rest: string)
    requires items != []
    ensures ReadItem(PrintedItems(k, items) + ("]" + rest)) == if FineItems(k, items) then Some((items, rest)) else None
    decreases items, 0
  {
    hide ReadValue, Printed, ReadMoreItems, FineValue;
    if |items| == 1 {
      var more := "]" + rest;
      assert PrintedItems(k, items) + more == Printed(k, items[0]) + more && items == [items[0]] + [] &&
        items[1..] == [];
      ValueRead(k, items[0], more);
      ClosedRead(rest);
    } else {
      var text := PrintedItems(k, items[1..]) + ("]" + rest);
      assert PrintedItems(k, items) + ("]" + rest) == Printed(k, items[0]) + ("," + text);
      ValueRead(k, items[0], "," + text);
      CommaRead(text);
      ItemRead(k, items[1..], rest);
      assert [items[0]] + items[1..] == items;
    }
  }

  lemma {:induction false} ObjectRead(k: Style, members: seq<Member>, rest: string)
    requires Follows(rest)
    ensures ReadValue(Printed(k, Obj(members)) + rest) == if FineMembers(k, members) then Some((Obj(members), rest))
      else None
    decreases members, 1
  {
    hide ReadMember, ReadValue, ReadMembers, Skip, PrintedMembers;
    var body := PrintedMembers(k, members) + ("}" + rest);
    assert Printed(k, Obj(members)) + rest == "{" + body;
    BracketRead(body);
    if members == [] {
      NoItems(k);
      assert body == "}" + rest;
      ClosedRead(rest);
    } else {
      MembersStart(k, members, "}" + rest);
      MemberRead(k, members, rest);
    }
  }

  lemma MembersStart(k: Style, members: seq<Member>, rest: string)
    requires members != []
    ensures ReadMembers(PrintedMembers(k, members) + rest) == ReadMember(PrintedMembers(k, members) + rest)
  {
    hide ReadMember, Skip;
    var t := PrintedMembers(k, members) + rest;
    var m := PrintedMember(k, members[0]);
    assert m[0] == '"' && t[0] == m[0];
    SkipNothing(t);
  }

  /** One name, its value, and text that is read next. */
  lemma NameAndValueRead(k: Style, m: Member, more: string)
    requires FineMember(k, m) ==> ReadValue(Printed(k, m.value) + more) == Some((m.value, more))
    requires Fine(k, m.name) && !FineValue(k, m.value) ==> ReadValue(Printed(k, m.value) + more) == None
    ensures ReadMember(PrintedMember(k, m) + more) ==
      if !FineMember(k, m) then None
      else match ReadMoreMembers(more) { case None => None case Some((ms, after)) => Some(([m] + ms, after)) }
  {
    hide ReadValue, ReadName, Quoted, Fine, FineValue, Printed, ReadMoreMembers;
    NameRead(k, m.name, Printed(k, m.value) + more);
    assert PrintedMember(k, m) + more == Quoted(k, m.name) + (":" + (Printed(k, m.value) + more));
  }

  lemma {:induction false} MemberRead(k: Style, members: seq<Member>, rest: string)
    requires members != []
    ensures ReadMember(PrintedMembers(k, members) + ("}" + rest)) == if FineMembers(k, members)
      then Some((members, rest)) else None
    decreases members, 0
  {
    hide ReadValue, Printed, PrintedMember, ReadMember, ReadMoreMembers, FineValue;
    var m := members[0];
    assert members decreases to m;
    assert m decreases to m.value;
    if |members| == 1 {
      var more := "}" + rest;
      assert PrintedMembers(k, members) + more == PrintedMember(k, m) + more && members == [m] + [] &&
        members[1..] == [];
      ValueRead(k, m.value, more);
      NameAndValueRead(k, m, more);
      ClosedRead(rest);
    } else {
      var text := PrintedMembers(k, members[1..]) + ("}" + rest);
      assert PrintedMembers(k, members) + ("}" + rest) == PrintedMember(k, m) + ("," + text);
      ValueRead(k, m.value, "," + text);
      NameAndValueRead(k, m, "," + text);
      CommaRead(text);
      MemberRead(k, members[1..], rest);
      assert [m] + members[1..] == members;
    }
  }

  /** What was printed is read back exactly if its style can print all its strings; otherwise the text is not JSON. */
  lemma RoundTrip(k: Style, v: Value)
    ensures Parse(Printed(k, v)) == if FineValue(k, v) then Some(v) else None
  {
    ValueRead(k, v, "");
    assert Printed(k, v) + "" == Printed(k, v);
  }

  lemma {:induction false} EveryValueIsFine(k: Style, v: Value)
    requires !k.NoControls?
    ensures FineValue(k, v)
    decreases v, 1
  {
    match v
    case Str(s) => EveryStringIsFine(k, s);
    case Arr(items) => EveryItemIsFine(k, items);
    case Obj(members) => EveryMemberIsFine(k, members);
    case _ =>
  }

  lemma {:induction false} EveryItemIsFine(k: Style, items: seq<Value>)
    requires !k.NoControls?
    ensures FineItems(k, items)
    decreases items, 0
  {
    if items != [] {
      EveryValueIsFine(k, items[0]);
      EveryItemIsFine(k, items[1..]);
    }
  }

  lemma {:induction false} EveryMemberIsFine(k: Style, members: seq<Member>)
    requires !k.NoControls?
    ensures FineMembers(k, members)
    decreases members, 0
  {
    if members != [] {
      var m := members[0];
      assert members decreases to m;
      assert m decreases to m.value;
      EveryStringIsFine(k, m.name);
      EveryValueIsFine(k, m.value);
      EveryMemberIsFine(k, members[1..]);
    }
  }
}
