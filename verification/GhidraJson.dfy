/** The JSON printers of the Ghidra scripts, each against the value it prints. */
module GhidraJson {
  import opened Sequences
  import opened Wrappers
  import opened Text
  import opened Json

  // ---------------------------------------------------------------- strings

  lemma {:induction false} EscapedJoin(k: Style, a: string, b: string)
    ensures Escaped(k, a + b) == Escaped(k, a) + Escaped(k, b)
  {
    hide Escape;
    if a == "" {
      assert a + b == b;
    } else {
      assert (a + b)[0] == a[0] && (a + b)[1..] == a[1..] + b;
      EscapedJoin(k, a[1..], b);
    }
  }

  lemma EscapedSnoc(k: Style, s: string, i: nat)
    requires i < |s|
    ensures Escaped(k, s[..i + 1]) == Escaped(k, s[..i]) + Escape(k, s[i])
  {
    hide Escape;
    assert s[..i + 1] == s[..i] + [s[i]] && [s[i]][1..] == "";
    EscapedJoin(k, s[..i], [s[i]]);
    assert Escape(k, s[i]) + "" == Escape(k, s[i]);
  }

  /** A Java reference to a string, printed as null if it is null. */
  function OrNull(s: Option<string>): Value {
    match s
    case None => Null
    case Some(t) => Str(t)
  }

  method JsonStringChar(c: char) returns (e: string)
    ensures e == Escape(General, c)
  {
    match c {
      case '"' => e := "\\\"";
      case '\\' => e := "\\\\";
      case '\n' => e := "\\n";
      case '\r' => e := "\\r";
      case '\t' => e := "\\t";
      case _ => e := if c as int < 0x20 then "\\u" + Hex4(c as nat) else [c];
    }
  }

  method JsonString(s: Option<string>) returns (text: string)
    ensures text == Printed(General, OrNull(s))
  {
    hide Escape, Escaped;
    if s.None? {
      return "null";
    }
    var value := s.value;
    var sb := "";
    var i := 0;
    EscapedEmpty(General);
    while i < |value|
      invariant 0 <= i <= |value| && sb == Escaped(General, value[..i])
    {
      EscapedSnoc(General, value, i);
      var e := JsonStringChar(value[i]);
      sb := sb + e;
      i := i + 1;
    }
    assert value[..i] == value;
    return "\"" + (sb + "\"");
  }

  lemma EscapedEmpty(k: Style)
    ensures Escaped(k, "") == ""
  {
  }

  method JsonStrChar(c: char) returns (e: string)
    ensures e == Escape(WithShortForms, c)
  {
    match c {
      case '"' => e := "\\\"";
      case '\\' => e := "\\\\";
      case '\n' => e := "\\n";
      case '\r' => e := "\\r";
      case '\t' => e := "\\t";
      case '\U{8}' => e := "\\b";
      case '\U{c}' => e := "\\f";
      case _ => e := if c as int < 0x20 then "\\u" + Hex4(c as nat) else [c];
    }
  }

  method JsonStr(s: Option<string>) returns (text: string)
    ensures text == Printed(WithShortForms, OrNull(s))
  {
    hide Escape, Escaped;
    if s.None? {
      return "null";
    }
    var value := s.value;
    var sb := "";
    var i := 0;
    EscapedEmpty(WithShortForms);
    while i < |value|
      invariant 0 <= i <= |value| && sb == Escaped(WithShortForms, value[..i])
    {
      EscapedSnoc(WithShortForms, value, i);
      var e := JsonStrChar(value[i]);
      sb := sb + e;
      i := i + 1;
    }
    assert value[..i] == value;
    return "\"" + (sb + "\"");
  }

  /** Both printers lose nothing, whatever the string. */
  lemma StringsReadBack(k: Style, s: Option<string>)
    requires !k.NoControls?
    ensures Parse(Printed(k, OrNull(s))) == Some(OrNull(s))
  {
    hide Parse, Printed;
    EveryValueIsFine(k, OrNull(s));
    RoundTrip(k, OrNull(s));
  }

  // ---------------------------------------------------------------- chained replaces

  /** Java's `s.replace(c, t)` for a one-character target. */
  function Replace(s: string, c: char, t: string): string {
    if s == "" then "" else (if s[0] == c then t else [s[0]]) + Replace(s[1..], c, t)
  }

  lemma {:induction false} ReplaceJoin(a: string, b: string, c: char, t: string)
    ensures Replace(a + b, c, t) == Replace(a, c, t) + Replace(b, c, t)
  {
    if a == "" {
      assert a + b == b;
    } else {
      assert (a + b)[0] == a[0] && (a + b)[1..] == a[1..] + b;
      ReplaceJoin(a[1..], b, c, t);
    }
  }

  function EscapeJson(s: string): string {
    var backslashes := Replace(s, '\\', "\\\\");
    var quotes := Replace(backslashes, '"', "\\\"");
    var newlines := Replace(quotes, '\n', "\\n");
    var returns_ := Replace(newlines, '\r', "\\r");
    Replace(returns_, '\t', "\\t")
  }

  lemma EscapeJsonJoin(a: string, b: string)
    ensures EscapeJson(a + b) == EscapeJson(a) + EscapeJson(b)
  {
    hide Replace;
    ReplaceJoin(a, b, '\\', "\\\\");
    var a1, b1 := Replace(a, '\\', "\\\\"), Replace(b, '\\', "\\\\");
    ReplaceJoin(a1, b1, '"', "\\\"");
    var a2, b2 := Replace(a1, '"', "\\\""), Replace(b1, '"', "\\\"");
    ReplaceJoin(a2, b2, '\n', "\\n");
    var a3, b3 := Replace(a2, '\n', "\\n"), Replace(b2, '\n', "\\n");
    ReplaceJoin(a3, b3, '\r', "\\r");
    ReplaceJoin(Replace(a3, '\r', "\\r"), Replace(b3, '\r', "\\r"), '\t', "\\t");
  }

  /** No later replace touches what an earlier one put in, so one character is escaped as if alone. */
  lemma EscapeJsonOne(c: char)
    ensures EscapeJson([c]) == Escape(NoControls, c)
  {
    ReplaceOne(c, '\\', "\\\\");
    hide Replace;
    if c == '\\' {
      ReplaceNone("\\\\", '"', "\\\"");
      ReplaceNone("\\\\", '\n', "\\n");
      ReplaceNone("\\\\", '\r', "\\r");
      ReplaceNone("\\\\", '\t', "\\t");
    } else {
      ReplaceOne(c, '"', "\\\"");
      if c == '"' {
        ReplaceNone("\\\"", '\n', "\\n");
        ReplaceNone("\\\"", '\r', "\\r");
        ReplaceNone("\\\"", '\t', "\\t");
      } else {
        ReplaceOne(c, '\n', "\\n");
        if c == '\n' {
          ReplaceNone("\\n", '\r', "\\r");
          ReplaceNone("\\n", '\t', "\\t");
        } else {
          ReplaceOne(c, '\r', "\\r");
          if c == '\r' {
            ReplaceNone("\\r", '\t', "\\t");
          } else {
            ReplaceOne(c, '\t', "\\t");
          }
        }
      }
    }
  }

  lemma ReplaceOne(c: char, d: char, t: string)
    ensures Replace([c], d, t) == if c == d then t else [c]
  {
    assert [c][1..] == "" && t + "" == t && [c] + "" == [c];
  }

  lemma {:induction false} ReplaceNone(s: string, d: char, t: string)
    requires d !in s
    ensures Replace(s, d, t) == s
  {
    if s != "" {
      ReplaceNone(s[1..], d, t);
    }
  }

  /** The five replaces in a row are one map over the characters. */
  lemma {:induction false} ReplacesAreEscapes(s: string)
    ensures EscapeJson(s) == Escaped(NoControls, s)
  {
    if s == "" {
    } else {
      hide EscapeJson, Escape;
      assert s == [s[0]] + s[1..];
      EscapeJsonJoin([s[0]], s[1..]);
      EscapeJsonOne(s[0]);
      ReplacesAreEscapes(s[1..]);
    }
  }

  // ---------------------------------------------------------------- lists and objects

  lemma {:induction false} ItemsSnoc(k: Style, items: seq<Value>, v: Value)
    ensures PrintedItems(k, items + [v]) == PrintedItems(k, items) + ((if items == [] then "" else ",") + Printed(k, v))
  {
    hide Printed;
    var all := items + [v];
    if items == [] {
      assert all == [v];
    } else {
      var rest := items[1..];
      assert all[0] == items[0] && all[1..] == rest + [v];
      ItemsSnoc(k, rest, v);
      if rest == [] {
        assert PrintedItems(k, items) == Printed(k, items[0]) && rest + [v] == [v];
      } else {
        Regroup(",", PrintedItems(k, rest), "," + Printed(k, v));
        Regroup(Printed(k, items[0]), "," + PrintedItems(k, rest), "," + Printed(k, v));
      }
    }
  }

  lemma {:induction false} MembersSnoc(k: Style, ms: seq<Member>, m: Member)
    ensures PrintedMembers(k, ms + [m]) == PrintedMembers(k, ms)
      + ((if ms == [] then "" else ",") + PrintedMember(k, m))
  {
    hide PrintedMember;
    var all := ms + [m];
    if ms == [] {
      assert all == [m];
    } else {
      var rest := ms[1..];
      assert all[0] == ms[0] && all[1..] == rest + [m];
      MembersSnoc(k, rest, m);
      if rest == [] {
        assert PrintedMembers(k, ms) == PrintedMember(k, ms[0]) && rest + [m] == [m];
      } else {
        Regroup(",", PrintedMembers(k, rest), "," + PrintedMember(k, m));
        Regroup(PrintedMember(k, ms[0]), "," + PrintedMembers(k, rest), "," + PrintedMember(k, m));
      }
    }
  }

  /** An object's text after some of its members, and the comma before the next. */
  function Open(k: Style, ms: seq<Member>): string {
    "{" + PrintedMembers(k, ms)
  }

  function Comma(i: nat): string {
    if i == 0 then "" else ","
  }

  lemma PutMember(k: Style, ms: seq<Member>, i: nat)
    requires i < |ms|
    ensures (Open(k, ms[..i]) + Comma(i)) + PrintedMember(k, ms[i]) == Open(k, ms[..i + 1])
  {
    hide PrintedMember, PrintedMembers;
    assert ms[..i + 1] == ms[..i] + [ms[i]];
    MembersSnoc(k, ms[..i], ms[i]);
    Regroup("{", PrintedMembers(k, ms[..i]), Comma(i) + PrintedMember(k, ms[i]));
    Regroup(Open(k, ms[..i]), Comma(i), PrintedMember(k, ms[i]));
  }

  lemma CloseObject(k: Style, ms: seq<Member>)
    ensures Open(k, ms) + "}" == Printed(k, Obj(ms)) && Open(k, []) == "{"
  {
    NoMembers(k);
    hide PrintedMembers;
    Regroup("{", PrintedMembers(k, ms), "}");
  }

  lemma NoMembers(k: Style)
    ensures PrintedMembers(k, []) == "" && PrintedItems(k, []) == ""
  {
  }

  lemma PutItem(k: Style, items: seq<Value>, i: nat)
    requires i < |items|
    ensures (PrintedItems(k, items[..i]) + Comma(i)) + Printed(k, items[i]) == PrintedItems(k, items[..i + 1])
  {
    hide Printed, PrintedItems;
    assert items[..i + 1] == items[..i] + [items[i]];
    ItemsSnoc(k, items[..i], items[i]);
    Regroup(PrintedItems(k, items[..i]), Comma(i), Printed(k, items[i]));
  }

  function MemberTexts(k: Style, ms: seq<Member>): seq<string> {
    seq(|ms|, i requires 0 <= i < |ms| => PrintedMember(k, ms[i]))
  }

  lemma {:induction false} JoinedMembers(k: Style, ms: seq<Member>)
    ensures Join(MemberTexts(k, ms), ",") == PrintedMembers(k, ms)
  {
    hide PrintedMember;
    if |ms| > 1 {
      JoinedMembers(k, ms[1..]);
      assert MemberTexts(k, ms)[1..] == MemberTexts(k, ms[1..]);
    }
  }

  /** Text that needs no escape. */
  predicate Raw(s: string) {
    forall i :: 0 <= i < |s| ==> s[i] >= ' ' && s[i] != '"' && s[i] != '\\'
  }

  lemma {:induction false} RawIsEscaped(k: Style, s: string)
    requires Raw(s)
    ensures Escaped(k, s) == s && Quoted(k, s) == "\"" + s + "\""
  {
    if s != "" {
      RawIsEscaped(k, s[1..]);
      assert Escape(k, s[0]) == [s[0]];
      assert [s[0]] + s[1..] == s;
    }
  }

  // ---------------------------------------------------------------- TaintAnalysis

  /** The fields a path map holds: texts and flags, in the order they were put in. */
  datatype Field = TextField(key: string, text: string) | FlagField(key: string, flag: bool)

  function FieldMember(f: Field): Member {
    match f
    case TextField(key, text) => Member(key, Str(text))
    case FlagField(key, flag) => Member(key, Bool(flag))
  }

  function FieldMembers(path: seq<Field>): seq<Member> {
    seq(|path|, i requires 0 <= i < |path| => FieldMember(path[i]))
  }

  predicate RawKeys(path: seq<Field>) {
    forall i :: 0 <= i < |path| ==> Raw(path[i].key)
  }

  function PathValues(paths: seq<seq<Field>>): seq<Value> {
    seq(|paths|, i requires 0 <= i < |paths| => Obj(FieldMembers(paths[i])))
  }

  method FieldText(f: Field) returns (text: string)
    requires Raw(f.key)
    ensures text == PrintedMember(General, FieldMember(f))
  {
    RawIsEscaped(General, f.key);
    hide Escaped;
    match f {
      case FlagField(key, flag) =>
        text := "\"" + key + "\":" + (if flag then "true" else "false");
        assert text == ("\"" + key + "\"") + (":" + Printed(General, Bool(flag)));
      case TextField(key, t) =>
        var quoted := JsonString(Some(t));
        text := "\"" + key + "\":" + quoted;
        assert text == ("\"" + key + "\"") + (":" + quoted);
    }
  }

  method PathToJson(path: seq<Field>) returns (text: string)
    requires RawKeys(path)
    ensures text == Printed(General, Obj(FieldMembers(path)))
  {
    hide PrintedMember, PrintedMembers;
    text := "{";
    var fields := PathFields(path);
    text := text + Join(fields, ",");
    text := text + "}";
    JoinedMembers(General, FieldMembers(path));
    CloseObject(General, FieldMembers(path));
  }

  method TaintToJson(paths: seq<seq<Field>>) returns (text: string)
    requires forall i :: 0 <= i < |paths| ==> RawKeys(paths[i])
    ensures text == Printed(General, Arr(PathValues(paths)))
  {
    hide Printed, PrintedItems;
    var sb := "";
    var i := 0;
    ghost var values := PathValues(paths);
    NoMembers(General);
    while i < |paths|
      invariant 0 <= i <= |paths| && sb == PrintedItems(General, values[..i])
    {
      if i > 0 {
        sb := sb + ",";
      } else {
        assert sb + "" == sb;
      }
      var path := PathToJson(paths[i]);
      PutItem(General, values, i);
      sb := sb + path;
      i := i + 1;
    }
    assert values[..i] == values;
    ArrayText(values);
    return "[" + (sb + "]");
  }

  method PathFields(path: seq<Field>) returns (fields: seq<string>)
    requires RawKeys(path)
    ensures fields == MemberTexts(General, FieldMembers(path))
  {
    hide PrintedMember;
    fields := [];
    var i := 0;
    while i < |path|
      invariant 0 <= i <= |path| && fields == MemberTexts(General, FieldMembers(path[..i]))
    {
      var field := FieldText(path[i]);
      fields := fields + [field];
      assert FieldMembers(path[..i + 1]) == FieldMembers(path[..i]) + [FieldMember(path[i])];
      i := i + 1;
    }
    assert path[..i] == path;
  }

  lemma TaintReadsBack(paths: seq<seq<Field>>)
    ensures Parse(Printed(General, Arr(PathValues(paths)))) == Some(Arr(PathValues(paths)))
  {
    hide Parse, Printed;
    EveryValueIsFine(General, Arr(PathValues(paths)));
    RoundTrip(General, Arr(PathValues(paths)));
  }

  // ---------------------------------------------------------------- StackLayout

  predicate Scalar(v: Value) {
    v.Str? || v.Bool? || v.Num?
  }

  method MemberToJson(m: Member) returns (text: string)
    requires Scalar(m.value)
    ensures text == PrintedMember(NoControls, m)
  {
    hide Escaped, EscapeJson;
    ReplacesAreEscapes(m.name);
    text := "\"" + (EscapeJson(m.name) + "\"") + (":" + ScalarToJson(m.value));
  }

  function ScalarToJson(v: Value): (text: string)
    requires Scalar(v)
    ensures text == Printed(NoControls, v)
  {
    match v
    case Str(s) =>
      ReplacesAreEscapes(s);
      "\"" + (EscapeJson(s) + "\"")
    case Bool(b) => if b then "true" else "false"
    case Num(n) => IntText(n)
  }

  /** The printed map is JSON, and reads back as the map, exactly if its control characters are all LF, CR and TAB. */
  method MapToJson(map_: seq<Member>) returns (text: string)
    requires forall i :: 0 <= i < |map_| ==> Scalar(map_[i].value)
    ensures text == Printed(NoControls, Obj(map_))
    ensures Parse(text) == if FineMembers(NoControls, map_) then Some(Obj(map_)) else None
  {
    hide Parse, PrintedMember, PrintedMembers, FineMembers, Printed, Open;
    CloseObject(NoControls, map_);
    text := "{";
    var first := true;
    var i := 0;
    while i < |map_|
      invariant 0 <= i <= |map_| && (first <==> i == 0) && text == Open(NoControls, map_[..i])
    {
      if !first {
        text := text + ",";
      } else {
        assert text + "" == text;
      }
      first := false;
      var member := MemberToJson(map_[i]);
      PutMember(NoControls, map_, i);
      text := text + member;
      i := i + 1;
    }
    assert map_[..i] == map_;
    text := text + "}";
    RoundTrip(NoControls, Obj(map_));
    ObjectIsFine(map_);
  }

  lemma ObjectIsFine(ms: seq<Member>)
    ensures FineValue(NoControls, Obj(ms)) == FineMembers(NoControls, ms)
  {
    hide FineMembers;
  }

  // ---------------------------------------------------------------- FindStringRefs

  // The keys of the printed objects.

  function StringValue(): string {
    "string_value"
  }

  function StringAddress(): string {
    "string_address"
  }

  function References(): string {
    "references"
  }

  function FunctionKey(): string {
    "function"
  }

  function FunctionAddress(): string {
    "function_address"
  }

  function RefAddress(): string {
    "ref_address"
  }

  function InstructionKey(): string {
    "instruction"
  }

  datatype RefEntry = RefEntry(function_: Option<string>, functionAddress: string, refAddress: string,
      instruction: Option<string>)

  datatype StringEntry = StringEntry(text: string, address: string, refs: seq<RefEntry>)

  function RefMembers(r: RefEntry): seq<Member> {
    [Member(FunctionKey(), OrNull(r.function_)), Member(FunctionAddress(), Str(r.functionAddress)),
     Member(RefAddress(), Str(r.refAddress)), Member(InstructionKey(), OrNull(r.instruction))]
  }

  function RefValues(refs: seq<RefEntry>): seq<Value> {
    seq(|refs|, i requires 0 <= i < |refs| => Obj(RefMembers(refs[i])))
  }

  function EntryMembers(e: StringEntry): seq<Member> {
    [Member(StringValue(), Str(e.text)), Member(StringAddress(), Str(e.address)),
     Member(References(), Arr(RefValues(e.refs)))]
  }

  function EntryValues(entries: seq<StringEntry>): seq<Value> {
    seq(|entries|, i requires 0 <= i < |entries| => Obj(EntryMembers(entries[i])))
  }

  /** Addresses are printed without escaping. */
  predicate RawAddresses(e: StringEntry) {
    Raw(e.address) && forall i :: 0 <= i < |e.refs| ==> Raw(e.refs[i].functionAddress) && Raw(e.refs[i].refAddress)
  }

  lemma MemberText(name: string, v: Value)
    requires Raw(name)
    ensures PrintedMember(General, Member(name, v)) == NameText(name, Printed(General, v))
  {
    RawIsEscaped(General, name);
  }

  lemma AddressText(name: string, address: string)
    requires Raw(name) && Raw(address)
    ensures PrintedMember(General, Member(name, Str(address))) == NameText(name, "\"" + address + "\"")
  {
    MemberText(name, Str(address));
    RawIsEscaped(General, address);
  }

  lemma RefNamesAreRaw()
    ensures Raw(FunctionKey()) && Raw(FunctionAddress()) && Raw(RefAddress()) && Raw(InstructionKey())
  {
  }

  lemma EntryNamesAreRaw()
    ensures Raw(StringValue()) && Raw(StringAddress()) && Raw(References())
  {
  }

  lemma Appended(text: string, ms: seq<Member>, i: nat, piece: string)
    requires i < |ms| && text == Open(General, ms[..i]) + Comma(i) && piece == PrintedMember(General, ms[i])
    ensures text + piece == Open(General, ms[..i + 1])
  {
    hide PrintedMember, Open, Comma;
    PutMember(General, ms, i);
  }

  lemma ObjectStarts(ms: seq<Member>)
    ensures "{" == Open(General, ms[..0]) + Comma(0)
  {
    CloseObject(General, []);
    assert ms[..0] == [] && "{" + "" == "{";
  }

  lemma ObjectEnds(text: string, ms: seq<Member>)
    requires text == Open(General, ms[..|ms|])
    ensures text + "}" == Printed(General, Obj(ms))
  {
    hide Printed, Open;
    assert ms[..|ms|] == ms;
    CloseObject(General, ms);
  }

  function NameText(name: string, value: string): string {
    ("\"" + name + "\"") + (":" + value)
  }

  method RefToJson(r: RefEntry) returns (text: string)
    requires Raw(r.functionAddress) && Raw(r.refAddress)
    ensures text == Printed(General, Obj(RefMembers(r)))
  {
    RefNamesAreRaw();
    hide Raw, PrintedMember, Printed, Open, NameText;
    hide FunctionKey, FunctionAddress, RefAddress, InstructionKey;
    var func := JsonString(r.function_);
    var insn := JsonString(r.instruction);
    MemberText(FunctionKey(), OrNull(r.function_));
    AddressText(FunctionAddress(), r.functionAddress);
    AddressText(RefAddress(), r.refAddress);
    MemberText(InstructionKey(), OrNull(r.instruction));
    ghost var ms := RefMembers(r);
    ObjectStarts(ms);
    text := "{";
    Appended(text, ms, 0, NameText(FunctionKey(), func));
    text := text + NameText(FunctionKey(), func);
    text := text + ",";
    Appended(text, ms, 1, NameText(FunctionAddress(), "\"" + r.functionAddress + "\""));
    text := text + NameText(FunctionAddress(), "\"" + r.functionAddress + "\"");
    text := text + ",";
    Appended(text, ms, 2, NameText(RefAddress(), "\"" + r.refAddress + "\""));
    text := text + NameText(RefAddress(), "\"" + r.refAddress + "\"");
    text := text + ",";
    Appended(text, ms, 3, NameText(InstructionKey(), insn));
    text := text + NameText(InstructionKey(), insn);
    ObjectEnds(text, ms);
    text := text + "}";
  }

  method RefsToJson(refs: seq<RefEntry>) returns (text: string)
    requires forall i :: 0 <= i < |refs| ==> Raw(refs[i].functionAddress) && Raw(refs[i].refAddress)
    ensures text == PrintedItems(General, RefValues(refs))
  {
    hide Printed, PrintedItems, Raw;
    text := "";
    var j := 0;
    ghost var values := RefValues(refs);
    NoMembers(General);
    while j < |refs|
      invariant 0 <= j <= |refs| && text == PrintedItems(General, values[..j])
    {
      if j > 0 {
        text := text + ",";
      } else {
        assert text + "" == text;
      }
      var one := RefToJson(refs[j]);
      PutItem(General, values, j);
      text := text + one;
      j := j + 1;
    }
    assert values[..j] == values;
  }

  method EntryToJson(e: StringEntry) returns (text: string)
    requires RawAddresses(e)
    ensures text == Printed(General, Obj(EntryMembers(e)))
  {
    EntryNamesAreRaw();
    hide Raw, PrintedMember, Printed, Open, NameText, PrintedItems;
    hide StringValue, StringAddress, References;
    var value := JsonString(Some(e.text));
    var refs := RefsToJson(e.refs);
    ArrayText(RefValues(e.refs));
    MemberText(StringValue(), Str(e.text));
    AddressText(StringAddress(), e.address);
    MemberText(References(), Arr(RefValues(e.refs)));
    ghost var ms := EntryMembers(e);
    ObjectStarts(ms);
    text := "{";
    Appended(text, ms, 0, NameText(StringValue(), value));
    text := text + NameText(StringValue(), value);
    text := text + ",";
    Appended(text, ms, 1, NameText(StringAddress(), "\"" + e.address + "\""));
    text := text + NameText(StringAddress(), "\"" + e.address + "\"");
    text := text + ",";
    Appended(text, ms, 2, NameText(References(), "[" + (refs + "]")));
    text := text + NameText(References(), "[" + (refs + "]"));
    ObjectEnds(text, ms);
    text := text + "}";
  }

  method FindToJson(results: seq<StringEntry>) returns (text: string)
    requires forall i :: 0 <= i < |results| ==> RawAddresses(results[i])
    ensures text == Printed(General, Arr(EntryValues(results)))
  {
    hide PrintedItems, Printed, RawAddresses;
    var sb := "";
    var i := 0;
    ghost var values := EntryValues(results);
    NoMembers(General);
    while i < |results|
      invariant 0 <= i <= |results| && sb == PrintedItems(General, values[..i])
    {
      if i > 0 {
        sb := sb + ",";
      } else {
        assert sb + "" == sb;
      }
      var entry := EntryToJson(results[i]);
      PutItem(General, values, i);
      sb := sb + entry;
      i := i + 1;
    }
    assert values[..i] == values;
    ArrayText(values);
    return "[" + (sb + "]");
  }

  lemma ArrayText(items: seq<Value>)
    ensures Printed(General, Arr(items)) == "[" + (PrintedItems(General, items) + "]")
  {
    hide PrintedItems;
  }

  /** Whatever strings were found, the printed results are read back as they were. */
  lemma FindReadsBack(results: seq<StringEntry>)
    ensures Parse(Printed(General, Arr(EntryValues(results)))) == Some(Arr(EntryValues(results)))
  {
    hide Parse, Printed;
    EveryValueIsFine(General, Arr(EntryValues(results)));
    RoundTrip(General, Arr(EntryValues(results)));
  }
}
