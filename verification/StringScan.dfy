/**
 The scan of a program's data blocks for NUL-terminated printable strings, and the references kept for each of them.
 A byte that cannot be read is any value that is neither NUL nor printable: it stops the inner loop just the same.
 */
module StringScan {
  import opened Wrappers

  const MAX_RESULTS: nat := 500
  const MAX_REFS_PER_STRING: nat := 50
  const MAX_TOTAL_REFS: nat := 200
  const MIN_STRING_LENGTH: nat := 4
  const MAX_STRING_LENGTH: nat := 4096

  type Bytes = seq<int>

  predicate Printable(b: int) {
    b == 9 || b == 10 || b == 13 || 32 <= b <= 126
  }

  // ---------------------------------------------------------------- which strings there are

  /** Where the printable run that ends before p starts. */
  function RunStart(b: Bytes, p: nat): (s: nat)
    requires p <= |b|
    ensures s <= p && (forall k :: s <= k < p ==> Printable(b[k])) && (s > 0 ==> !Printable(b[s - 1]))
  {
    if p > 0 && Printable(b[p - 1]) then RunStart(b, p - 1) else p
  }

  function Max(a: int, b: int): int {
    if a > b then a else b
  }

  function Min(a: int, b: int): int {
    if a < b then a else b
  }

  /**
   A NUL at p ends a string if enough printable bytes precede it; of a long run only the last 4095 bytes are its text.
   */
  predicate EndsString(b: Bytes, p: nat)
    requires p < |b|
  {
    b[p] == 0 && p - RunStart(b, p) >= MIN_STRING_LENGTH
  }

  function StartOf(b: Bytes, p: nat): nat
    requires p < |b|
  {
    Max(RunStart(b, p), p - (MAX_STRING_LENGTH - 1))
  }

  /** Start and terminator of every string whose terminator is before k, in address order. */
  function Strings(b: Bytes, k: nat): seq<(nat, nat)>
    requires k <= |b|
  {
    if k == 0 then []
    else Strings(b, k - 1) + (if EndsString(b, k - 1) then [(StartOf(b, k - 1), k - 1)] else [])
  }

  /** Exactly one string for every terminator that ends one. */
  lemma {:induction false} StringsAreExact(b: Bytes, k: nat, s: nat, p: nat)
    requires k <= |b|
    ensures (s, p) in Strings(b, k) <==> p < k && EndsString(b, p) && s == StartOf(b, p)
  {
    hide StartOf, EndsString;
    if k > 0 {
      StringsAreExact(b, k - 1, s, p);
    }
  }

  ghost predicate Ordered(strings: seq<(nat, nat)>, k: nat) {
    && (forall i :: 0 <= i < |strings| ==> strings[i].0 + MIN_STRING_LENGTH <= strings[i].1 < k)
    && (forall i, j :: 0 <= i < j < |strings| ==> strings[i].1 < strings[j].0)
  }

  lemma NulIsOutside(b: Bytes, q: nat, p: nat)
    requires q < p < |b| && b[q] == 0
    ensures q < StartOf(b, p)
  {
    assert !Printable(b[q]);
  }

  /** The strings are in address order, each after the terminator of the one before. */
  lemma {:induction false} StringsAreOrdered(b: Bytes, k: nat)
    requires k <= |b|
    ensures Ordered(Strings(b, k), k)
  {
    if k > 0 {
      StringsAreOrdered(b, k - 1);
      var before := Strings(b, k - 1);
      if EndsString(b, k - 1) {
        forall i | 0 <= i < |before| ensures before[i].1 < StartOf(b, k - 1) {
          assert before[i] in before;
          StringsAreExact(b, k - 1, before[i].0, before[i].1);
          NulIsOutside(b, before[i].1, k - 1);
        }
      }
    }
  }

  // ---------------------------------------------------------------- the program under analysis

  /** A reference, and the function its source lies in, if any. */
  datatype Ref = Ref(from: int, function_: Option<string>, instruction: string)

  datatype Block = Block(start: int, bytes: Bytes, initialized: bool, executable: bool)

  /**
   `matching` are the texts the user's pattern finds; `refs` lists the references to an address in iteration order.
   */
  datatype Program = Program(blocks: seq<Block>, matching: set<Bytes>, refs: map<int, seq<Ref>>)

  datatype Found = Found(addr: int, text: Bytes)

  datatype Entry = Entry(addr: int, text: Bytes, refs: seq<Ref>)

  datatype State = State(results: seq<Entry>, seen: set<int>, totalRefs: nat)

  function InFunctions(refs: seq<Ref>): seq<Ref> {
    if refs == [] then []
    else InFunctions(refs[..|refs| - 1]) + (if refs[|refs| - 1].function_.Some? then [refs[|refs| - 1]] else [])
  }

  function First<T>(s: seq<T>, n: int): seq<T> {
    if n <= 0 then [] else if n < |s| then s[..n] else s
  }

  function RefsTo(prog: Program, addr: int): seq<Ref> {
    if addr in prog.refs then prog.refs[addr] else []
  }

  predicate Full(st: State) {
    |st.results| >= MAX_RESULTS || st.totalRefs >= MAX_TOTAL_REFS
  }

  /** One string found, unless the scan is already full. */
  function Took(prog: Program, st: State, f: Found): State {
    if Full(st) || f.text !in prog.matching || f.addr in st.seen then st
    else
      var kept := First(InFunctions(RefsTo(prog, f.addr)), Min(MAX_REFS_PER_STRING, MAX_TOTAL_REFS - st.totalRefs));
      State(if kept == [] then st.results else st.results + [Entry(f.addr, f.text, kept)],
            st.seen + {f.addr}, st.totalRefs + |kept|)
  }

  function TookAll(prog: Program, st: State, found: seq<Found>): State {
    if found == [] then st else Took(prog, TookAll(prog, st, found[..|found| - 1]), found[|found| - 1])
  }

  function FoundIn(block: Block, strings: seq<(nat, nat)>): seq<Found>
    requires forall i :: 0 <= i < |strings| ==> strings[i].0 <= strings[i].1 <= |block.bytes|
  {
    seq(|strings|, i requires 0 <= i < |strings| =>
      Found(block.start + strings[i].0, block.bytes[strings[i].0..strings[i].1]))
  }

  function BlockStrings(block: Block, k: nat): seq<Found>
    requires k <= |block.bytes|
  {
    StringsAreOrdered(block.bytes, k);
    FoundIn(block, Strings(block.bytes, k))
  }

  /** Every string of the initialized, non-executable blocks. */
  function AllStrings(blocks: seq<Block>): seq<Found> {
    if blocks == [] then []
    else
      var last := blocks[|blocks| - 1];
      AllStrings(blocks[..|blocks| - 1])
      + (if last.initialized && !last.executable then BlockStrings(last, |last.bytes|) else [])
  }

  // ---------------------------------------------------------------- the loops

  /** The inner loop: how many printable bytes start at the cursor, and whether a NUL ends them. */
  method ReadString(b: Bytes, cursor: nat) returns (length: nat, terminated: bool)
    requires cursor < |b|
    ensures cursor + length <= |b| && length <= MAX_STRING_LENGTH
    ensures forall k :: cursor <= k < cursor + length ==> Printable(b[k])
    ensures terminated ==> cursor + length < |b| && length < MAX_STRING_LENGTH && b[cursor + length] == 0
    ensures !terminated ==>
      length == MAX_STRING_LENGTH || cursor + length == |b| ||
        (b[cursor + length] != 0 && !Printable(b[cursor + length]))
  {
    length, terminated := 0, false;
    while cursor + length < |b| && length < MAX_STRING_LENGTH
      invariant cursor + length <= |b| && length <= MAX_STRING_LENGTH
      invariant forall k :: cursor <= k < cursor + length ==> Printable(b[k])
      decreases |b| - length
    {
      var c := b[cursor + length];
      if c == 0 {
        terminated := true;
        break;
      }
      if c == 0x09 || c == 0x0A || c == 0x0D || (c >= 0x20 && c <= 0x7E) {
        length := length + 1;
      } else {
        break;
      }
    }
  }

  /** The reference loop: the references from inside functions, up to both caps. */
  method CollectRefs(refs: seq<Ref>, totalRefs: nat) returns (kept: seq<Ref>)
    ensures kept == First(InFunctions(refs), Min(MAX_REFS_PER_STRING, MAX_TOTAL_REFS - totalRefs))
  {
    kept := [];
    var total := totalRefs;
    var i := 0;
    assert refs[..0] == [];
    while i < |refs|
      invariant 0 <= i <= |refs| && total == totalRefs + |kept|
      invariant kept == InFunctions(refs[..i]) &&
        (kept == [] || |kept| <= Min(MAX_REFS_PER_STRING, MAX_TOTAL_REFS - totalRefs))
    {
      if |kept| >= MAX_REFS_PER_STRING || total >= MAX_TOTAL_REFS {
        FirstStays(refs, i, Min(MAX_REFS_PER_STRING, MAX_TOTAL_REFS - totalRefs));
        return;
      }
      assert refs[..i + 1][..i] == refs[..i];
      var ref := refs[i];
      i := i + 1;
      if ref.function_.None? {
        continue;
      }
      kept := kept + [ref];
      total := total + 1;
    }
    assert refs[..i] == refs;
  }

  lemma {:induction false} FirstStays(refs: seq<Ref>, i: nat, cap: int)
    requires i <= |refs| && cap <= |InFunctions(refs[..i])|
    ensures First(InFunctions(refs), cap) == First(InFunctions(refs[..i]), cap)
  {
    if i == |refs| {
      assert refs[..i] == refs;
    } else {
      assert refs[..|refs| - 1][..i] == refs[..i];
      FirstStays(refs[..|refs| - 1], i, cap);
    }
  }

  /** The cursor has not entered a string that it has not reported. */
  ghost predicate NotInside(b: Bytes, cursor: nat) {
    forall p :: cursor <= p < |b| && EndsString(b, p) ==> cursor <= StartOf(b, p)
  }

  /** A string from the cursor ends where the printable bytes from the cursor end. */
  lemma StopIsUnique(b: Bytes, cursor: nat, stop: nat, p: nat)
    requires cursor <= p < |b| && EndsString(b, p) && StartOf(b, p) == cursor
    requires cursor <= stop <= |b| && forall k :: cursor <= k < stop ==> Printable(b[k])
    ensures stop <= p && p - cursor < MAX_STRING_LENGTH && (stop < |b| && !Printable(b[stop]) ==> p == stop)
    ensures p - cursor >= MIN_STRING_LENGTH
  {
  }

  lemma AdvanceOne(b: Bytes, cursor: nat, length: nat, terminated: bool)
    requires cursor < |b| && NotInside(b, cursor) && cursor + length <= |b|
    requires forall k :: cursor <= k < cursor + length ==> Printable(b[k])
    requires terminated ==> cursor + length < |b| && b[cursor + length] == 0
    requires !terminated ==>
      length == MAX_STRING_LENGTH || cursor + length == |b| ||
        (b[cursor + length] != 0 && !Printable(b[cursor + length]))
    requires !terminated || length < MIN_STRING_LENGTH
    ensures NotInside(b, cursor + 1) && Strings(b, cursor + 1) == Strings(b, cursor)
  {
    forall p | cursor <= p < |b| && EndsString(b, p) ensures cursor + 1 <= StartOf(b, p) {
      if StartOf(b, p) == cursor {
        StopIsUnique(b, cursor, cursor + length, p);
      }
    }
    assert EndsString(b, cursor) ==> StartOf(b, cursor) < cursor;
  }

  lemma {:induction false} NoneWithin(b: Bytes, cursor: nat, p: nat)
    requires cursor <= p <= |b| && forall k :: cursor <= k < p ==> Printable(b[k])
    ensures Strings(b, p) == Strings(b, cursor)
  {
    if p > cursor {
      NoneWithin(b, cursor, p - 1);
      assert Printable(b[p - 1]);
    }
  }

  lemma FoundString(b: Bytes, cursor: nat, length: nat)
    requires cursor < |b| && NotInside(b, cursor) && MIN_STRING_LENGTH <= length < MAX_STRING_LENGTH &&
      cursor + length < |b|
    requires forall k :: cursor <= k < cursor + length ==> Printable(b[k])
    requires b[cursor + length] == 0
    ensures Strings(b, cursor + length + 1) == Strings(b, cursor) + [(cursor, cursor + length)]
    ensures NotInside(b, cursor + length + 1)
  {
    var p := cursor + length;
    NoneWithin(b, cursor, p);
    RunStartBelow(b, cursor, p);
    assert EndsString(b, p) && StartOf(b, p) == cursor;
    forall q | p < q < |b| ensures p < StartOf(b, q) {
      NulIsOutside(b, p, q);
    }
  }

  lemma {:induction false} RunStartBelow(b: Bytes, s: nat, p: nat)
    requires s <= p <= |b| && forall k :: s <= k < p ==> Printable(b[k])
    ensures RunStart(b, p) <= s
  {
    if s < p {
      RunStartBelow(b, s, p - 1);
    }
  }

  ghost predicate Bounded(st: State) {
    |st.results| <= st.totalRefs <= MAX_TOTAL_REFS
  }

  lemma {:induction false} FullStays(prog: Program, st: State, found: seq<Found>)
    requires Full(st)
    ensures TookAll(prog, st, found) == st
  {
    if found != [] {
      FullStays(prog, st, found[..|found| - 1]);
    }
  }

  lemma {:induction false} TookAllSplits(prog: Program, st: State, a: seq<Found>, b: seq<Found>)
    ensures TookAll(prog, TookAll(prog, st, a), b) == TookAll(prog, st, a + b)
  {
    if b == [] {
      assert a + b == a;
    } else {
      var before := b[..|b| - 1];
      assert (a + b)[..|a + b| - 1] == a + before;
      TookAllSplits(prog, st, a, before);
    }
  }

  /** The body of the block loop for one string: filter, dedupe, references, entry. */
  method TakeString(prog: Program, st: State, f: Found) returns (after: State)
    requires !Full(st)
    ensures after == Took(prog, st, f)
  {
    if f.text !in prog.matching {
      return st;
    }
    if f.addr in st.seen {
      return st;
    }
    var refList := CollectRefs(RefsTo(prog, f.addr), st.totalRefs);
    after := st.(seen := st.seen + {f.addr}, totalRefs := st.totalRefs + |refList|);
    if refList != [] {
      after := after.(results := after.results + [Entry(f.addr, f.text, refList)]);
    }
  }

  lemma FoundInStep(block: Block, strings: seq<(nat, nat)>, more: (nat, nat))
    requires forall i :: 0 <= i < |strings| ==> strings[i].0 <= strings[i].1 <= |block.bytes|
    requires more.0 <= more.1 <= |block.bytes|
    ensures FoundIn(block, strings + [more])
         == FoundIn(block, strings) + [Found(block.start + more.0, block.bytes[more.0..more.1])]
  {
  }

  lemma BlockStringsStep(block: Block, cursor: nat, k: nat, more: (nat, nat))
    requires cursor <= k <= |block.bytes| && more.0 <= more.1 <= |block.bytes|
    requires Strings(block.bytes, k) == Strings(block.bytes, cursor) + [more]
    ensures BlockStrings(block, k)
         == BlockStrings(block, cursor) + [Found(block.start + more.0, block.bytes[more.0..more.1])]
  {
    StringsAreOrdered(block.bytes, cursor);
    StringsAreOrdered(block.bytes, k);
    hide Strings, FoundIn;
    FoundInStep(block, Strings(block.bytes, cursor), more);
  }

  lemma BlockStringsStay(block: Block, cursor: nat, k: nat)
    requires cursor <= k <= |block.bytes| && Strings(block.bytes, k) == Strings(block.bytes, cursor)
    ensures BlockStrings(block, k) == BlockStrings(block, cursor)
  {
  }

  /** The rest of a block changes nothing once the scan is full. */
  lemma {:induction false} BlockStringsGrow(block: Block, k: nat, m: nat)
    requires k <= m <= |block.bytes|
    ensures BlockStrings(block, k) <= BlockStrings(block, m)
  {
    if k < m {
      BlockStringsGrow(block, k, m - 1);
      StringsAreOrdered(block.bytes, m);
    }
  }

  method ScanBlock(prog: Program, block: Block, st: State) returns (after: State)
    ensures after == TookAll(prog, st, BlockStrings(block, |block.bytes|))
  {
    hide EndsString, StartOf, TookAll, Took, BlockStrings, Strings;
    var b := block.bytes;
    after := st;
    var cursor := 0;
    StartsEmpty(prog, block, st);
    while cursor < |b|
      invariant 0 <= cursor <= |b| && NotInside(b, cursor)
      invariant after == TookAll(prog, st, BlockStrings(block, cursor))
    {
      if |after.results| >= MAX_RESULTS || after.totalRefs >= MAX_TOTAL_REFS {
        RestIsNothing(prog, block, st, cursor);
        return;
      }
      var length, terminated := ReadString(b, cursor);
      if !terminated || length < MIN_STRING_LENGTH {
        AdvanceOne(b, cursor, length, terminated);
        BlockStringsStay(block, cursor, cursor + 1);
        cursor := cursor + 1;
        continue;
      }
      FoundString(b, cursor, length);
      BlockStringsStep(block, cursor, cursor + length + 1, (cursor, cursor + length));
      var f := Found(block.start + cursor, b[cursor..cursor + length]);
      TookOne(prog, st, BlockStrings(block, cursor), f);
      after := TakeString(prog, after, f);
      cursor := cursor + length + 1;
    }
  }

  lemma StartsEmpty(prog: Program, block: Block, st: State)
    ensures NotInside(block.bytes, 0) && st == TookAll(prog, st, BlockStrings(block, 0))
  {
  }

  lemma TookOne(prog: Program, st: State, found: seq<Found>, f: Found)
    ensures TookAll(prog, st, found + [f]) == Took(prog, TookAll(prog, st, found), f)
  {
    assert (found + [f])[..|found|] == found;
  }

  lemma RestIsNothing(prog: Program, block: Block, st: State, k: nat)
    requires k <= |block.bytes| && Full(TookAll(prog, st, BlockStrings(block, k)))
    ensures TookAll(prog, st, BlockStrings(block, k)) == TookAll(prog, st, BlockStrings(block, |block.bytes|))
  {
    hide BlockStrings, TookAll, Took, Full;
    var now, all := BlockStrings(block, k), BlockStrings(block, |block.bytes|);
    BlockStringsGrow(block, k, |block.bytes|);
    FullStays(prog, TookAll(prog, st, now), all[|now|..]);
    TookAllSplits(prog, st, now, all[|now|..]);
    assert now + all[|now|..] == all;
  }

  const START := State([], {}, 0)

  method Scan(prog: Program) returns (st: State)
    ensures st == TookAll(prog, START, AllStrings(prog.blocks))
  {
    hide TookAll, BlockStrings;
    st := START;
    var i := 0;
    assert st == TookAll(prog, START, AllStrings(prog.blocks[..0])) by { NoBlocks(prog); }
    while i < |prog.blocks|
      invariant 0 <= i <= |prog.blocks| && st == TookAll(prog, START, AllStrings(prog.blocks[..i]))
    {
      var block := prog.blocks[i];
      AllStringsStep(prog.blocks, i);
      TookAllSplits(prog, START, AllStrings(prog.blocks[..i]), BlockStrings(block, |block.bytes|));
      i := i + 1;
      if !block.initialized || block.executable {
        assert AllStrings(prog.blocks[..i - 1]) + [] == AllStrings(prog.blocks[..i - 1]);
        continue;
      }
      if |st.results| >= MAX_RESULTS || st.totalRefs >= MAX_TOTAL_REFS {
        FullAtBlock(prog, i - 1);
        return;
      }
      st := ScanBlock(prog, block, st);
    }
    assert prog.blocks[..i] == prog.blocks;
  }

  lemma NoBlocks(prog: Program)
    ensures TookAll(prog, START, AllStrings(prog.blocks[..0])) == START
  {
  }

  lemma AllStringsStep(blocks: seq<Block>, i: nat)
    requires i < |blocks|
    ensures AllStrings(blocks[..i + 1]) == AllStrings(blocks[..i])
      + (if blocks[i].initialized && !blocks[i].executable then BlockStrings(blocks[i], |blocks[i].bytes|) else [])
  {
    hide BlockStrings;
    assert blocks[..i + 1][..i] == blocks[..i];
  }

  lemma {:induction false} AllStringsGrow(blocks: seq<Block>, i: nat)
    requires i <= |blocks|
    ensures AllStrings(blocks[..i]) <= AllStrings(blocks)
    decreases |blocks| - i
  {
    hide BlockStrings;
    if i == |blocks| {
      assert blocks[..i] == blocks;
    } else {
      AllStringsStep(blocks, i);
      AllStringsGrow(blocks, i + 1);
    }
  }

  lemma FullAtBlock(prog: Program, i: nat)
    requires i <= |prog.blocks| && Full(TookAll(prog, START, AllStrings(prog.blocks[..i])))
    ensures TookAll(prog, START, AllStrings(prog.blocks)) == TookAll(prog, START, AllStrings(prog.blocks[..i]))
  {
    hide TookAll, AllStrings, Full;
    var now, all := AllStrings(prog.blocks[..i]), AllStrings(prog.blocks);
    AllStringsGrow(prog.blocks, i);
    FullStays(prog, TookAll(prog, START, now), all[|now|..]);
    TookAllSplits(prog, START, now, all[|now|..]);
    assert now + all[|now|..] == all;
  }

  // ---------------------------------------------------------------- what the caps leave

  /** The addresses of the matching strings. */
  function Addresses(prog: Program, found: seq<Found>): set<int> {
    if found == [] then {}
    else
      var last := found[|found| - 1];
      Addresses(prog, found[..|found| - 1]) + (if last.text in prog.matching then {last.addr} else {})
  }

  /**
   The entries with no cap but the one per string: matching strings, each address once, with at least one reference.
   */
  function Entries(prog: Program, found: seq<Found>): seq<Entry> {
    if found == [] then []
    else
      var init, last := found[..|found| - 1], found[|found| - 1];
      var kept := First(InFunctions(RefsTo(prog, last.addr)), MAX_REFS_PER_STRING);
      Entries(prog, init)
      + (if last.text in prog.matching && last.addr !in Addresses(prog, init) && kept != []
         then [Entry(last.addr, last.text, kept)] else [])
  }

  /** All references of some entries, in order. */
  function Pairs(entries: seq<Entry>): seq<(int, Ref)> {
    if entries == [] then []
    else Pairs(entries[..|entries| - 1]) + Tagged(entries[|entries| - 1].addr, entries[|entries| - 1].refs)
  }

  function Tagged(addr: int, refs: seq<Ref>): seq<(int, Ref)> {
    seq(|refs|, i requires 0 <= i < |refs| => (addr, refs[i]))
  }

  /** The names of some entries: address and text. */
  function Names(entries: seq<Entry>): seq<Found> {
    seq(|entries|, i requires 0 <= i < |entries| => Found(entries[i].addr, entries[i].text))
  }

  /** The scan so far against the uncapped entries so far. */
  ghost predicate Agrees(prog: Program, found: seq<Found>, st: State) {
    var all := Entries(prog, found);
    && st.totalRefs == |Pairs(st.results)| && Bounded(st)
    && Pairs(st.results) == First(Pairs(all), MAX_TOTAL_REFS)
    && Names(st.results) <= Names(all)
    && (st.totalRefs < MAX_TOTAL_REFS ==> st.results == all && st.seen == Addresses(prog, found))
  }

  lemma PairsStep(entries: seq<Entry>, e: Entry)
    ensures Pairs(entries + [e]) == Pairs(entries) + Tagged(e.addr, e.refs)
    ensures Names(entries + [e]) == Names(entries) + [Found(e.addr, e.text)]
  {
    assert (entries + [e])[..|entries|] == entries;
  }

  lemma EntriesStep(prog: Program, found: seq<Found>, f: Found)
    ensures Addresses(prog, found + [f]) == Addresses(prog, found) + (if f.text in prog.matching then {f.addr} else {})
    ensures Entries(prog, found + [f]) == Entries(prog, found)
      + (if f.text in prog.matching && f.addr !in Addresses(prog, found) &&
        First(InFunctions(RefsTo(prog, f.addr)), MAX_REFS_PER_STRING) != []
         then [Entry(f.addr, f.text, First(InFunctions(RefsTo(prog, f.addr)), MAX_REFS_PER_STRING))] else [])
  {
    assert (found + [f])[..|found|] == found;
  }

  lemma FullAgrees(prog: Program, found: seq<Found>, st: State, f: Found)
    requires Agrees(prog, found, st) && st.totalRefs == MAX_TOTAL_REFS
    ensures Agrees(prog, found + [f], st)
  {
    EntriesStep(prog, found, f);
    var all := Entries(prog, found);
    var kept := First(InFunctions(RefsTo(prog, f.addr)), MAX_REFS_PER_STRING);
    hide Entries, Addresses, InFunctions, RefsTo, Pairs;
    PairsStep(all, Entry(f.addr, f.text, kept));
    var more := Entries(prog, found + [f]);
    FirstOfLonger(Pairs(all), Tagged(f.addr, kept), MAX_TOTAL_REFS);
    assert more == all || more == all + [Entry(f.addr, f.text, kept)] by { assert all + [] == all; }
  }

  lemma FirstOfLonger<T>(a: seq<T>, b: seq<T>, n: int)
    ensures n <= |a| ==> First(a + b, n) == First(a, n)
    ensures |a| <= n ==> First(a + b, n) == a + First(b, n - |a|)
  {
  }

  lemma FirstTagged(addr: int, refs: seq<Ref>, n: int)
    ensures First(Tagged(addr, refs), n) == Tagged(addr, First(refs, n))
  {
  }

  lemma FirstTwice<T>(s: seq<T>, a: int, b: int)
    ensures First(First(s, a), b) == First(s, Min(a, b))
  {
  }

  lemma EntryAgrees(prog: Program, found: seq<Found>, st: State, f: Found)
    requires Agrees(prog, found, st) && st.totalRefs < MAX_TOTAL_REFS
    requires f.text in prog.matching && f.addr !in st.seen
    ensures Agrees(prog, found + [f], Took(prog, st, f))
  {
    var refs := InFunctions(RefsTo(prog, f.addr));
    var kept := First(refs, MAX_REFS_PER_STRING);
    var cut := First(refs, Min(MAX_REFS_PER_STRING, MAX_TOTAL_REFS - st.totalRefs));
    var all := Entries(prog, found);
    EntriesStep(prog, found, f);
    hide Entries, Addresses, InFunctions, RefsTo, Pairs, Tagged;
    FirstTwice(refs, MAX_REFS_PER_STRING, MAX_TOTAL_REFS - st.totalRefs);
    FirstTagged(f.addr, kept, MAX_TOTAL_REFS - st.totalRefs);
    TaggedLength(f.addr, cut);
    TaggedLength(f.addr, kept);
    PairsStep(all, Entry(f.addr, f.text, kept));
    PairsStep(all, Entry(f.addr, f.text, cut));
    FirstOfLonger(Pairs(all), Tagged(f.addr, kept), MAX_TOTAL_REFS);
    assert First(Pairs(all), MAX_TOTAL_REFS) == Pairs(all);
    assert all + [] == all;
    if kept != [] {
      assert cut != [];
    }
  }

  lemma TaggedLength(addr: int, refs: seq<Ref>)
    ensures |Tagged(addr, refs)| == |refs|
  {
  }

  lemma {:induction false} TookAllAgrees(prog: Program, found: seq<Found>)
    ensures Agrees(prog, found, TookAll(prog, START, found))
  {
    if found != [] {
      var init, f := found[..|found| - 1], found[|found| - 1];
      var st := TookAll(prog, START, init);
      TookAllAgrees(prog, init);
      assert init + [f] == found;
      if st.totalRefs == MAX_TOTAL_REFS {
        FullAgrees(prog, init, st, f);
      } else if f.text in prog.matching && f.addr !in st.seen {
        hide Entries, Addresses, Pairs, Names;
        EntryAgrees(prog, init, st, f);
      } else {
        EntriesStep(prog, init, f);
        hide Pairs, Names;
        assert Entries(prog, init) + [] == Entries(prog, init);
      }
    }
  }

  /**
   The scan of a whole program. Its references are the first 200 of the uncapped ones; the strings they belong to are
   the first of the uncapped ones; with fewer than 200 references nothing is cut; and the cap of 500 results never
   binds.
   */
  lemma ScanIsCapped(prog: Program)
    ensures var found := AllStrings(prog.blocks); var st := TookAll(prog, START, found);
      var all := Entries(prog, found);
      && Pairs(st.results) == First(Pairs(all), MAX_TOTAL_REFS) && Names(st.results) <= Names(all)
      && st.totalRefs == |Pairs(st.results)| && |st.results| <= st.totalRefs <= MAX_TOTAL_REFS < MAX_RESULTS
      && (st.totalRefs < MAX_TOTAL_REFS ==> st.results == all)
  {
    TookAllAgrees(prog, AllStrings(prog.blocks));
  }

  // ---------------------------------------------------------------- what is in the result

  ghost predicate Increasing(at: seq<int>) {
    forall i, j :: 0 <= i < j < |at| ==> at[i] < at[j]
  }

  /** `kept` are the references at the positions `at`: those from inside functions, all of them, in their order. */
  ghost predicate Selects(at: seq<int>, refs: seq<Ref>, kept: seq<Ref>) {
    && Increasing(at)
    && (forall p :: p in at <==> 0 <= p < |refs| && refs[p].function_.Some?)
    && |kept| == |at| && forall i :: 0 <= i < |at| ==> 0 <= at[i] < |refs| && kept[i] == refs[at[i]]
  }

  lemma SelectsMore(at: seq<int>, refs: seq<Ref>, kept: seq<Ref>, more: Ref)
    requires Selects(at, refs, kept)
    ensures more.function_.Some? ==> Selects(at + [|refs|], refs + [more], kept + [more])
    ensures more.function_.None? ==> Selects(at, refs + [more], kept)
  {
    assert forall i :: 0 <= i < |at| ==> at[i] in at;
    assert forall p :: p in at + [|refs|] <==> p in at || p == |refs|;
  }

  lemma {:induction false} FunctionRefsAre(refs: seq<Ref>) returns (at: seq<int>)
    ensures Selects(at, refs, InFunctions(refs))
  {
    if refs == [] {
      at := [];
    } else {
      var n := |refs| - 1;
      at := FunctionRefsAre(refs[..n]);
      hide Selects;
      SelectsMore(at, refs[..n], InFunctions(refs[..n]), refs[n]);
      assert refs[..n] + [refs[n]] == refs && InFunctions(refs[..n]) + [] == InFunctions(refs[..n]);
      at := if refs[n].function_.Some? then at + [n] else at;
    }
  }

  /**
   `f` is the string from `from` to the NUL at `p`: printable throughout, at least 4 and at most 4095 bytes, and as long
   as it can be.
   */
  ghost predicate StringAt(block: Block, from: int, p: int, f: Found) {
    var b := block.bytes;
    && block.initialized && !block.executable
    && 0 <= from && from + 4 <= p <= from + 4095 && p < |b| && b[p] == 0
    && (forall k :: from <= k < p ==> Printable(b[k]))
    && (from == 0 || p == from + 4095 || !Printable(b[from - 1]))
    && f == Found(block.start + from, b[from..p])
  }

  /** `f` is what the scan makes of the NUL at `p`. */
  ghost predicate EndsAt(block: Block, p: int, f: Found) {
    var b := block.bytes;
    0 <= p < |b| && EndsString(b, p) && f == Found(block.start + StartOf(b, p), b[StartOf(b, p)..p])
  }

  lemma EndsAtMeans(block: Block, p: int, f: Found)
    requires block.initialized && !block.executable
    ensures EndsAt(block, p, f) <==> exists from :: StringAt(block, from, p, f)
  {
    var b := block.bytes;
    if EndsAt(block, p, f) {
      assert StringAt(block, StartOf(b, p), p, f);
    }
    if from :| StringAt(block, from, p, f) {
      RunStartBelow(b, from, p);
      assert StartOf(b, p) == from;
    }
  }

  lemma InBlockStrings(block: Block, f: Found)
    ensures f in BlockStrings(block, |block.bytes|) <==> exists p :: EndsAt(block, p, f)
  {
    var b, strings := block.bytes, Strings(block.bytes, |block.bytes|);
    StringsAreOrdered(b, |b|);
    hide EndsString, StartOf, Strings;
    if f in BlockStrings(block, |b|) {
      var i :| 0 <= i < |strings| && f == BlockStrings(block, |b|)[i];
      assert strings[i] in strings;
      StringsAreExact(b, |b|, strings[i].0, strings[i].1);
      assert EndsAt(block, strings[i].1, f);
    }
    if p :| EndsAt(block, p, f) {
      StringsAreExact(b, |b|, StartOf(b, p), p);
      var i :| 0 <= i < |strings| && strings[i] == (StartOf(b, p), p);
      assert BlockStrings(block, |b|)[i] == f;
    }
  }

  ghost predicate IsStringOf(block: Block, f: Found) {
    exists from, p :: StringAt(block, from, p, f)
  }

  /** The strings are exactly those of the initialized blocks that hold no code. */
  lemma {:induction false} AllStringsAre(blocks: seq<Block>, f: Found)
    ensures f in AllStrings(blocks) <==> exists block :: block in blocks && IsStringOf(block, f)
  {
    if blocks != [] {
      var n := |blocks| - 1;
      AllStringsAre(blocks[..n], f);
      OfLastBlock(blocks[n], f);
      AllStringsStep(blocks, n);
      hide *;
      assert blocks[..n + 1] == blocks;
      assert forall block :: block in blocks <==> block in blocks[..n] || block == blocks[n];
    }
  }

  lemma OfLastBlock(block: Block, f: Found)
    ensures (block.initialized && !block.executable && f in BlockStrings(block, |block.bytes|))
       <==> IsStringOf(block, f)
  {
    InBlockStrings(block, f);
    hide BlockStrings, EndsAt;
    if block.initialized && !block.executable && f in BlockStrings(block, |block.bytes|) {
      var p :| EndsAt(block, p, f);
      EndsAtMeans(block, p, f);
      var from :| StringAt(block, from, p, f);
    }
    if from, p :| StringAt(block, from, p, f) {
      EndsAtMeans(block, p, f);
    }
  }

  /** Strings of earlier blocks come first. */
  lemma {:induction false} BlocksInOrder(blocks: seq<Block>, i: nat)
    requires i <= |blocks|
    ensures AllStrings(blocks) == AllStrings(blocks[..i]) + AllStrings(blocks[i..])
    decreases |blocks|
  {
    hide BlockStrings;
    if i == |blocks| {
      assert blocks[..i] == blocks && AllStrings(blocks) + [] == AllStrings(blocks);
    } else {
      var n := |blocks| - 1;
      BlocksInOrder(blocks[..n], i);
      assert blocks[..n][..i] == blocks[..i] && blocks[..n][i..] == blocks[i..][..n - i];
      assert blocks[i..][n - i] == blocks[n] && |blocks[i..]| == n - i + 1;
    }
  }

  /** Within a block they come by address. */
  lemma BlockInOrder(block: Block, j: nat, k: nat)
    requires j < k < |AllStrings([block])|
    ensures AllStrings([block])[j].addr + |AllStrings([block])[j].text| < AllStrings([block])[k].addr
  {
    OneBlock(block);
    hide AllStrings, BlockStrings;
    StringsApart(block, j, k);
  }

  lemma OneBlock(block: Block)
    ensures AllStrings([block])
         == if block.initialized && !block.executable then BlockStrings(block, |block.bytes|) else []
  {
    hide BlockStrings;
    assert [block][..0] == [] && AllStrings([]) == [];
  }

  lemma StringsApart(block: Block, j: nat, k: nat)
    requires j < k < |BlockStrings(block, |block.bytes|)|
    ensures var all := BlockStrings(block, |block.bytes|); all[j].addr + |all[j].text| < all[k].addr
  {
    var strings := Strings(block.bytes, |block.bytes|);
    StringsAreOrdered(block.bytes, |block.bytes|);
    hide Strings;
    assert strings[j].1 < strings[k].0 && strings[j].0 <= strings[j].1 <= |block.bytes|;
  }

  /** An entry is a matching string with at least one reference, and all of them come from inside functions. */
  ghost predicate Fits(prog: Program, found: seq<Found>, e: Entry) {
    && Found(e.addr, e.text) in found && e.text in prog.matching && e.refs != []
    && forall r :: r in e.refs ==> e.addr in prog.refs && r in prog.refs[e.addr] && r.function_.Some?
  }

  ghost predicate AllFit(prog: Program, found: seq<Found>, st: State) {
    && (forall e :: e in st.results ==> Fits(prog, found, e) && e.addr in st.seen)
    && forall i, j :: 0 <= i < j < |st.results| ==> st.results[i].addr != st.results[j].addr
  }

  lemma KeptFit(prog: Program, addr: int, n: int)
    ensures forall r :: r in First(InFunctions(RefsTo(prog, addr)), n) ==>
              addr in prog.refs && r in prog.refs[addr] && r.function_.Some?
  {
    var refs := RefsTo(prog, addr);
    var at := FunctionRefsAre(refs);
    hide InFunctions;
  }

  lemma TookFits(prog: Program, found: seq<Found>, st: State, f: Found)
    requires AllFit(prog, found, st)
    ensures AllFit(prog, found + [f], Took(prog, st, f))
  {
    KeptFit(prog, f.addr, Min(MAX_REFS_PER_STRING, MAX_TOTAL_REFS - st.totalRefs));
    hide InFunctions, First, Full;
    forall e | e in st.results ensures Fits(prog, found + [f], e) {
      assert Fits(prog, found, e);
    }
    assert f in found + [f];
    assert forall i :: 0 <= i < |st.results| ==> st.results[i] in st.results;
  }

  lemma {:induction false} TookAllFits(prog: Program, found: seq<Found>)
    ensures AllFit(prog, found, TookAll(prog, START, found))
  {
    if found != [] {
      var init, f := found[..|found| - 1], found[|found| - 1];
      TookAllFits(prog, init);
      hide AllFit, Took;
      TookFits(prog, init, TookAll(prog, START, init), f);
      assert init + [f] == found;
    }
  }

  lemma FunctionRefKept(prog: Program, addr: int, r: Ref)
    requires addr in prog.refs && r in prog.refs[addr] && r.function_.Some?
    ensures First(InFunctions(RefsTo(prog, addr)), MAX_REFS_PER_STRING) != []
  {
    var refs := prog.refs[addr];
    var at := FunctionRefsAre(refs);
    var p :| 0 <= p < |refs| && refs[p] == r;
    assert p in at;
  }

  lemma {:induction false} AddressesAre(prog: Program, found: seq<Found>, addr: int)
    requires addr in Addresses(prog, found)
    ensures exists g :: g in found && g.addr == addr && g.text in prog.matching
  {
    var init, last := found[..|found| - 1], found[|found| - 1];
    if addr in Addresses(prog, init) {
      AddressesAre(prog, init, addr);
      var g :| g in init && g.addr == addr && g.text in prog.matching;
      assert g in found;
    }
  }

  /** With no cap reached, no matching string that some function refers to is missing. */
  lemma {:induction false} NoneIsMissing(prog: Program, found: seq<Found>, f: Found, r: Ref)
    requires f in found && f.text in prog.matching
    requires f.addr in prog.refs && r in prog.refs[f.addr] && r.function_.Some?
    ensures exists e :: e in Entries(prog, found) && e.addr == f.addr
  {
    var init, last := found[..|found| - 1], found[|found| - 1];
    FunctionRefKept(prog, f.addr, r);
    hide First, InFunctions, RefsTo;
    if f in init {
      NoneIsMissing(prog, init, f, r);
      var e :| e in Entries(prog, init) && e.addr == f.addr;
      assert e in Entries(prog, found);
    } else if last.addr in Addresses(prog, init) {
      AddressesAre(prog, init, last.addr);
      var g :| g in init && g.addr == last.addr && g.text in prog.matching;
      NoneIsMissing(prog, init, g, r);
      var e :| e in Entries(prog, init) && e.addr == g.addr;
      assert e in Entries(prog, found);
    } else {
      var kept := First(InFunctions(RefsTo(prog, f.addr)), MAX_REFS_PER_STRING);
      assert Entry(f.addr, f.text, kept) in Entries(prog, found);
    }
  }

  /**
   The whole result in terms of the program: every entry is a string of a data block that the pattern finds, under its
   own address and with references from inside functions; and below 200 references none that has such a reference is
   missing.
   */
  lemma ResultsAreExact(prog: Program, st: State)
    requires st == TookAll(prog, START, AllStrings(prog.blocks))
    ensures AllFit(prog, AllStrings(prog.blocks), st)
    ensures st.totalRefs < 200 ==> forall f, r ::
              f in AllStrings(prog.blocks) && f.text in prog.matching
              && f.addr in prog.refs && r in prog.refs[f.addr] && r.function_.Some?
              ==> exists e :: e in st.results && e.addr == f.addr
  {
    var found := AllStrings(prog.blocks);
    TookAllFits(prog, found);
    ScanIsCapped(prog);
    hide TookAll, AllStrings, AllFit, Pairs;
    if st.totalRefs < 200 {
      forall f, r | f in found && f.text in prog.matching
          && f.addr in prog.refs && r in prog.refs[f.addr] && r.function_.Some?
        ensures exists e :: e in st.results && e.addr == f.addr
      {
        NoneIsMissing(prog, found, f, r);
      }
    }
  }
}
