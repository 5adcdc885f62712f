/** The fake flash: C strings in buffers, backing files, and the map from partition names to their last write. */
module FlashStub {
  import opened Octets

  type Bytes = seq<Byte>

  const NAME_LIMIT: nat := 64
  const PATH_BOUND: nat := 83

  // ---------------------------------------------------------------- C strings

  ghost predicate Terminated(a: seq<Byte>, at: nat) {
    exists k :: at <= k < |a| && a[k] == 0
  }

  /** The text from an offset up to the first NUL. */
  function Text(a: seq<Byte>, at: nat): (t: Bytes)
    requires at <= |a|
    ensures 0 !in t && at + |t| <= |a|
    ensures forall k {:trigger a[k]} :: at <= k < at + |t| ==> a[k] != 0 && a[k] == t[k - at]
    decreases |a| - at
  {
    if at < |a| && a[at] != 0 then [a[at]] + Text(a, at + 1) else []
  }

  lemma {:induction false} TextEnds(a: seq<Byte>, at: nat)
    requires at <= |a| && Terminated(a, at)
    ensures at + |Text(a, at)| < |a| && a[at + |Text(a, at)|] == 0
    decreases |a| - at
  {
    if a[at] != 0 {
      TextEnds(a, at + 1);
    }
  }

  lemma {:induction false} TextIs(a: seq<Byte>, at: nat, t: Bytes)
    requires 0 !in t && at + |t| < |a| && a[at..at + |t|] == t && a[at + |t|] == 0
    ensures Text(a, at) == t
    decreases |t|
  {
    if t != [] {
      assert a[at] == a[at..at + |t|][0];
      assert a[at + 1..at + 1 + |t[1..]|] == t[1..];
      TextIs(a, at + 1, t[1..]);
    }
  }

  method StrLen(s: Bytes) returns (n: nat)
    requires Terminated(s, 0)
    ensures n == |Text(s, 0)|
  {
    TextEnds(s, 0);
    ghost var t := Text(s, 0);
    n := 0;
    while s[n] != 0
      invariant n <= |t|
      decreases |t| - n
    {
      n := n + 1;
    }
  }

  method StrCopy(dst: array<Byte>, at: nat, src: Bytes)
    requires Terminated(src, 0) && at + |Text(src, 0)| < dst.Length
    modifies dst
    ensures var t := Text(src, 0);
      forall k :: 0 <= k < dst.Length ==>
        dst[k] == if at <= k < at + |t| then t[k - at] else if k == at + |t| then 0 else old(dst[k])
  {
    TextEnds(src, 0);
    ghost var t := Text(src, 0);
    var i := 0;
    while src[i] != 0
      invariant i <= |t|
      invariant forall k :: 0 <= k < dst.Length ==> dst[k] == if at <= k < at + i then t[k - at] else old(dst[k])
      decreases |t| - i
    {
      dst[at + i] := src[i];
      i := i + 1;
    }
    dst[at + i] := 0;
  }

  method MemFill(dst: array<Byte>, at: nat, val: Byte, n: nat)
    requires at + n <= dst.Length
    modifies dst
    ensures forall k :: 0 <= k < dst.Length ==> dst[k] == if at <= k < at + n then val else old(dst[k])
  {
    var i := 0;
    while i < n
      invariant 0 <= i <= n
      invariant forall k :: 0 <= k < dst.Length ==> dst[k] == if at <= k < at + i then val else old(dst[k])
    {
      dst[at + i] := val;
      i := i + 1;
    }
  }

  function Filled(val: Byte, n: nat): Bytes {
    seq(n, i => val)
  }

  // ---------------------------------------------------------------- backing paths

  /** "/tmp/fake_mtd_" */
  function Prefix(): (p: Bytes)
    ensures |p| == 14 && 0 !in p
  {
    [47, 116, 109, 112, 47, 102, 97, 107, 101, 95, 109, 116, 100, 95]
  }

  /** ".bin" */
  function Suffix(): (p: Bytes)
    ensures |p| == 4 && 0 !in p && 47 !in p
  {
    [46, 98, 105, 110]
  }

  /** What of a partition name counts. */
  function Key(name: Bytes): (k: Bytes)
    ensures |k| <= NAME_LIMIT && k <= name
  {
    if |name| <= NAME_LIMIT then name else name[..NAME_LIMIT]
  }

  function PathOf(key: Bytes): Bytes {
    Prefix() + key + Suffix()
  }

  /** Different keys have different paths. */
  lemma PathsDiffer(a: Bytes, b: Bytes)
    ensures PathOf(a) == PathOf(b) <==> a == b
  {
    var n := |Prefix()|;
    assert PathOf(a)[n..n + |a|] == a && PathOf(b)[n..n + |b|] == b;
    assert |PathOf(a)| == n + |a| + |Suffix()| && |PathOf(b)| == n + |b| + |Suffix()|;
  }

  /**
   Names share a backing file exactly if their first 64 characters agree; up to that length, exactly if they are equal.
   */
  lemma NamesShareByKey(a: Bytes, b: Bytes)
    ensures PathOf(Key(a)) == PathOf(Key(b)) <==> Key(a) == Key(b)
    ensures |a| <= 64 && |b| <= 64 ==> (PathOf(Key(a)) == PathOf(Key(b)) <==> a == b)
    ensures |a| >= 64 && |b| >= 64 ==> (PathOf(Key(a)) == PathOf(Key(b)) <==> a[..64] == b[..64])
    ensures |a| < 64 <= |b| ==> PathOf(Key(a)) != PathOf(Key(b))
  {
    PathsDiffer(Key(a), Key(b));
  }

  lemma LiteralsTerminate()
    ensures Terminated(Prefix() + [0], 0) && Text(Prefix() + [0], 0) == Prefix()
    ensures Terminated(Suffix() + [0], 0) && Text(Suffix() + [0], 0) == Suffix()
  {
    assert (Prefix() + [0])[|Prefix()|] == 0 && (Suffix() + [0])[|Suffix()|] == 0;
    assert (Prefix() + [0])[0..0 + |Prefix()|] == Prefix() && (Suffix() + [0])[0..0 + |Suffix()|] == Suffix();
    TextIs(Prefix() + [0], 0, Prefix());
    TextIs(Suffix() + [0], 0, Suffix());
  }

  /** The name up to its NUL. */
  ghost function NameOf(name: array<Byte>): Bytes
    reads name
  {
    Text(name[..], 0)
  }

  /**
   The path builder writes exactly prefix, truncated name, suffix and NUL, at most 83 bytes, and touches nothing after.
   */
  method BuildBackingPath(name: array<Byte>, path: array<Byte>)
    requires Terminated(name[..], 0) && path.Length >= PATH_BOUND && name != path
    modifies path
    ensures var text := PathOf(Key(NameOf(name)));
      && |text| + 1 <= PATH_BOUND
      && forall k :: 0 <= k < path.Length ==>
           path[k] == if k < |text| then text[k] else if k == |text| then 0 else old(path[k])
  {
    LiteralsTerminate();
    ghost var key := Key(NameOf(name));
    hide Text, Terminated, Prefix, Suffix, Key;
    StrCopy(path, 0, Prefix() + [0]);
    var p := StrLen(Prefix() + [0]);
    p := CopyName(name, path, p);
    path[p] := 0;
    StrCopy(path, p, Suffix() + [0]);
    forall k | 0 <= k < |PathOf(key)| ensures path[k] == PathOf(key)[k] {
      PathAt(key, k);
    }
  }

  lemma PathAt(key: Bytes, k: nat)
    requires k < |PathOf(key)|
    ensures |PathOf(key)| == 18 + |key|
    ensures PathOf(key)[k] == if k < 14 then Prefix()[k] else if k < 14 + |key| then key[k - 14]
      else Suffix()[k - 14 - |key|]
  {
    hide Prefix, Suffix;
  }

  /** The bounded copy of the name. */
  method CopyName(name: array<Byte>, path: array<Byte>, at: nat) returns (p: nat)
    requires Terminated(name[..], 0) && at + NAME_LIMIT <= path.Length && name != path
    modifies path
    ensures p == at + |Key(NameOf(name))|
    ensures forall k :: 0 <= k < path.Length ==>
      path[k] == if at <= k < p then Key(NameOf(name))[k - at] else old(path[k])
  {
    TextEnds(name[..], 0);
    ghost var t := NameOf(name);
    p := at;
    var i := 0;
    while name[i] != 0 && i < 64
      invariant 0 <= i <= |t| && i <= 64 && p == at + i
      invariant forall k :: 0 <= k < path.Length ==> path[k] == if at <= k < p then t[k - at] else old(path[k])
      decreases 64 - i
    {
      path[p] := name[i];
      p := p + 1;
      i := i + 1;
    }
  }

  // ---------------------------------------------------------------- the flash

  /** The last write to a partition. */
  datatype Write = Write(offset: nat, data: Bytes)

  type Flash = map<Bytes, Write>

  /** The byte at a position: zero below the write, its data, erased flash above it and in partitions never written. */
  function ByteAt(f: Flash, key: Bytes, pos: nat): Byte {
    if key !in f then 0xFF
    else if pos < f[key].offset then 0
    else if pos < f[key].offset + |f[key].data| then f[key].data[pos - f[key].offset]
    else 0xFF
  }

  function FileOf(w: Write): Bytes {
    Filled(0, w.offset) + w.data
  }

  function Position(offset: int): nat {
    if offset > 0 then offset else 0
  }

  /** Names with a slash lie in a directory that is not there: their files cannot be opened. */
  predicate Openable(key: Bytes) {
    47 !in key
  }

  /** One call of flash_write: the name up to its NUL, the offset, and the bytes. */
  datatype Call = Call(name: Bytes, offset: int, data: Bytes)

  predicate TakesEffect(c: Call) {
    c.data != [] && Openable(Key(c.name))
  }

  function Written(f: Flash, c: Call): Flash {
    if TakesEffect(c) then f[Key(c.name) := Write(Position(c.offset), c.data)] else f
  }

  function AllWritten(calls: seq<Call>): Flash {
    if calls == [] then map[] else Written(AllWritten(calls[..|calls| - 1]), calls[|calls| - 1])
  }

  /** The last call that took effect on a partition, counted by its first 64 characters. */
  ghost predicate IsLast(calls: seq<Call>, key: Bytes, i: nat) {
    && i < |calls| && TakesEffect(calls[i]) && Key(calls[i].name) == key
    && forall j :: i < j < |calls| && TakesEffect(calls[j]) ==> Key(calls[j].name) != key
  }

  /** The flash is each partition's last write: no other partition's writes and no earlier ones show. */
  lemma {:induction false} FlashIsLastWrites(calls: seq<Call>, key: Bytes)
    ensures key in AllWritten(calls) <==> exists i :: 0 <= i < |calls| && IsLast(calls, key, i)
    ensures forall i :: 0 <= i < |calls| && IsLast(calls, key, i) ==>
      key in AllWritten(calls) && AllWritten(calls)[key] == Write(Position(calls[i].offset), calls[i].data)
  {
    if calls != [] {
      var n := |calls| - 1;
      var before := calls[..n];
      FlashIsLastWrites(before, key);
      hide TakesEffect;
      if TakesEffect(calls[n]) && Key(calls[n].name) == key {
        assert IsLast(calls, key, n);
      } else {
        forall i | 0 <= i < n ensures IsLast(before, key, i) <==> IsLast(calls, key, i) {
          LastStays(calls, key, i);
        }
      }
    }
  }

  lemma LastStays(calls: seq<Call>, key: Bytes, i: nat)
    requires i < |calls| - 1 && !(TakesEffect(calls[|calls| - 1]) && Key(calls[|calls| - 1].name) == key)
    ensures IsLast(calls[..|calls| - 1], key, i) <==> IsLast(calls, key, i)
  {
    hide TakesEffect;
    var before := calls[..|calls| - 1];
    assert forall j :: 0 <= j < |before| ==> before[j] == calls[j];
  }

  /**
   A write that is not refused reads back from every name that shares its file: zeros below the offset (a negative one
   counts as 0), the bytes, and erased flash above; every other partition reads as before, and a partition never written
   as erased.
   */
  lemma WrittenReadsBack(f: Flash, c: Call, name: Bytes, pos: nat)
    requires c.data != [] && forall k :: 0 <= k < |c.name| && k < 64 ==> c.name[k] != 47
    ensures PathOf(Key(name)) == PathOf(Key(c.name)) ==>
              ByteAt(Written(f, c), Key(name), pos)
              == if pos < c.offset then 0
                 else if 0 <= c.offset && pos < c.offset + |c.data| then c.data[pos - c.offset]
                 else if c.offset < 0 && pos < |c.data| then c.data[pos]
                 else 0xFF
    ensures PathOf(Key(name)) != PathOf(Key(c.name)) ==>
              ByteAt(Written(f, c), Key(name), pos) == ByteAt(f, Key(name), pos)
    ensures ByteAt(map[], Key(name), pos) == 0xFF
  {
    PathsDiffer(Key(name), Key(c.name));
    hide PathOf;
  }

  class Stub {
    var files: map<Bytes, Bytes>
    ghost var flash: Flash

    /** The backing files are the flash's last writes. */
    ghost predicate Valid()
      reads this
    {
      && (forall k :: k in flash ==> Openable(k) && PathOf(k) in files && files[PathOf(k)] == FileOf(flash[k]))
      && (forall k :: PathOf(k) in files ==> k in flash)
    }

    constructor ()
      ensures Valid() && flash == map[]
    {
      files, flash := map[], map[];
    }

    method FlashRead(name: array<Byte>, buf: array?<Byte>, offset: int, len: nat) returns (r: int)
      requires Valid() && Terminated(name[..], 0) && (buf != null ==> buf.Length >= len)
      modifies buf
      ensures r == 0 && flash == old(flash) && Valid()
      ensures buf != null ==> var key := Key(old(NameOf(name)));
        forall k :: 0 <= k < buf.Length ==> buf[k] == if k < len then ByteAt(flash, key, Position(offset) + k)
          else old(buf[k])
    {
      if buf == null || len == 0 {
        return 0;
      }
      ghost var key := Key(NameOf(name));
      var path := PathFor(name);
      if path !in files {
        assert key !in flash;
        MemFill(buf, 0, 0xFF, len);
        return 0;
      }
      ReadFile(buf, files[path], if offset > 0 then offset else 0, len);
      assert key in flash;
      FileReads(flash[key]);
      return 0;
    }

    /** The backing path of a name, as text. */
    method PathFor(name: array<Byte>) returns (path: Bytes)
      requires Terminated(name[..], 0)
      ensures path == PathOf(Key(NameOf(name)))
    {
      ghost var text := PathOf(Key(NameOf(name)));
      NoNul(NameOf(name));
      var buffer := new Byte[256];
      BuildBackingPath(name, buffer);
      hide Text;
      assert buffer[..][0..0 + |text|] == text && buffer[..][|text|] == 0;
      TextIs(buffer[..], 0, text);
      var n := StrLen(buffer[..]);
      return buffer[..n];
    }

    method FlashWrite(name: array<Byte>, data: array?<Byte>, offset: int, len: nat) returns (r: int)
      requires Valid() && Terminated(name[..], 0) && (data != null ==> data.Length >= len)
      modifies this
      ensures Valid()
      ensures data != null ==> flash == Written(old(flash), Call(NameOf(name), offset, data[..len]))
      ensures data == null ==> flash == old(flash)
      ensures r == if data != null && len > 0 && !Openable(Key(NameOf(name))) then -1 else 0
    {
      if data == null || len == 0 {
        return 0;
      }
      ghost var key := Key(NameOf(name));
      var path := PathFor(name);
      if !OpensForWriting(path) {
        return -1;
      }
      var at := if offset > 0 then offset else 0;
      files := files[path := Filled(0, at) + data[..len]];
      flash := flash[key := Write(at, data[..len])];
      forall k ensures PathOf(k) == path <==> k == key {
        PathsDiffer(k, key);
      }
      return 0;
    }
  }

  /** A path opens if nothing after the prefix names a directory. */
  predicate OpensForWriting(path: Bytes): (opens: bool)
    ensures forall key :: path == PathOf(key) ==> (opens <==> Openable(key))
  {
    OpeningIsOpenable(path);
    |path| >= |Prefix()| && 47 !in path[|Prefix()|..]
  }

  lemma OpeningIsOpenable(path: Bytes)
    ensures forall key :: path == PathOf(key) ==> |path| >= |Prefix()| && (47 !in path[|Prefix()|..] <==> Openable(key))
  {
    forall key | path == PathOf(key) ensures |path| >= |Prefix()| && (47 !in path[|Prefix()|..] <==> Openable(key)) {
      assert path[|Prefix()|..] == key + Suffix();
    }
  }

  lemma NoNul(text: Bytes)
    requires 0 !in text
    ensures 0 !in PathOf(Key(text))
  {
  }

  /** The byte a read finds at a position of a file, padded. */
  function FileByte(file: Bytes, pos: nat): Byte {
    if pos < |file| then file[pos] else 0xFF
  }

  /** The read system call at an offset, and the padding of what it leaves. */
  method ReadFile(buf: array<Byte>, file: Bytes, at: nat, len: nat)
    requires len <= buf.Length
    modifies buf
    ensures forall k :: 0 <= k < buf.Length ==> buf[k] == if k < len then FileByte(file, at + k) else old(buf[k])
  {
    var n := if at >= |file| then 0 else if |file| - at < len then |file| - at else len;
    forall i | 0 <= i < n {
      buf[i] := file[at + i];
    }
    if n < len {
      MemFill(buf, n, 0xFF, len - n);
    }
  }

  /** Reading the backing file is reading the flash. */
  lemma FileReads(w: Write)
    ensures forall f: Flash, key: Bytes, pos: nat ::
      key in f && f[key] == w ==> FileByte(FileOf(w), pos) == ByteAt(f, key, pos)
  {
  }
}
