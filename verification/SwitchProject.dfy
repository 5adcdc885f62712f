/** The active project of each MCP session: loading it from the database, switching it, reverting and refreshing it. */
module SwitchProject {
  import opened Sequences
  import opened Wrappers

  type Uuid = nat
  type Session = int

  const DOCKER_STORAGE_ROOT := "/data/firmware"

  /** A firmware row; `roots` is what looking up its detection roots answers, None if the lookup raises. */
  datatype Firmware = Firmware(
    id: Uuid, filename: Option<string>, architecture: Option<string>, endianness: Option<string>,
    extracted: Option<string>, extractionDir: Option<string>, storage: Option<string>,
    kind: Option<string>, flavor: Option<string>, created: int, roots: Option<seq<string>>)

  datatype Project = Project(name: string, description: Option<string>, firmwares: seq<Firmware>)

  type Database = map<Uuid, Project>

  /** The fields of a session's state, as a value. */
  datatype Image = Image(
    projectId: Uuid, projectName: string, projectDesc: string,
    firmwareId: Uuid, filename: string, architecture: Option<string>, endianness: Option<string>,
    extracted: string, extractionDir: Option<string>, roots: seq<string>, carved: Option<string>,
      storage: Option<string>,
    loaded: bool, kind: string, flavor: Option<string>)

  const BLANK := Image(0, "", "", 0, "unknown", None, None, "", None, [], None, None, false, "unknown", None)

  // ---------------------------------------------------------------- choosing a firmware

  /** Python's `x or y` for a text that may be missing. */
  function Or(x: Option<string>, y: string): string {
    if x.Some? && x.value != "" then x.value else y
  }

  predicate Given(x: Option<string>): (g: bool)
    ensures g ==> x.Some?
  {
    Or(x, "") != ""
  }

  predicate Loadable(fw: Firmware) {
    Given(fw.extracted) || (fw.kind == Some("rtos") && Given(fw.storage))
  }

  function WithId(fws: seq<Firmware>, id: Uuid): Result<Firmware, string> {
    if fws == [] then Err("not found in this project")
    else if fws[0].id == id then (if Loadable(fws[0]) then Ok(fws[0]) else Err("has not finished unpacking"))
    else WithId(fws[1..], id)
  }

  /** The first of the earliest loadable ones: a stable sort by creation, and its head. */
  function Earliest(fws: seq<Firmware>): Result<Firmware, string> {
    if fws == [] then Err("no firmware is ready")
    else
      var rest := Earliest(fws[1..]);
      if !Loadable(fws[0]) then rest
      else if rest.Ok? && rest.value.created < fws[0].created then rest
      else Ok(fws[0])
  }

  function SelectFirmware(fws: seq<Firmware>, id: Option<Uuid>): Result<Firmware, string> {
    if fws == [] then Err("no firmware uploaded")
    else
      match id
      case Some(wanted) => WithId(fws, wanted)
      case None => Earliest(fws)
  }

  lemma {:induction false} WithIdIsFirst(fws: seq<Firmware>, id: Uuid)
    ensures var r := WithId(fws, id); r.Ok? ==> r.value in fws && r.value.id == id && Loadable(r.value)
    ensures UniqueIds(fws) ==>
      (WithId(fws, id).Ok? <==> exists k :: 0 <= k < |fws| && fws[k].id == id && Loadable(fws[k]))
  {
    if fws != [] {
      WithIdIsFirst(fws[1..], id);
      assert fws == [fws[0]] + fws[1..];
      assert forall k :: 1 <= k < |fws| ==> fws[k] == fws[1..][k - 1];
    }
  }

  lemma {:induction false} EarliestIsEarliest(fws: seq<Firmware>)
    ensures Earliest(fws).Err? <==> forall k :: 0 <= k < |fws| ==> !Loadable(fws[k])
    ensures Earliest(fws).Ok? ==> Loadable(Earliest(fws).value) && IsFirstEarliest(fws, Earliest(fws).value)
  {
    if fws != [] {
      EarliestIsEarliest(fws[1..]);
      assert forall k :: 1 <= k < |fws| ==> fws[k] == fws[1..][k - 1];
      var rest := Earliest(fws[1..]);
      if rest.Ok? {
        var k :| 0 <= k < |fws[1..]| && FirstAt(fws[1..], rest.value, k);
        assert forall j :: 0 <= j < |fws[1..]| ==> fws[1..][j] == fws[j + 1];
        if !(Loadable(fws[0]) && fws[0].created <= rest.value.created) {
          assert FirstAt(fws, rest.value, k + 1);
        } else {
          assert FirstAt(fws, fws[0], 0);
        }
      } else if Loadable(fws[0]) {
        assert FirstAt(fws, fws[0], 0);
      }
    }
  }

  /** No loadable firmware is older, and none before it in the list is as old. */
  ghost predicate FirstAt(fws: seq<Firmware>, fw: Firmware, k: nat) {
    && k < |fws| && fws[k] == fw
    && (forall j :: 0 <= j < |fws| && Loadable(fws[j]) ==> fw.created <= fws[j].created)
    && (forall j :: 0 <= j < k && Loadable(fws[j]) ==> fw.created < fws[j].created)
  }

  ghost predicate IsFirstEarliest(fws: seq<Firmware>, fw: Firmware) {
    exists k :: 0 <= k < |fws| && FirstAt(fws, fw, k)
  }

  ghost predicate UniqueIds(fws: seq<Firmware>) {
    forall i, j :: 0 <= i < j < |fws| ==> fws[i].id != fws[j].id
  }

  // ---------------------------------------------------------------- paths

  function TranslatePath(path: string, root: Option<string>): string {
    if !Given(root) then path
    else if DOCKER_STORAGE_ROOT + "/" <= path then root.value + path[|DOCKER_STORAGE_ROOT|..]
    else if path == DOCKER_STORAGE_ROOT then root.value
    else path
  }

  /** The directory itself, or a path below it. */
  predicate Under(path: string, dir: string) {
    path == dir || dir + "/" <= path
  }

  /** From host paths back to those of the volume. */
  function TranslateBack(path: string, root: string): string {
    if root + "/" <= path then DOCKER_STORAGE_ROOT + path[|root|..] else if path == root then DOCKER_STORAGE_ROOT
      else path
  }

  lemma UnderParts(path: string, dir: string)
    ensures Under(path, dir) <==>
      |dir| <= |path| && path == dir + path[|dir|..] && (path[|dir|..] == "" || path[|dir|..][0] == '/')
  {
    if dir + "/" <= path {
      assert path[..|dir|] == (dir + "/")[..|dir|] == dir;
      assert path[|dir|] == (dir + "/")[|dir|];
    }
    if |dir| <= |path| && path == dir + path[|dir|..] && path[|dir|..] != "" && path[|dir|..][0] == '/' {
      assert path[..|dir| + 1] == dir + "/";
    }
  }

  /** A path of the volume becomes the same path below the host's root, and a path elsewhere stays. */
  lemma TranslationMoves(path: string, root: Option<string>)
    requires Given(root)
    ensures Under(path, DOCKER_STORAGE_ROOT) ==>
      TranslatePath(path, root) == root.value + path[|DOCKER_STORAGE_ROOT|..] &&
        Under(TranslatePath(path, root), root.value)
    ensures !Under(path, DOCKER_STORAGE_ROOT) ==> TranslatePath(path, root) == path
  {
    UnderParts(path, DOCKER_STORAGE_ROOT);
    if Under(path, DOCKER_STORAGE_ROOT) {
      var rest := path[|DOCKER_STORAGE_ROOT|..];
      assert (root.value + rest)[|root.value|..] == rest;
      UnderParts(root.value + rest, root.value);
      assert root.value + "" == root.value;
    }
  }

  lemma BackMoves(path: string, root: string)
    ensures TranslateBack(path, root) == if Under(path, root) then DOCKER_STORAGE_ROOT + path[|root|..] else path
  {
    UnderParts(path, root);
    assert DOCKER_STORAGE_ROOT + "" == DOCKER_STORAGE_ROOT;
  }

  /**
   Translating a path loses it exactly if it is off the volume but below the host's root: there two paths become one.
   */
  lemma TranslationGoesBack(path: string, root: Option<string>)
    requires Given(root)
    ensures TranslateBack(TranslatePath(path, root), root.value) == path <==>
      Under(path, DOCKER_STORAGE_ROOT) || !Under(path, root.value)
  {
    TranslationMoves(path, root);
    BackMoves(TranslatePath(path, root), root.value);
    UnderParts(path, DOCKER_STORAGE_ROOT);
    UnderParts(path, root.value);
    hide TranslatePath, TranslateBack, Under;
    if Under(path, DOCKER_STORAGE_ROOT) {
      assert (root.value + path[|DOCKER_STORAGE_ROOT|..])[|root.value|..] == path[|DOCKER_STORAGE_ROOT|..];
    } else if Under(path, root.value) {
      var moved := DOCKER_STORAGE_ROOT + path[|root.value|..];
      UnderParts(moved, DOCKER_STORAGE_ROOT);
      assert moved[|DOCKER_STORAGE_ROOT|..] == path[|root.value|..];
      assert Under(moved, DOCKER_STORAGE_ROOT);
    }
  }

  function TranslateAll(paths: seq<string>, root: Option<string>): seq<string> {
    seq(|paths|, i requires 0 <= i < |paths| => TranslatePath(paths[i], root))
  }

  function TranslateGiven(path: Option<string>, root: Option<string>): Option<string> {
    if Given(path) then Some(TranslatePath(path.value, root)) else path
  }

  /** One past the last slash, or 0. */
  function LastSlash(s: string): (k: nat)
    ensures k <= |s|
  {
    if s == "" || s[|s| - 1] == '/' then |s| else LastSlash(s[..|s| - 1])
  }

  function DropSlashes(s: string): string {
    if s != "" && s[|s| - 1] == '/' then DropSlashes(s[..|s| - 1]) else s
  }

  /** `os.path.join(os.path.dirname(path), "carved")`. */
  function CarvedBeside(path: string): string {
    var head := path[..LastSlash(path)];
    var dir := if DropSlashes(head) == "" then head else DropSlashes(head);
    if dir == "" then "carved" else if dir[|dir| - 1] == '/' then dir + "carved" else dir + "/carved"
  }

  // ---------------------------------------------------------------- the complete image

  function RootsOf(fw: Firmware): seq<string> {
    match fw.roots
    case Some(roots) => roots
    case None => if Given(fw.extracted) then [fw.extracted.value] else []
  }

  function Untranslated(id: Uuid, p: Project, fw: Firmware): Image {
    Image(id, p.name, Or(p.description, ""), fw.id, Or(fw.filename, "unknown"), fw.architecture, fw.endianness,
          Or(fw.extracted, ""), fw.extractionDir, RootsOf(fw),
          if Given(fw.storage) then Some(CarvedBeside(fw.storage.value)) else None,
          fw.storage, Given(fw.extracted) || Given(fw.storage), Or(fw.kind, "unknown"), fw.flavor)
  }

  function Translated(i: Image, root: Option<string>): Image {
    if !Given(root) || !i.loaded then i
    else i.(extracted := if i.extracted == "" then "" else TranslatePath(i.extracted, root),
            extractionDir := TranslateGiven(i.extractionDir, root),
            roots := TranslateAll(i.roots, root),
            carved := TranslateGiven(i.carved, root),
            storage := TranslateGiven(i.storage, root))
  }

  function ImageOf(id: Uuid, p: Project, fw: Firmware, root: Option<string>): Image {
    Translated(Untranslated(id, p, fw), root)
  }

  /** What loading a project finds: the image of the selected firmware, or an error. */
  function Loaded(db: Database, root: Option<string>, id: Uuid, firmwareId: Option<Uuid>): Result<Image, string> {
    if id !in db then Err("project not found")
    else
      match SelectFirmware(db[id].firmwares, firmwareId)
      case Err(e) => Err(e)
      case Ok(fw) => Ok(ImageOf(id, db[id], fw, root))
  }

  /** The files a switch finds on the host. */
  datatype Files = Files(dirs: set<string>, files: set<string>)

  predicate PathMissing(i: Image, found: Files) {
    && i.loaded
    && if i.extracted != "" then i.extracted !in found.dirs
       else Given(i.storage) && i.storage.value !in found.files
  }

  datatype Answer = Already | Failed(error: string) | Missing(named: string) | Switched

  /** A switch, and the path its answer names if it had to go back. */
  function SwitchedFrom(db: Database, root: Option<string>, was: Image, id: Uuid, firmwareId: Option<Uuid>,
      found: Files)
    : (Image, Answer)
  {
    if id == was.projectId && firmwareId == None then (was, Already)
    else
      match Loaded(db, root, id, firmwareId)
      case Err(e) => (was, Failed(e))
      case Ok(now) => if PathMissing(now, found) then Reverted(db, root, was, now) else (now, Switched)
  }

  function Reverted(db: Database, root: Option<string>, was: Image, now: Image): (Image, Answer) {
    match Loaded(db, root, was.projectId, if was.loaded then Some(was.firmwareId) else None)
    case Ok(back) => (back, Missing(BadPath(back)))
    case Err(_) => (now, Missing(BadPath(now)))
  }

  function BadPath(i: Image): string {
    if i.extracted != "" then i.extracted else Or(i.storage, "")
  }

  function RefreshedFrom(db: Database, root: Option<string>, was: Image): Image {
    match Loaded(db, root, was.projectId, Some(was.firmwareId))
    case Ok(now) => now
    case Err(_) => was
  }

  // ---------------------------------------------------------------- what a client is told, and what it then sees

  /** Primary keys, and no project with the nil identifier. */
  ghost predicate Keyed(db: Database) {
    0 !in db && forall id :: id in db ==> UniqueIds(db[id].firmwares)
  }

  ghost predicate HasText(x: Option<string>) {
    x.Some? && x.value != ""
  }

  /** Unpacked, or a raw image that is known to be one. */
  ghost predicate Ready(fw: Firmware) {
    HasText(fw.extracted) || (fw.kind == Some("rtos") && HasText(fw.storage))
  }

  /** The ready firmware at `k` is the one asked for, or, if none was, the first of the earliest. */
  ghost predicate ChosenAt(fws: seq<Firmware>, wanted: Option<Uuid>, fw: Firmware, k: nat) {
    && k < |fws| && fws[k] == fw && Ready(fw)
    && (wanted.Some? ==> fw.id == wanted.value)
    && (wanted.None? ==> forall j :: 0 <= j < |fws| && Ready(fws[j]) ==>
                           fw.created <= fws[j].created && (j < k ==> fw.created < fws[j].created))
  }

  ghost predicate Chosen(db: Database, id: Uuid, wanted: Option<Uuid>, fw: Firmware) {
    id in db && exists k :: 0 <= k < |db[id].firmwares| && ChosenAt(db[id].firmwares, wanted, fw, k)
  }

  /** Where a path of the volume is on the host. */
  ghost function OnHost(path: string, root: Option<string>): string {
    if !HasText(root) then path
    else if path == "/data/firmware" || "/data/firmware/" <= path then root.value + path[14..]
    else path
  }

  ghost function GivenOnHost(path: Option<string>, root: Option<string>): Option<string> {
    if HasText(path) then Some(OnHost(path.value, root)) else path
  }

  /** The firmware's files are not where the host should have them. */
  ghost predicate Lost(fw: Firmware, root: Option<string>, found: Files) {
    if HasText(fw.extracted) then OnHost(fw.extracted.value, root) !in found.dirs
    else HasText(fw.storage) && OnHost(fw.storage.value, root) !in found.files
  }

  /** The state is that project's and that firmware's, field by field. */
  ghost predicate Shows(i: Image, id: Uuid, p: Project, fw: Firmware, root: Option<string>) {
    && ShowsIdentity(i, id, p, fw)
    && i.extracted == (if HasText(fw.extracted) then OnHost(fw.extracted.value, root) else "")
    && i.extractionDir == GivenOnHost(fw.extractionDir, root)
    && i.storage == GivenOnHost(fw.storage, root)
    && i.carved == (if HasText(fw.storage) then Some(OnHost(CarvedBeside(fw.storage.value), root)) else None)
    && ShowsRoots(i.roots, fw, root)
  }

  ghost predicate ShowsIdentity(i: Image, id: Uuid, p: Project, fw: Firmware) {
    && i.projectId == id && i.projectName == p.name
    && i.projectDesc == (if HasText(p.description) then p.description.value else "")
    && i.firmwareId == fw.id && i.architecture == fw.architecture && i.endianness == fw.endianness
    && i.filename == (if HasText(fw.filename) then fw.filename.value else "unknown")
    && i.kind == (if HasText(fw.kind) then fw.kind.value else "unknown")
    && i.flavor == fw.flavor && i.loaded
  }

  /** The roots the lookup answered, or the root of the file system where it raised. */
  ghost predicate ShowsRoots(roots: seq<string>, fw: Firmware, root: Option<string>) {
    match fw.roots
    case Some(looked) =>
      |roots| == |looked| && forall k :: 0 <= k < |roots| ==> roots[k] == OnHost(looked[k], root)
    case None =>
      roots == if HasText(fw.extracted) then [OnHost(fw.extracted.value, root)] else []
  }

  /** A loading of a project: the chosen firmware is shown, or there is none and nothing has changed. */
  ghost predicate LoadsInto(db: Database, root: Option<string>, id: Uuid, wanted: Option<Uuid>, was: Image, now: Image)
  {
    && ((exists fw :: Chosen(db, id, wanted, fw)) || now == was)
    && (forall fw :: Chosen(db, id, wanted, fw) ==> Shows(now, id, db[id], fw, root))
  }

  /**
   A switch, told by its answer: nothing to do exactly if the project is the current one and no firmware was asked for;
   failed exactly if no firmware can be chosen; missing exactly if the chosen one's files are not there; and otherwise
   switched, with the chosen firmware in every field.
   */
  ghost predicate Decides(db: Database, root: Option<string>, was: Image, id: Uuid, wanted: Option<Uuid>, found: Files,
                          now: Image, answer: Answer)
  {
    var same := id == was.projectId && wanted == None;
    && (answer.Already? <==> same)
    && (answer.Failed? <==> !same && forall fw :: !Chosen(db, id, wanted, fw))
    && (answer.Missing? <==> !same && exists fw :: Chosen(db, id, wanted, fw) && Lost(fw, root, found))
    && (answer.Already? || answer.Failed? ==> now == was)
    && (answer.Switched? ==>
          exists fw :: Chosen(db, id, wanted, fw) && !Lost(fw, root, found) && Shows(now, id, db[id], fw, root))
    && (answer.Switched? && wanted.Some? ==> now.firmwareId == wanted.value)
  }

  lemma ReadyIsLoadable(fw: Firmware)
    ensures Ready(fw) <==> Loadable(fw)
  {
  }

  lemma ChosenIsUnique(fws: seq<Firmware>, wanted: Option<Uuid>, fw: Firmware, k: nat, gw: Firmware, j: nat)
    requires UniqueIds(fws) && ChosenAt(fws, wanted, fw, k) && ChosenAt(fws, wanted, gw, j)
    ensures fw == gw
  {
  }

  lemma SelectionIsChosen(db: Database, id: Uuid, wanted: Option<Uuid>)
    requires id in db && UniqueIds(db[id].firmwares)
    ensures var r := SelectFirmware(db[id].firmwares, wanted);
      && (r.Ok? ==> Chosen(db, id, wanted, r.value))
      && (r.Err? ==> forall fw :: !Chosen(db, id, wanted, fw))
      && (forall fw :: Chosen(db, id, wanted, fw) ==> r == Ok(fw))
  {
    var fws := db[id].firmwares;
    var r := SelectFirmware(fws, wanted);
    forall fw {
      ReadyIsLoadable(fw);
    }
    hide Ready, Loadable, Earliest, WithId;
    if fws != [] {
      if wanted.Some? {
        WithIdIsFirst(fws, wanted.value);
        if r.Ok? {
          var k :| 0 <= k < |fws| && fws[k] == r.value;
          assert ChosenAt(fws, wanted, r.value, k);
        }
      } else {
        EarliestIsEarliest(fws);
        if r.Ok? {
          var k :| 0 <= k < |fws| && FirstAt(fws, r.value, k);
          assert ChosenAt(fws, wanted, r.value, k);
        }
      }
    }
    forall fw | Chosen(db, id, wanted, fw) ensures r == Ok(fw) {
      var k :| 0 <= k < |fws| && ChosenAt(fws, wanted, fw, k);
      if r.Ok? {
        var j :| 0 <= j < |fws| && ChosenAt(fws, wanted, r.value, j);
        ChosenIsUnique(fws, wanted, fw, k, r.value, j);
      }
    }
  }

  lemma TranslatesToHost(path: string, root: Option<string>)
    ensures TranslatePath(path, root) == OnHost(path, root) && (path != "" ==> OnHost(path, root) != "")
    ensures !HasText(root) ==> OnHost(path, root) == path
  {
    assert |DOCKER_STORAGE_ROOT| == 14;
    if HasText(root) {
      if path == DOCKER_STORAGE_ROOT {
        assert !(DOCKER_STORAGE_ROOT + "/" <= path) && path[14..] == "";
        assert root.value + "" == root.value;
      } else {
        assert DOCKER_STORAGE_ROOT + "/" == "/data/firmware/";
      }
    }
  }

  lemma ImageShows(id: Uuid, p: Project, fw: Firmware, root: Option<string>, found: Files)
    requires Ready(fw)
    ensures Shows(ImageOf(id, p, fw, root), id, p, fw, root)
    ensures PathMissing(ImageOf(id, p, fw, root), found) <==> Lost(fw, root, found)
    ensures ImageOf(id, p, fw, root).firmwareId == fw.id
  {
    forall path {
      TranslatesToHost(path, root);
    }
    hide TranslatePath, OnHost, CarvedBeside;
    CarvedIsPath(if HasText(fw.storage) then fw.storage.value else "");
  }

  lemma LoadedShows(db: Database, root: Option<string>, id: Uuid, wanted: Option<Uuid>, found: Files)
    requires Keyed(db)
    ensures Loaded(db, root, id, wanted).Ok? <==> exists fw :: Chosen(db, id, wanted, fw)
    ensures forall fw :: Chosen(db, id, wanted, fw) ==>
              Loaded(db, root, id, wanted).Ok? && Shows(Loaded(db, root, id, wanted).value, id, db[id], fw, root)
              && (PathMissing(Loaded(db, root, id, wanted).value, found) <==> Lost(fw, root, found))
              && (wanted.Some? ==> Loaded(db, root, id, wanted).value.firmwareId == wanted.value)
  {
    hide SelectFirmware, Shows, Lost, PathMissing, ImageOf, Ready, UniqueIds;
    if id in db {
      SelectionIsChosen(db, id, wanted);
      forall fw | Chosen(db, id, wanted, fw)
        ensures Loaded(db, root, id, wanted).Ok? && Shows(Loaded(db, root, id, wanted).value, id, db[id], fw, root)
        ensures PathMissing(Loaded(db, root, id, wanted).value, found) <==> Lost(fw, root, found)
        ensures wanted.Some? ==> Loaded(db, root, id, wanted).value.firmwareId == wanted.value
      {
        var k :| 0 <= k < |db[id].firmwares| && ChosenAt(db[id].firmwares, wanted, fw, k);
        ImageShows(id, db[id], fw, root, found);
      }
    }
  }

  lemma RevertedIsMissing(db: Database, root: Option<string>, was: Image)
    ensures forall now :: Reverted(db, root, was, now).1.Missing?
  {
    hide Loaded, BadPath;
  }

  lemma SwitchDecides(db: Database, root: Option<string>, was: Image, id: Uuid, wanted: Option<Uuid>, found: Files)
    requires Keyed(db)
    ensures var (now, answer) := SwitchedFrom(db, root, was, id, wanted, found);
      Decides(db, root, was, id, wanted, found, now, answer)
  {
    LoadedShows(db, root, id, wanted, found);
    hide Loaded, Lost, PathMissing, Chosen, Shows, Reverted;
    RevertedIsMissing(db, root, was);
  }

  /** After files were not there: the earlier firmware if it can still be chosen, and else the one just loaded. */
  ghost predicate GoesBack(db: Database, root: Option<string>, was: Image, id: Uuid, wanted: Option<Uuid>, now: Image) {
    var earlier := if was.loaded then Some(was.firmwareId) else None;
    && (forall fw :: Chosen(db, was.projectId, earlier, fw) ==> Shows(now, was.projectId, db[was.projectId], fw, root))
    && (forall fw :: Chosen(db, id, wanted, fw) && (forall gw :: !Chosen(db, was.projectId, earlier, gw)) ==>
          Shows(now, id, db[id], fw, root))
  }

  lemma MissingGoesBack(db: Database, root: Option<string>, was: Image, id: Uuid, wanted: Option<Uuid>, found: Files)
    requires Keyed(db)
    ensures var (now, answer) := SwitchedFrom(db, root, was, id, wanted, found);
      answer.Missing? ==> GoesBack(db, root, was, id, wanted, now)
  {
    LoadedShows(db, root, id, wanted, found);
    LoadedShows(db, root, was.projectId, if was.loaded then Some(was.firmwareId) else None, found);
    hide Loaded, PathMissing, Chosen, Shows;
  }

  lemma RefreshLoads(db: Database, root: Option<string>, was: Image)
    requires Keyed(db)
    ensures LoadsInto(db, root, was.projectId, Some(was.firmwareId), was, RefreshedFrom(db, root, was))
  {
    LoadedShows(db, root, was.projectId, Some(was.firmwareId), Files({}, {}));
    hide Loaded, Chosen, Shows;
  }

  lemma FirstLoads(db: Database, root: Option<string>, preset: Option<(Uuid, Option<Uuid>)>)
    requires Keyed(db)
    ensures preset.None? ==> First(db, root, preset) == BLANK
    ensures preset.Some? ==> LoadsInto(db, root, preset.value.0, preset.value.1, BLANK, First(db, root, preset))
  {
    if preset.Some? {
      LoadedShows(db, root, preset.value.0, preset.value.1, Files({}, {}));
      hide Loaded, Chosen, Shows;
    }
  }

  /** The carving directory lies beside the blob. */
  lemma CarvedIsPath(path: string)
    ensures CarvedBeside(path) != ""
  {
  }

  lemma {:induction false} SlashAfter(dir: string, name: string)
    requires '/' !in name
    ensures LastSlash(dir + "/" + name) == |dir| + 1
    decreases |name|
  {
    var s := dir + "/" + name;
    if name == "" {
      assert s == dir + "/";
    } else {
      assert s[..|s| - 1] == dir + "/" + name[..|name| - 1];
      assert s[|s| - 1] == name[|name| - 1] && name[|name| - 1] in name;
      SlashAfter(dir, name[..|name| - 1]);
    }
  }

  lemma CarvedIsBeside(dir: string, name: string)
    requires '/' !in name && dir != "" && dir[|dir| - 1] != '/'
    ensures CarvedBeside(dir + "/" + name) == dir + "/carved"
  {
    SlashAfter(dir, name);
    var head := (dir + "/" + name)[..|dir| + 1];
    assert head == dir + "/" && head[..|dir|] == dir;
    assert DropSlashes(head) == DropSlashes(dir) == dir;
  }

  // ---------------------------------------------------------------- the server's objects

  class ProjectState {
    var projectId: Uuid
    var projectName: string
    var projectDesc: string
    var firmwareId: Uuid
    var filename: string
    var architecture: Option<string>
    var endianness: Option<string>
    var extracted: string
    var extractionDir: Option<string>
    var roots: seq<string>
    var carved: Option<string>
    var storage: Option<string>
    var loaded: bool
    var kind: string
    var flavor: Option<string>

    constructor ()
      ensures View() == BLANK
    {
      projectId, projectName, projectDesc := 0, "", "";
      firmwareId, filename, architecture, endianness := 0, "unknown", None, None;
      extracted, extractionDir, roots, carved, storage := "", None, [], None, None;
      loaded, kind, flavor := false, "unknown", None;
    }

    function View(): Image
      reads this
    {
      Image(projectId, projectName, projectDesc, firmwareId, filename, architecture, endianness,
            extracted, extractionDir, roots, carved, storage, loaded, kind, flavor)
    }

    /** Loads a project into this state: the whole image, or nothing. */
    method Load(db: Database, root: Option<string>, id: Uuid, wanted: Option<Uuid>) returns (r: Result<(), string>)
      modifies this
      ensures match Loaded(db, root, id, wanted)
        case Ok(image) => r == Ok(()) && View() == image
        case Err(e) => r == Err(e) && View() == old(View())
    {
      if id !in db {
        return Err("project not found");
      }
      var project := db[id];
      var selected := SelectFirmware(project.firmwares, wanted);
      if selected.Err? {
        return Err(selected.error);
      }
      Fill(id, project, selected.value);
      Translate(root);
      return Ok(());
    }

    method Fill(id: Uuid, project: Project, fw: Firmware)
      modifies this
      ensures View() == Untranslated(id, project, fw)
    {
      hide Or, Given, RootsOf, CarvedBeside;
      projectId := id;
      projectName := project.name;
      projectDesc := Or(project.description, "");
      FillIdentity(fw);
      FillPaths(fw);
    }

    method FillIdentity(fw: Firmware)
      modifies `firmwareId, `filename, `architecture, `endianness, `kind, `flavor
      ensures firmwareId == fw.id && filename == Or(fw.filename, "unknown") && architecture == fw.architecture
      ensures endianness == fw.endianness && kind == Or(fw.kind, "unknown") && flavor == fw.flavor
    {
      hide Or;
      firmwareId := fw.id;
      filename := Or(fw.filename, "unknown");
      architecture := fw.architecture;
      endianness := fw.endianness;
      kind := Or(fw.kind, "unknown");
      flavor := fw.flavor;
    }

    method FillPaths(fw: Firmware)
      modifies `extracted, `extractionDir, `roots, `storage, `carved, `loaded
      ensures extracted == Or(fw.extracted, "") && extractionDir == fw.extractionDir && roots == RootsOf(fw)
      ensures storage == fw.storage && loaded == (Given(fw.extracted) || Given(fw.storage))
      ensures carved == if Given(fw.storage) then Some(CarvedBeside(fw.storage.value)) else None
    {
      hide Or, Given, RootsOf, CarvedBeside;
      extracted := Or(fw.extracted, "");
      extractionDir := fw.extractionDir;
      roots := RootsOf(fw);
      storage := fw.storage;
      if Given(fw.storage) {
        carved := Some(CarvedBeside(fw.storage.value));
      } else {
        carved := None;
      }
      loaded := Given(fw.extracted) || Given(fw.storage);
    }

    method Translate(root: Option<string>)
      modifies this
      ensures View() == Translated(old(View()), root)
    {
      hide Given, TranslatePath, TranslateAll;
      if Given(root) && loaded {
        if extracted != "" {
          extracted := TranslatePath(extracted, root);
        }
        if Given(extractionDir) {
          extractionDir := Some(TranslatePath(extractionDir.value, root));
        }
        roots := TranslateAll(roots, root);
        if Given(carved) {
          carved := Some(TranslatePath(carved.value, root));
        }
        if Given(storage) {
          storage := Some(TranslatePath(storage.value, root));
        }
      }
    }

    method Switch(db: Database, root: Option<string>, id: Uuid, wanted: Option<Uuid>, found: Files)
        returns (answer: Answer)
      modifies this
      ensures (View(), answer) == SwitchedFrom(db, root, old(View()), id, wanted, found)
    {
      hide Loaded, Given, Or;
      if id == projectId && wanted == None {
        return Already;
      }
      var oldId := projectId;
      var oldFirmware := if loaded then Some(firmwareId) else None;
      var r := Load(db, root, id, wanted);
      if r.Err? {
        return Failed(r.error);
      }
      var rootfsMissing := extracted != "" && extracted !in found.dirs;
      var blobMissing := extracted == "" && Given(storage) && storage.value !in found.files;
      if loaded && (rootfsMissing || blobMissing) {
        var back := Load(db, root, oldId, oldFirmware);
        return Missing(if extracted != "" then extracted else Or(storage, ""));
      }
      return Switched;
    }

    method Refresh(db: Database, root: Option<string>)
      modifies this
      ensures View() == RefreshedFrom(db, root, old(View()))
    {
      hide Loaded;
      var r := Load(db, root, projectId, Some(firmwareId));
    }
  }

  /** The HTTP server: one state object per session, made at the session's first call. */
  class Server {
    const root: Option<string>
    const preset: Option<(Uuid, Option<Uuid>)>
    var states: map<Session, ProjectState>

    constructor (root: Option<string>, preset: Option<(Uuid, Option<Uuid>)>)
      ensures Valid() && this.root == root && this.preset == preset && states == map[]
    {
      this.root, this.preset, states := root, preset, map[];
    }

    ghost predicate Valid()
      reads this
    {
      forall s, t :: s in states && t in states && states[s] == states[t] ==> s == t
    }

    /** The state a session would see. */
    function ViewOf(s: Session, db: Database): Image
      reads this, states.Values
    {
      if s in states then states[s].View() else First(db, root, preset)
    }

    /** The session's state object, made if need be; every other session's object stays as it is. */
    method State(s: Session, db: Database) returns (st: ProjectState)
      requires Valid()
      modifies this
      ensures Valid() && s in states && states[s] == st && st.View() == old(ViewOf(s, db))
      ensures s in old(states) ==> states == old(states)
      ensures s !in old(states) ==> fresh(st) && states == old(states)[s := st]
      ensures s !in old(states) && preset.None? ==> st.View() == BLANK
      ensures s !in old(states) && preset.Some? && Keyed(db) ==>
                LoadsInto(db, root, preset.value.0, preset.value.1, BLANK, st.View())
    {
      if s in states {
        return states[s];
      }
      hide LoadsInto, Loaded, Keyed;
      if Keyed(db) {
        FirstLoads(db, root, preset);
      }
      st := new ProjectState();
      if preset.Some? {
        var r := st.Load(db, root, preset.value.0, preset.value.1);
      }
      states := states[s := st];
    }

    method SwitchProject(s: Session, db: Database, id: Uuid, wanted: Option<Uuid>, found: Files)
        returns (answer: Answer)
      requires Valid()
      modifies this, if s in states then {states[s]} else {}
      ensures Valid() && s in states && states.Keys == old(states.Keys) + {s}
      ensures (states[s].View(), answer) == SwitchedFrom(db, root, old(ViewOf(s, db)), id, wanted, found)
      ensures Keyed(db) ==> Decides(db, root, old(ViewOf(s, db)), id, wanted, found, states[s].View(), answer)
      ensures Keyed(db) && answer.Missing? ==> GoesBack(db, root, old(ViewOf(s, db)), id, wanted, states[s].View())
      ensures forall t :: t in old(states) && t != s ==>
        t in states && states[t] == old(states[t]) && states[t].View() == old(states[t].View())
    {
      hide SwitchedFrom, Decides, GoesBack;
      ghost var was := ViewOf(s, db);
      var st := State(s, db);
      answer := st.Switch(db, root, id, wanted, found);
      if Keyed(db) {
        SwitchDecides(db, root, was, id, wanted, found);
        MissingGoesBack(db, root, was, id, wanted, found);
      }
    }

    method RefreshAfterTool(s: Session, db: Database)
      requires Valid()
      modifies this, if s in states then {states[s]} else {}
      ensures Valid() && s in states && states.Keys == old(states.Keys) + {s}
      ensures states[s].View() == RefreshedFrom(db, root, old(ViewOf(s, db)))
      ensures Keyed(db) ==> var was := old(ViewOf(s, db));
        LoadsInto(db, root, was.projectId, Some(was.firmwareId), was, states[s].View())
      ensures forall t :: t in old(states) && t != s ==>
        t in states && states[t] == old(states[t]) && states[t].View() == old(states[t].View())
    {
      hide RefreshedFrom, LoadsInto;
      ghost var was := ViewOf(s, db);
      var st := State(s, db);
      st.Refresh(db, root);
      if Keyed(db) {
        RefreshLoads(db, root, was);
      }
    }
  }

  /** A new session's state: the preset project if it loads, blank otherwise. */
  function First(db: Database, root: Option<string>, preset: Option<(Uuid, Option<Uuid>)>): Image {
    match preset
    case None => BLANK
    case Some((id, wanted)) =>
      match Loaded(db, root, id, wanted)
      case Ok(image) => image
      case Err(_) => BLANK
  }

  // ---------------------------------------------------------------- runs

  /** A call of some session, against the database as it is then. */
  datatype Call =
    | Switch(session: Session, db: Database, id: Uuid, wanted: Option<Uuid>, found: Files)
    | Refresh(session: Session, db: Database)

  /** The server's settings. */
  datatype Settings = Settings(root: Option<string>, preset: Option<(Uuid, Option<Uuid>)>)

  type Views = map<Session, Image>

  function ViewIn(views: Views, c: Call, set_: Settings): Image {
    if c.session in views then views[c.session] else First(c.db, set_.root, set_.preset)
  }

  function After(views: Views, c: Call, set_: Settings): Views {
    match c
    case Switch(s, db, id, wanted,
      found) => views[s := SwitchedFrom(db, set_.root, ViewIn(views, c, set_), id, wanted, found).0]
    case Refresh(s, db) => views[s := RefreshedFrom(db, set_.root, ViewIn(views, c, set_))]
  }

  function Run(calls: seq<Call>, set_: Settings): Views {
    if calls == [] then map[] else After(Run(calls[..|calls| - 1], set_), calls[|calls| - 1], set_)
  }

  /** The image is a loadable firmware's, whole, as the database has it for the image's own project. */
  ghost predicate IsImage(db: Database, root: Option<string>, i: Image) {
    && i.projectId in db
    && exists k :: 0 <= k < |db[i.projectId].firmwares|
         && Loadable(db[i.projectId].firmwares[k])
         && i == ImageOf(i.projectId, db[i.projectId], db[i.projectId].firmwares[k], root)
  }

  ghost predicate BlankOrImage(calls: seq<Call>, root: Option<string>, i: Image) {
    i == BLANK || exists k :: 0 <= k < |calls| && IsImage(calls[k].db, root, i)
  }

  lemma SelectedIsThere(fws: seq<Firmware>, wanted: Option<Uuid>)
    ensures var r := SelectFirmware(fws, wanted); r.Ok? ==> r.value in fws && Loadable(r.value)
    ensures var r := SelectFirmware(fws, wanted); r.Ok? && wanted.Some? ==> r.value.id == wanted.value
  {
    if fws != [] {
      if wanted.Some? {
        WithIdIsFirst(fws, wanted.value);
      } else {
        EarliestIsEarliest(fws);
      }
    }
  }

  lemma LoadedIsImage(db: Database, root: Option<string>, id: Uuid, wanted: Option<Uuid>)
    ensures var r := Loaded(db, root, id, wanted); r.Ok? ==> IsImage(db, root, r.value) && r.value.projectId == id
  {
    if id in db {
      SelectedIsThere(db[id].firmwares, wanted);
      hide SelectFirmware, Loadable, RootsOf, TranslatePath, CarvedBeside;
    }
  }

  /** A call leaves its session on its earlier state or on the image of a firmware in the database of the call. */
  lemma CallIsImage(views: Views, c: Call, set_: Settings)
    ensures var now := After(views, c, set_)[c.session]; now == ViewIn(views, c, set_) || IsImage(c.db, set_.root, now)
    ensures c.session in views || ViewIn(views, c, set_) == BLANK || IsImage(c.db, set_.root, ViewIn(views, c, set_))
  {
    hide Loaded, IsImage, PathMissing;
    var was := ViewIn(views, c, set_);
    if set_.preset.Some? {
      LoadedIsImage(c.db, set_.root, set_.preset.value.0, set_.preset.value.1);
    }
    match c
    case Switch(s, db, id, wanted, found) =>
      LoadedIsImage(db, set_.root, id, wanted);
      LoadedIsImage(db, set_.root, was.projectId, if was.loaded then Some(was.firmwareId) else None);
    case Refresh(s, db) =>
      LoadedIsImage(db, set_.root, was.projectId, Some(was.firmwareId));
  }

  lemma OneMoreCall(calls: seq<Call>, c: Call, root: Option<string>, i: Image)
    ensures BlankOrImage(calls, root, i) ==> BlankOrImage(calls + [c], root, i)
    ensures IsImage(c.db, root, i) ==> BlankOrImage(calls + [c], root, i)
  {
    hide IsImage;
    assert (calls + [c])[|calls|] == c;
    if BlankOrImage(calls, root, i) && i != BLANK {
      var k :| 0 <= k < |calls| && IsImage(calls[k].db, root, i);
      assert (calls + [c])[k] == calls[k];
    }
  }

  lemma CallKeepsWhole(before: seq<Call>, c: Call, set_: Settings, views: Views)
    requires c.session in views ==> BlankOrImage(before, set_.root, views[c.session])
    ensures BlankOrImage(before + [c], set_.root, After(views, c, set_)[c.session])
  {
    OneMoreBlank(before + [c], set_.root);
    hide IsImage, BlankOrImage, First, SwitchedFrom, RefreshedFrom;
    var was, now := ViewIn(views, c, set_), After(views, c, set_)[c.session];
    CallIsImage(views, c, set_);
    OneMoreCall(before, c, set_.root, was);
    OneMoreCall(before, c, set_.root, now);
  }

  /** In every run every session's state is blank or the complete image of one loadable firmware of its own project. */
  lemma {:induction false} StatesAreWhole(calls: seq<Call>, set_: Settings, s: Session)
    ensures s in Run(calls, set_) ==> BlankOrImage(calls, set_.root, Run(calls, set_)[s])
  {
    if calls != [] {
      var before, c := calls[..|calls| - 1], calls[|calls| - 1];
      var views := Run(before, set_);
      StatesAreWhole(before, set_, s);
      hide BlankOrImage, After;
      assert before + [c] == calls;
      if s == c.session {
        CallKeepsWhole(before, c, set_, views);
      } else {
        OthersStay(views, c, set_, s);
        if s in views {
          OneMoreCall(before, c, set_.root, views[s]);
        }
      }
    }
  }

  lemma OneMoreBlank(calls: seq<Call>, root: Option<string>)
    ensures BlankOrImage(calls, root, BLANK)
  {
  }

  lemma OthersStay(views: Views, c: Call, set_: Settings, t: Session)
    requires t != c.session
    ensures (t in After(views, c, set_) <==> t in views) && (t in views ==> After(views, c, set_)[t] == views[t])
  {
    hide SwitchedFrom, RefreshedFrom, ViewIn;
  }

  /** The calls of one session. */
  function OwnCalls(calls: seq<Call>, s: Session): seq<Call> {
    if calls == [] then []
    else OwnCalls(calls[..|calls| - 1], s) + if calls[|calls| - 1].session == s then [calls[|calls| - 1]] else []
  }

  ghost predicate SameFor(a: Views, b: Views, s: Session) {
    (s in a <==> s in b) && (s in a ==> a[s] == b[s])
  }

  lemma OwnCallDecides(a: Views, b: Views, c: Call, set_: Settings)
    requires SameFor(a, b, c.session)
    ensures SameFor(After(a, c, set_), After(b, c, set_), c.session)
  {
    hide SwitchedFrom, RefreshedFrom, First;
  }

  lemma RunOneMore(calls: seq<Call>, c: Call, set_: Settings)
    ensures Run(calls + [c], set_) == After(Run(calls, set_), c, set_)
  {
    hide After;
    assert (calls + [c])[..|calls|] == calls;
  }

  /** Sessions do not interfere: each ends as if its own calls were all there were. */
  lemma {:induction false} SessionsAreIndependent(calls: seq<Call>, set_: Settings, s: Session)
    ensures SameFor(Run(calls, set_), Run(OwnCalls(calls, s), set_), s)
  {
    if calls != [] {
      var init, c := calls[..|calls| - 1], calls[|calls| - 1];
      SessionsAreIndependent(init, set_, s);
      RunOneMore(OwnCalls(init, s), c, set_);
      hide After, Run;
      assert init + [c] == calls;
      RunOneMore(init, c, set_);
      if c.session == s {
        OwnCallDecides(Run(init, set_), Run(OwnCalls(init, s), set_), c, set_);
      } else {
        OthersStay(Run(init, set_), c, set_, s);
        assert OwnCalls(init, s) + [] == OwnCalls(init, s);
      }
    }
  }

  /** A switch of a session that has a state, answered as failed. */
  predicate Fails(views: Views, c: Call, set_: Settings) {
    && c.Switch? && c.session in views
    && SwitchedFrom(c.db, set_.root, views[c.session], c.id, c.wanted, c.found).1.Failed?
  }

  lemma FailedCallStays(views: Views, c: Call, set_: Settings)
    requires Fails(views, c, set_)
    ensures After(views, c, set_) == views
  {
    FailureChangesNothing(c.db, set_.root, views[c.session], c.id, c.wanted, c.found);
    hide SwitchedFrom;
  }

  /** A failed switch leaves no trace: every run goes on as if the call had not been made. */
  lemma {:induction false} FailedCallLeavesNoTrace(before: seq<Call>, c: Call, after: seq<Call>, set_: Settings)
    requires Fails(Run(before, set_), c, set_)
    ensures Run((before + [c]) + after, set_) == Run(before + after, set_)
    decreases |after|
  {
    hide Run, After, Fails;
    if after == [] {
      RunOneMore(before, c, set_);
      FailedCallStays(Run(before, set_), c, set_);
      assert (before + [c]) + after == before + [c] && before + after == before;
    } else {
      var init, last := after[..|after| - 1], after[|after| - 1];
      FailedCallLeavesNoTrace(before, c, init, set_);
      RunOneMore((before + [c]) + init, last, set_);
      RunOneMore(before + init, last, set_);
      assert init + [last] == after;
      Regroup(before + [c], init, [last]);
      Regroup(before, init, [last]);
    }
  }

  /** A failed lookup changes nothing. */
  lemma FailureChangesNothing(db: Database, root: Option<string>, was: Image, id: Uuid, wanted: Option<Uuid>,
      found: Files)
    ensures var (now, answer) := SwitchedFrom(db, root, was, id, wanted, found);
      answer.Failed? || answer.Already? ==> now == was
    ensures var (now, answer) := SwitchedFrom(db, root, was, id, wanted, found);
      answer.Failed? <==> !answer.Already? && Loaded(db, root, id, wanted).Err?
  {
    hide Loaded, PathMissing;
  }

  /** An image is loadable again by its own identifiers, and comes out the same. */
  lemma ImageLoadsAgain(db: Database, root: Option<string>, i: Image)
    requires Keyed(db) && IsImage(db, root, i)
    ensures i.loaded && Loaded(db, root, i.projectId, Some(i.firmwareId)) == Ok(i)
  {
    var fws := db[i.projectId].firmwares;
    var k :| 0 <= k < |fws| && Loadable(fws[k]) && i == ImageOf(i.projectId, db[i.projectId], fws[k], root);
    WithIdIsFirst(fws, fws[k].id);
    SameId(fws, WithId(fws, fws[k].id).value, k);
    hide WithId, RootsOf, TranslatePath, CarvedBeside, UniqueIds;
    assert i.firmwareId == fws[k].id;
  }

  lemma SameId(fws: seq<Firmware>, fw: Firmware, k: nat)
    requires UniqueIds(fws) && k < |fws| && fw in fws && fw.id == fws[k].id
    ensures fw == fws[k]
  {
  }

  /**
   With the database unchanged since the earlier state was loaded, a switch onto missing paths puts that state back
   exactly if it was not blank. A blank one is not put back: the new project stays active, whatever the answer says.
   */
  lemma RevertRestores(db: Database, root: Option<string>, was: Image, id: Uuid, wanted: Option<Uuid>, found: Files)
    requires Keyed(db) && (was == BLANK || IsImage(db, root, was))
    requires SwitchedFrom(db, root, was, id, wanted, found).1.Missing?
    ensures SwitchedFrom(db, root, was, id, wanted, found).0 == was <==> was != BLANK
    ensures was == BLANK ==> Loaded(db, root, id, wanted) == Ok(SwitchedFrom(db, root, was, id, wanted, found).0)
  {
    LoadedIsImage(db, root, id, wanted);
    if was != BLANK {
      ImageLoadsAgain(db, root, was);
    } else {
      hide SelectFirmware, IsImage;
      assert Loaded(db, root, 0, None).Err?;
    }
  }

  /** After such a revert the answer names the path of the state put back, not the missing one. */
  lemma AnswerNamesTheOldPath(db: Database, root: Option<string>, was: Image, id: Uuid, wanted: Option<Uuid>,
      found: Files)
    requires Keyed(db) && IsImage(db, root, was)
    requires SwitchedFrom(db, root, was, id, wanted, found).1.Missing?
    ensures SwitchedFrom(db, root, was, id, wanted, found).1 == Missing(BadPath(was))
  {
    ImageLoadsAgain(db, root, was);
    hide Loaded, PathMissing, IsImage;
  }

  /** Refreshing against an unchanged database changes nothing. */
  lemma RefreshSettles(db: Database, root: Option<string>, was: Image)
    requires Keyed(db) && (was == BLANK || IsImage(db, root, was))
    ensures RefreshedFrom(db, root, was) == was
  {
    if was != BLANK {
      ImageLoadsAgain(db, root, was);
    } else {
      assert Loaded(db, root, 0, Some(0)).Err?;
    }
  }
}
