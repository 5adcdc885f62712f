/**
 The six migrations that extend the check on findings.source, walked up and down with findings inserted in between.
 Level k is the database after the first k of them: 1 lnk, 2 mft, 3 byovd_driver, 4 bcd, 5 wmi, 6 esp.
 */
module FindingsChain {
  import opened Wrappers

  datatype Source =
    | Manual | SecurityAudit | YaraScan | AttackSurface | SbomScan | HardwareFirmwareGraph | ApkManifestScan
    | ApkBytecodeScan | ApkMobsfscan | CweChecker | UefiScan | ClamavScan | VtScan | AbusechScan | Fuzzing
    | UnpackAudit | SecurityReview | AiDiscovered | WindowsAuthenticode | WindowsDbxRevoked
    | WindowsRegistryPersistence | WindowsInf | WindowsDriverImports | WindowsR2rStomp | WindowsIlCapa
    | WindowsSysmonProcCreate | WindowsLogonSuccess | WindowsLogonFailure | WindowsAmcacheInstall
    | WindowsPrefetchExecution | WindowsSrumNetworkActivity | WindowsSrumApplicationRuntime
    | WindowsPowershellScriptBlock | WindowsScheduledTaskPersistence
    | WindowsLnkAbnormalTarget
    | WindowsMftAdsHiddenContent | WindowsMftTimestomping
    | WindowsByovdDriver
    | WindowsBcdSuspiciousPath | WindowsBcdTestsigningEnabled
    | WindowsWmiPersistence
    | WindowsEspUnsigned | WindowsEspDbxRevoked

  const TOP: nat := 6

  // ---------------------------------------------------------------- what the migrations write out

  // The allowlists as the migrations write them, each in full: the parent of the first, and the six.

  function ScheduledTaskValues(): seq<Source> {
    [
      Manual, SecurityAudit, YaraScan, AttackSurface, SbomScan, HardwareFirmwareGraph, ApkManifestScan,
      ApkBytecodeScan, ApkMobsfscan, CweChecker, UefiScan, ClamavScan, VtScan, AbusechScan, Fuzzing, UnpackAudit,
      SecurityReview, AiDiscovered, WindowsAuthenticode, WindowsDbxRevoked, WindowsRegistryPersistence, WindowsInf,
      WindowsDriverImports, WindowsR2rStomp, WindowsIlCapa, WindowsSysmonProcCreate, WindowsLogonSuccess,
      WindowsLogonFailure, WindowsAmcacheInstall, WindowsPrefetchExecution, WindowsSrumNetworkActivity,
      WindowsSrumApplicationRuntime, WindowsPowershellScriptBlock, WindowsScheduledTaskPersistence
    ]
  }

  function LnkValues(): seq<Source> {
    [
      Manual, SecurityAudit, YaraScan, AttackSurface, SbomScan, HardwareFirmwareGraph, ApkManifestScan,
      ApkBytecodeScan, ApkMobsfscan, CweChecker, UefiScan, ClamavScan, VtScan, AbusechScan, Fuzzing, UnpackAudit,
      SecurityReview, AiDiscovered, WindowsAuthenticode, WindowsDbxRevoked, WindowsRegistryPersistence, WindowsInf,
      WindowsDriverImports, WindowsR2rStomp, WindowsIlCapa, WindowsSysmonProcCreate, WindowsLogonSuccess,
      WindowsLogonFailure, WindowsAmcacheInstall, WindowsPrefetchExecution, WindowsSrumNetworkActivity,
      WindowsSrumApplicationRuntime, WindowsPowershellScriptBlock, WindowsScheduledTaskPersistence,
      WindowsLnkAbnormalTarget
    ]
  }

  function MftValues(): seq<Source> {
    [
      Manual, SecurityAudit, YaraScan, AttackSurface, SbomScan, HardwareFirmwareGraph, ApkManifestScan,
      ApkBytecodeScan, ApkMobsfscan, CweChecker, UefiScan, ClamavScan, VtScan, AbusechScan, Fuzzing, UnpackAudit,
      SecurityReview, AiDiscovered, WindowsAuthenticode, WindowsDbxRevoked, WindowsRegistryPersistence, WindowsInf,
      WindowsDriverImports, WindowsR2rStomp, WindowsIlCapa, WindowsSysmonProcCreate, WindowsLogonSuccess,
      WindowsLogonFailure, WindowsAmcacheInstall, WindowsPrefetchExecution, WindowsSrumNetworkActivity,
      WindowsSrumApplicationRuntime, WindowsPowershellScriptBlock, WindowsScheduledTaskPersistence,
      WindowsLnkAbnormalTarget, WindowsMftAdsHiddenContent, WindowsMftTimestomping
    ]
  }

  function ByovdValues(): seq<Source> {
    [
      Manual, SecurityAudit, YaraScan, AttackSurface, SbomScan, HardwareFirmwareGraph, ApkManifestScan,
      ApkBytecodeScan, ApkMobsfscan, CweChecker, UefiScan, ClamavScan, VtScan, AbusechScan, Fuzzing, UnpackAudit,
      SecurityReview, AiDiscovered, WindowsAuthenticode, WindowsDbxRevoked, WindowsRegistryPersistence, WindowsInf,
      WindowsDriverImports, WindowsR2rStomp, WindowsIlCapa, WindowsSysmonProcCreate, WindowsLogonSuccess,
      WindowsLogonFailure, WindowsAmcacheInstall, WindowsPrefetchExecution, WindowsSrumNetworkActivity,
      WindowsSrumApplicationRuntime, WindowsPowershellScriptBlock, WindowsScheduledTaskPersistence,
      WindowsLnkAbnormalTarget, WindowsMftAdsHiddenContent, WindowsMftTimestomping, WindowsByovdDriver
    ]
  }

  function BcdValues(): seq<Source> {
    [
      Manual, SecurityAudit, YaraScan, AttackSurface, SbomScan, HardwareFirmwareGraph, ApkManifestScan,
      ApkBytecodeScan, ApkMobsfscan, CweChecker, UefiScan, ClamavScan, VtScan, AbusechScan, Fuzzing, UnpackAudit,
      SecurityReview, AiDiscovered, WindowsAuthenticode, WindowsDbxRevoked, WindowsRegistryPersistence, WindowsInf,
      WindowsDriverImports, WindowsR2rStomp, WindowsIlCapa, WindowsSysmonProcCreate, WindowsLogonSuccess,
      WindowsLogonFailure, WindowsAmcacheInstall, WindowsPrefetchExecution, WindowsSrumNetworkActivity,
      WindowsSrumApplicationRuntime, WindowsPowershellScriptBlock, WindowsScheduledTaskPersistence,
      WindowsLnkAbnormalTarget, WindowsMftAdsHiddenContent, WindowsMftTimestomping, WindowsByovdDriver,
      WindowsBcdSuspiciousPath, WindowsBcdTestsigningEnabled
    ]
  }

  function WmiValues(): seq<Source> {
    [
      Manual, SecurityAudit, YaraScan, AttackSurface, SbomScan, HardwareFirmwareGraph, ApkManifestScan,
      ApkBytecodeScan, ApkMobsfscan, CweChecker, UefiScan, ClamavScan, VtScan, AbusechScan, Fuzzing, UnpackAudit,
      SecurityReview, AiDiscovered, WindowsAuthenticode, WindowsDbxRevoked, WindowsRegistryPersistence, WindowsInf,
      WindowsDriverImports, WindowsR2rStomp, WindowsIlCapa, WindowsSysmonProcCreate, WindowsLogonSuccess,
      WindowsLogonFailure, WindowsAmcacheInstall, WindowsPrefetchExecution, WindowsSrumNetworkActivity,
      WindowsSrumApplicationRuntime, WindowsPowershellScriptBlock, WindowsScheduledTaskPersistence,
      WindowsLnkAbnormalTarget, WindowsMftAdsHiddenContent, WindowsMftTimestomping, WindowsByovdDriver,
      WindowsBcdSuspiciousPath, WindowsBcdTestsigningEnabled, WindowsWmiPersistence
    ]
  }

  function EspValues(): seq<Source> {
    [
      Manual, SecurityAudit, YaraScan, AttackSurface, SbomScan, HardwareFirmwareGraph, ApkManifestScan,
      ApkBytecodeScan, ApkMobsfscan, CweChecker, UefiScan, ClamavScan, VtScan, AbusechScan, Fuzzing, UnpackAudit,
      SecurityReview, AiDiscovered, WindowsAuthenticode, WindowsDbxRevoked, WindowsRegistryPersistence, WindowsInf,
      WindowsDriverImports, WindowsR2rStomp, WindowsIlCapa, WindowsSysmonProcCreate, WindowsLogonSuccess,
      WindowsLogonFailure, WindowsAmcacheInstall, WindowsPrefetchExecution, WindowsSrumNetworkActivity,
      WindowsSrumApplicationRuntime, WindowsPowershellScriptBlock, WindowsScheduledTaskPersistence,
      WindowsLnkAbnormalTarget, WindowsMftAdsHiddenContent, WindowsMftTimestomping, WindowsByovdDriver,
      WindowsBcdSuspiciousPath, WindowsBcdTestsigningEnabled, WindowsWmiPersistence, WindowsEspUnsigned,
      WindowsEspDbxRevoked
    ]
  }

  /** The allowlist of a level. */
  function NewSourceValues(level: nat): seq<Source> {
    match level
    case 0 => ScheduledTaskValues()
    case 1 => LnkValues()
    case 2 => MftValues()
    case 3 => ByovdValues()
    case 4 => BcdValues()
    case 5 => WmiValues()
    case _ => EspValues()
  }

  /** The sources a downgrade's UPDATE makes manual. */
  function Updated(level: nat): seq<Source> {
    match level
    case 1 => [WindowsLnkAbnormalTarget]
    case 2 => [WindowsMftAdsHiddenContent, WindowsMftTimestomping]
    case 3 => [WindowsByovdDriver]
    case 4 => [WindowsBcdSuspiciousPath, WindowsBcdTestsigningEnabled]
    case 5 => [WindowsWmiPersistence]
    case 6 => [WindowsEspUnsigned, WindowsEspDbxRevoked]
    case _ => []
  }

  /** The sources a downgrade leaves out of its allowlist. */
  function Filtered(level: nat): seq<Source> {
    match level
    case 1 => [WindowsLnkAbnormalTarget]
    case 2 => [WindowsMftAdsHiddenContent, WindowsMftTimestomping]
    case 3 => [WindowsByovdDriver]
    case 4 => [WindowsBcdSuspiciousPath, WindowsBcdTestsigningEnabled]
    case 5 => [WindowsWmiPersistence]
    case 6 => [WindowsEspUnsigned, WindowsEspDbxRevoked]
    case _ => []
  }

  function Without(values: seq<Source>, dropped: seq<Source>): seq<Source> {
    if values == [] then []
    else
      var rest := Without(values[..|values| - 1], dropped);
      if values[|values| - 1] in dropped then rest else rest + [values[|values| - 1]]
  }

  // ---------------------------------------------------------------- the table and its migrations

  datatype Table = Table(rows: seq<Source>, check: seq<Source>, level: nat)

  /** Creating a check fails if a row breaks it. */
  function CreateCheck(rows: seq<Source>, values: seq<Source>, level: nat): Result<Table, string> {
    if forall i :: 0 <= i < |rows| ==> rows[i] in values then Ok(Table(rows, values, level)) else Err("check violated")
  }

  function Upgrade(t: Table): Result<Table, string> {
    CreateCheck(t.rows, NewSourceValues(t.level + 1), t.level + 1)
  }

  function MadeManual(rows: seq<Source>, sources: seq<Source>): seq<Source> {
    seq(|rows|, i requires 0 <= i < |rows| => if rows[i] in sources then Manual else rows[i])
  }

  function Downgrade(t: Table): Result<Table, string>
    requires t.level > 0
  {
    CreateCheck(MadeManual(t.rows, Updated(t.level)), Without(NewSourceValues(t.level), Filtered(t.level)), t.level - 1)
  }

  function Insert(t: Table, source: Source): Result<Table, string> {
    if source in t.check then Ok(t.(rows := t.rows + [source])) else Err("check violated")
  }

  datatype Event = Up | Down | Add(source: Source)

  /**
   One step of a walk between the ends of the chain; an error stops the walk, but a refused insert is just refused.
   */
  function Step(t: Table, e: Event): Result<Table, string> {
    match e
    case Up => if t.level < TOP then Upgrade(t) else Ok(t)
    case Down => if t.level > 0 then Downgrade(t) else Ok(t)
    case Add(source) => if Insert(t, source).Ok? then Insert(t, source) else Ok(t)
  }

  function Walk(t: Table, events: seq<Event>): Result<Table, string> {
    if events == [] then Ok(t)
    else
      match Walk(t, events[..|events| - 1])
      case Err(e) => Err(e)
      case Ok(before) => Step(before, events[|events| - 1])
  }

  // ---------------------------------------------------------------- which lists a source is on

  /** The level a source arrives with. */
  function Since(s: Source): nat {
    match s
    case WindowsLnkAbnormalTarget => 1
    case WindowsMftAdsHiddenContent => 2
    case WindowsMftTimestomping => 2
    case WindowsByovdDriver => 3
    case WindowsBcdSuspiciousPath => 4
    case WindowsBcdTestsigningEnabled => 4
    case WindowsWmiPersistence => 5
    case WindowsEspUnsigned => 6
    case WindowsEspDbxRevoked => 6
    case _ => 0
  }

  // The first list in four parts.

  function FromScans(): seq<Source> {
    [
      Manual, SecurityAudit, YaraScan, AttackSurface, SbomScan, HardwareFirmwareGraph, ApkManifestScan,
      ApkBytecodeScan, ApkMobsfscan
    ]
  }

  function FromAnalysis(): seq<Source> {
    [
      CweChecker, UefiScan, ClamavScan, VtScan, AbusechScan, Fuzzing, UnpackAudit, SecurityReview, AiDiscovered
    ]
  }

  function FromImages(): seq<Source> {
    [
      WindowsAuthenticode, WindowsDbxRevoked, WindowsRegistryPersistence, WindowsInf, WindowsDriverImports,
      WindowsR2rStomp, WindowsIlCapa
    ]
  }

  function FromLogs(): seq<Source> {
    [
      WindowsSysmonProcCreate, WindowsLogonSuccess, WindowsLogonFailure, WindowsAmcacheInstall,
      WindowsPrefetchExecution, WindowsSrumNetworkActivity, WindowsSrumApplicationRuntime,
      WindowsPowershellScriptBlock, WindowsScheduledTaskPersistence
    ]
  }

  /** What each migration is meant to add: the sources of its own phase. */
  function Added(level: nat): seq<Source> {
    match level
    case 1 => [WindowsLnkAbnormalTarget]
    case 2 => [WindowsMftAdsHiddenContent, WindowsMftTimestomping]
    case 3 => [WindowsByovdDriver]
    case 4 => [WindowsBcdSuspiciousPath, WindowsBcdTestsigningEnabled]
    case 5 => [WindowsWmiPersistence]
    case 6 => [WindowsEspUnsigned, WindowsEspDbxRevoked]
    case _ => []
  }

  lemma FromScansAre(s: Source)
    ensures s in FromScans() <==>
      || s.Manual? || s.SecurityAudit? || s.YaraScan? || s.AttackSurface? || s.SbomScan? || s.HardwareFirmwareGraph?
      || s.ApkManifestScan? || s.ApkBytecodeScan? || s.ApkMobsfscan?
  {
  }

  lemma FromAnalysisAre(s: Source)
    ensures s in FromAnalysis() <==>
      || s.CweChecker? || s.UefiScan? || s.ClamavScan? || s.VtScan? || s.AbusechScan? || s.Fuzzing? || s.UnpackAudit?
      || s.SecurityReview? || s.AiDiscovered?
  {
  }

  lemma FromImagesAre(s: Source)
    ensures s in FromImages() <==>
      || s.WindowsAuthenticode? || s.WindowsDbxRevoked? || s.WindowsRegistryPersistence? || s.WindowsInf?
      || s.WindowsDriverImports? || s.WindowsR2rStomp? || s.WindowsIlCapa?
  {
  }

  lemma FromLogsAre(s: Source)
    ensures s in FromLogs() <==>
      || s.WindowsSysmonProcCreate? || s.WindowsLogonSuccess? || s.WindowsLogonFailure? || s.WindowsAmcacheInstall?
      || s.WindowsPrefetchExecution? || s.WindowsSrumNetworkActivity? || s.WindowsSrumApplicationRuntime?
      || s.WindowsPowershellScriptBlock? || s.WindowsScheduledTaskPersistence?
  {
  }

  lemma FirstListParts()
    ensures ScheduledTaskValues() == FromScans() + FromAnalysis() + FromImages() + FromLogs()
  {
  }

  lemma BaseSince(s: Source)
    ensures s in ScheduledTaskValues() <==> Since(s) == 0
  {
    FirstListParts();
    hide FromScans, FromAnalysis, FromImages, FromLogs, ScheduledTaskValues;
    FromScansAre(s);
    FromAnalysisAre(s);
    FromImagesAre(s);
    FromLogsAre(s);
  }

  lemma AddedSince(level: nat, s: Source)
    requires 1 <= level <= TOP
    ensures s in Added(level) <==> Since(s) == level
  {
  }

  lemma EarlyListsAgree()
    ensures LnkValues() == ScheduledTaskValues() + Added(1) && MftValues() == LnkValues() + Added(2)
  {
  }

  lemma MiddleListsAgree()
    ensures ByovdValues() == MftValues() + Added(3) && BcdValues() == ByovdValues() + Added(4)
  {
  }

  lemma LateListsAgree()
    ensures WmiValues() == BcdValues() + Added(5) && EspValues() == WmiValues() + Added(6)
  {
  }

  /**
   The lists written out agree: each migration's allowlist is its parent's with its own sources at the end, and its
   downgrade makes manual, and leaves out, exactly those.
   */
  lemma ListsAgree(level: nat)
    requires 1 <= level <= TOP
    ensures NewSourceValues(level) == NewSourceValues(level - 1) + Added(level)
    ensures Updated(level) == Added(level) && Filtered(level) == Added(level)
  {
    EarlyListsAgree();
    MiddleListsAgree();
    LateListsAgree();
    hide ScheduledTaskValues, LnkValues, MftValues, ByovdValues, BcdValues, WmiValues, EspValues;
  }

  /** The list at a level is exactly the sources that have arrived by then. */
  lemma {:induction false} ValuesSince(level: nat, s: Source)
    requires level <= TOP
    ensures s in NewSourceValues(level) <==> Since(s) <= level
  {
    hide Since, Added, ScheduledTaskValues, LnkValues, MftValues, ByovdValues, BcdValues, WmiValues, EspValues;
    if level == 0 {
      BaseSince(s);
    } else {
      ListsAgree(level);
      ValuesSince(level - 1, s);
      AddedSince(level, s);
    }
  }

  lemma {:induction false} WithoutSuffix(values: seq<Source>, dropped: seq<Source>, more: seq<Source>)
    requires forall v :: v in values ==> v !in dropped
    requires forall v :: v in more ==> v in dropped
    ensures Without(values + more, dropped) == values
  {
    var all := values + more;
    if more != [] {
      assert all[..|all| - 1] == values + more[..|more| - 1];
      WithoutSuffix(values, dropped, more[..|more| - 1]);
    } else if values != [] {
      assert all == values && values[..|values| - 1] + [] == values[..|values| - 1];
      WithoutSuffix(values[..|values| - 1], dropped, []);
    } else {
      assert all == [];
    }
  }

  /** What a downgrade leaves is its parent's list, in its order. */
  lemma DowngradeRestoresParent(level: nat)
    requires 1 <= level <= TOP
    ensures Without(NewSourceValues(level), Filtered(level)) == NewSourceValues(level - 1)
  {
    ListsAgree(level);
    hide Since, Added, NewSourceValues, Filtered;
    forall v | v in NewSourceValues(level - 1) ensures v !in Added(level) {
      ValuesSince(level - 1, v);
      AddedSince(level, v);
    }
    WithoutSuffix(NewSourceValues(level - 1), Added(level), Added(level));
  }

  // ---------------------------------------------------------------- walks

  ghost predicate Fits(t: Table) {
    && t.level <= TOP && t.check == NewSourceValues(t.level)
    && forall i :: 0 <= i < |t.rows| ==> Since(t.rows[i]) <= t.level
  }

  lemma RowsFit(rows: seq<Source>, level: nat)
    requires level <= TOP && forall i :: 0 <= i < |rows| ==> Since(rows[i]) <= level
    ensures CreateCheck(rows, NewSourceValues(level), level) == Ok(Table(rows, NewSourceValues(level), level))
  {
    hide Since, NewSourceValues;
    forall i | 0 <= i < |rows| ensures rows[i] in NewSourceValues(level) {
      ValuesSince(level, rows[i]);
    }
  }

  /** A source as the table holds it after the level has been as low as `lowest`. */
  function Kept(s: Source, lowest: nat): Source {
    if lowest < Since(s) then Manual else s
  }

  function AllKept(rows: seq<Source>, lowest: nat): seq<Source> {
    seq(|rows|, i requires 0 <= i < |rows| => Kept(rows[i], lowest))
  }

  lemma KeptFits(s: Source, level: nat)
    requires 1 <= level <= TOP && Since(s) <= level
    ensures Kept(s, level - 1) == (if s in Updated(level) then Manual else s) && Since(Kept(s, level - 1)) <= level - 1
  {
    ListsAgree(level);
    AddedSince(level, s);
    assert Since(Manual) == 0;
    hide Since, Added, Updated, NewSourceValues;
  }

  /** An upgrade changes no row and is never refused. */
  lemma UpgradeFits(t: Table)
    requires Fits(t) && t.level < TOP
    ensures Upgrade(t) == Ok(Table(t.rows, NewSourceValues(t.level + 1), t.level + 1)) && Fits(Upgrade(t).value)
  {
    hide Since, NewSourceValues;
    RowsFit(t.rows, t.level + 1);
  }

  /**
   A downgrade turns exactly its own sources' rows into manual ones, restores the parent's list and is never refused.
   */
  lemma DowngradeFits(t: Table)
    requires Fits(t) && t.level > 0
    ensures Downgrade(t) == Ok(Table(AllKept(t.rows, t.level - 1), NewSourceValues(t.level - 1), t.level - 1))
    ensures Fits(Downgrade(t).value)
  {
    hide Since, NewSourceValues, Without, Updated, Filtered, Kept;
    var rows := MadeManual(t.rows, Updated(t.level));
    forall i | 0 <= i < |t.rows| ensures rows[i] == Kept(t.rows[i], t.level - 1) && Since(rows[i]) <= t.level - 1 {
      KeptFits(t.rows[i], t.level);
    }
    assert rows == AllKept(t.rows, t.level - 1);
    DowngradeRestoresParent(t.level);
    RowsFit(rows, t.level - 1);
  }

  lemma InsertFits(t: Table, source: Source)
    requires Fits(t)
    ensures Insert(t, source).Ok? <==> Since(source) <= t.level
    ensures Insert(t, source).Ok? ==> Fits(Insert(t, source).value)
  {
    hide Since, NewSourceValues;
    ValuesSince(t.level, source);
  }

  lemma StepFits(t: Table, e: Event)
    requires Fits(t)
    ensures Step(t, e).Ok? && Fits(Step(t, e).value)
  {
    hide Since, NewSourceValues, Upgrade, Downgrade, Insert;
    match e
    case Up => if t.level < TOP { UpgradeFits(t); }
    case Down => if t.level > 0 { DowngradeFits(t); }
    case Add(source) => InsertFits(t, source);
  }

  /** No step of any walk is refused because of the rows that are there. */
  lemma {:induction false} WalksAreNeverRefused(t: Table, events: seq<Event>)
    requires Fits(t)
    ensures Walk(t, events).Ok? && Fits(Walk(t, events).value)
  {
    if events != [] {
      hide Step, Fits;
      WalksAreNeverRefused(t, events[..|events| - 1]);
      StepFits(Walk(t, events[..|events| - 1]).value, events[|events| - 1]);
    }
  }

  /** The level after a walk, and the lowest level it passed. */
  function Levels(level: nat, events: seq<Event>): (nat, nat) {
    if events == [] then (level, level)
    else
      var (now, lowest) := Levels(level, events[..|events| - 1]);
      match events[|events| - 1]
      case Up => (if now < TOP then now + 1 else now, lowest)
      case Down => if now > 0 then (now - 1, if now - 1 < lowest then now - 1 else lowest) else (now, lowest)
      case Add(_) => (now, lowest)
  }

  ghost predicate Grew(was: seq<Source>, rows: seq<Source>, lowest: nat) {
    |was| <= |rows| && forall i :: 0 <= i < |was| ==> rows[i] == Kept(was[i], lowest)
  }

  lemma KeptTwice(s: Source, low: nat, lower: nat)
    ensures Kept(Kept(s, low), lower) == Kept(s, if lower < low then lower else low)
  {
    assert Since(Manual) == 0;
    hide Since;
  }

  lemma StepGrows(was: seq<Source>, t: Table, lowest: nat, e: Event)
    requires Fits(t) && Grew(was, t.rows, lowest) && lowest <= t.level
    ensures Step(t, e).Ok?
    ensures Grew(was, Step(t, e).value.rows, if e.Down? && 0 < t.level <= lowest then t.level - 1 else lowest)
    ensures Step(t, e).value.level ==
      if e.Up? && t.level < TOP then t.level + 1 else if e.Down? && t.level > 0 then t.level - 1 else t.level
  {
    hide Since, NewSourceValues, Upgrade, Downgrade, Kept, Fits;
    StepFits(t, e);
    match e
    case Up => if t.level < TOP { UpgradeFits(t); }
    case Add(source) =>
    case Down =>
      if t.level > 0 {
        DowngradeFits(t);
        forall i | 0 <= i < |was|
          ensures Kept(Kept(was[i], lowest), t.level - 1)
            == Kept(was[i], if t.level - 1 < lowest then t.level - 1 else lowest)
        {
          KeptTwice(was[i], lowest, t.level - 1);
        }
      }
  }

  /**
   No row is ever lost, and a row has become manual exactly if the walk has been below the level its source arrives
   with; otherwise it keeps its source.
   */
  lemma {:induction false} RowsSurvive(t: Table, events: seq<Event>)
    requires Fits(t)
    ensures var r := Walk(t, events); var (now, lowest) := Levels(t.level, events);
      r.Ok? && r.value.level == now && lowest <= now && Grew(t.rows, r.value.rows, lowest)
  {
    if events == [] {
      hide Since;
    } else {
      var init := events[..|events| - 1];
      RowsSurvive(t, init);
      WalksAreNeverRefused(t, init);
      hide Fits, Step, Grew;
      StepGrows(t.rows, Walk(t, init).value, Levels(t.level, init).1, events[|events| - 1]);
    }
  }
}
