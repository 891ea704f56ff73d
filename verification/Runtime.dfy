/**
 The runtime manager (`scripts/enginery_runtime.py`): installing wheel runtimes, switching between
 them, and what faults and crashes at each step leave on disk.
 */
module Runtime {
  import opened Common

  // --- Runtime identifiers -------------------------------------------------------------------

  predicate Alphanumeric(c: char) {
    'A' <= c <= 'Z' || 'a' <= c <= 'z' || '0' <= c <= '9'
  }

  predicate VersionChar(c: char) {
    Alphanumeric(c) || c == '.' || c == '!' || c == '+' || c == '_'
  }

  /** `[A-Za-z0-9][A-Za-z0-9.!+_]*`, which `_wheel_details` demands of a version. */
  predicate SafeVersion(version: string) {
    version != "" && Alphanumeric(version[0]) && forall i | 0 <= i < |version| :: VersionChar(version[i])
  }

  predicate Hex(text: string) {
    forall i | 0 <= i < |text| :: '0' <= text[i] <= '9' || 'a' <= text[i] <= 'f'
  }

  /** The pattern `_runtime` demands: a version, a dash and twelve hexadecimal digits. */
  predicate ValidId(id: string) {
    && |id| > 13
    && SafeVersion(id[..|id| - 13])
    && id[|id| - 13] == '-'
    && Hex(id[|id| - 12..])
  }

  function RuntimeId(version: string, digest: string): string
    requires |digest| >= 12
  {
    version + "-" + digest[..12]
  }

  /** The identifier an install derives is one that loading the state accepts. */
  lemma RuntimeIdIsValid(version: string, digest: string)
    requires SafeVersion(version) && |digest| >= 12 && Hex(digest)
    ensures ValidId(RuntimeId(version, digest))
  {
    var id := RuntimeId(version, digest);
    assert id[..|id| - 13] == version;
    assert id[|id| - 12..] == digest[..12];
  }

  const HEX_DIGITS := "0123456789abcdef"
  const CAPITALS := "ABCDEFGHIJKLMNOPQRSTUVWXYZ"
  const SMALL_LETTERS := "abcdefghijklmnopqrstuvwxyz"
  const DECIMAL_DIGITS := "0123456789"
  const VERSION_MARKS := ".!+_"

  lemma HexDigitsExactly(c: char)
    ensures c in HEX_DIGITS <==> '0' <= c <= '9' || 'a' <= c <= 'f'
  {
    if '0' <= c <= '9' {
      assert HEX_DIGITS[c as int - '0' as int] == c;
    } else if 'a' <= c <= 'f' {
      assert HEX_DIGITS[10 + c as int - 'a' as int] == c;
    }
  }

  lemma CapitalsExactly(c: char)
    ensures c in CAPITALS <==> 'A' <= c <= 'Z'
  {
    if 'A' <= c <= 'Z' {
      assert CAPITALS[c as int - 'A' as int] == c;
    }
  }

  lemma SmallLettersExactly(c: char)
    ensures c in SMALL_LETTERS <==> 'a' <= c <= 'z'
  {
    if 'a' <= c <= 'z' {
      assert SMALL_LETTERS[c as int - 'a' as int] == c;
    }
  }

  lemma DecimalDigitsExactly(c: char)
    ensures c in DECIMAL_DIGITS <==> '0' <= c <= '9'
  {
    if '0' <= c <= '9' {
      assert DECIMAL_DIGITS[c as int - '0' as int] == c;
    }
  }

  predicate LetterOrDigit(c: char) {
    c in CAPITALS || c in SMALL_LETTERS || c in DECIMAL_DIGITS
  }

  lemma LetterOrDigitExactly(c: char)
    ensures LetterOrDigit(c) <==> Alphanumeric(c)
  {
    CapitalsExactly(c);
    SmallLettersExactly(c);
    DecimalDigitsExactly(c);
  }

  /** A version and twelve digits of a digest, spelled in these alphabets. */
  predicate Spelled(version: string, digits: string) {
    && version != "" && LetterOrDigit(version[0])
    && (forall i | 0 <= i < |version| :: LetterOrDigit(version[i]) || version[i] in VERSION_MARKS)
    && |digits| == 12 && forall i | 0 <= i < |digits| :: digits[i] in HEX_DIGITS
  }

  lemma SpelledExactly(version: string, digits: string)
    ensures Spelled(version, digits) <==> SafeVersion(version) && |digits| == 12 && Hex(digits)
  {
    forall c ensures LetterOrDigit(c) || c in VERSION_MARKS <==> VersionChar(c) {
      LetterOrDigitExactly(c);
      assert c in VERSION_MARKS <==> c == '.' || c == '!' || c == '+' || c == '_' by {
        assert VERSION_MARKS[0] == '.' && VERSION_MARKS[1] == '!' && VERSION_MARKS[2] == '+' && VERSION_MARKS[3] == '_';
      }
    }
    forall c ensures c in HEX_DIGITS <==> '0' <= c <= '9' || 'a' <= c <= 'f' {
      HexDigitsExactly(c);
    }
    if version != "" {
      LetterOrDigitExactly(version[0]);
    }
  }

  lemma ValidIdParts(id: string, version: string, digits: string)
    requires |digits| == 12 && id == version + "-" + digits
    ensures ValidId(id) <==> SafeVersion(version) && Hex(digits)
  {
    assert id[..|id| - 13] == version && id[|id| - 12..] == digits;
    assert id[|id| - 13] == '-';
  }

  /** An identifier is valid exactly when it is such a version, a dash and such digits. */
  lemma ValidIdExactly(id: string)
    ensures ValidId(id) <==> exists version, digits :: Spelled(version, digits) && id == version + "-" + digits
  {
    if ValidId(id) {
      var version, digits := id[..|id| - 13], id[|id| - 12..];
      assert id == version + "-" + digits;
      assert Spelled(version, digits) by {
        SpelledExactly(version, digits);
      }
    }
    if version, digits :| Spelled(version, digits) && id == version + "-" + digits {
      assert ValidId(id) by {
        SpelledExactly(version, digits);
        ValidIdParts(id, version, digits);
      }
    }
  }

  // --- The disk ------------------------------------------------------------------------------

  datatype State = State(current: Option<string>, history: seq<string>)

  /** `state.json`: absent, what some tool wrote, or text that is not such an object. */
  datatype StateFile = Absent | Written(current: string, history: seq<string>) | Garbage

  datatype Shim = NoShim | PointsTo(id: string) | Unmanaged

  /** Runtime directories and whether each holds a finished runtime (executable and receipt). */
  datatype Disk = Disk(stateFile: StateFile, shim: Shim, runtimes: map<string, bool>)

  predicate NoDuplicates(ids: seq<string>) {
    forall i, j | 0 <= i < j < |ids| :: ids[i] != ids[j]
  }

  function EntriesOf(file: StateFile): seq<string> {
    match file
    case Written(current, history) => [current] + history
    case _ => []
  }

  /** `_load_state`; `None` is a refusal. */
  function Load(file: StateFile): Option<State> {
    match file
    case Absent => Some(State(None, []))
    case Garbage => None
    case Written(current, history) =>
      var ids := [current] + history;
      if (forall i | 0 <= i < |ids| :: ValidId(ids[i])) && NoDuplicates(ids) then Some(State(Some(current), history))
      else None
  }

  predicate Finished(d: Disk, id: string) {
    id in d.runtimes && d.runtimes[id]
  }

  /** What the tool promises about its own files. */
  ghost predicate Valid(d: Disk) {
    && Load(d.stateFile).Some?
    && (forall i | 0 <= i < |EntriesOf(d.stateFile)| :: Finished(d, EntriesOf(d.stateFile)[i]))
    && (d.shim.PointsTo? ==> d.shim.id in EntriesOf(d.stateFile))
  }

  // --- Activation ----------------------------------------------------------------------------

  /**
   Where an activation stops, if it does, with an exception or an interrupt that the handlers catch, or
   because the process dies (`crashes`). An interrupt that arrives during a rename is raised after it.
   */
  datatype Fault =
    | NoFault
    | StopsBefore(crashes: bool)       // neither the state nor the shim is replaced
    | StopsBetween(crashes: bool)      // the state is replaced, the handler that restores it not in force
    | StopsAtShim(replaced: bool, restored: bool, crashes: bool)
                                       // at the shim, replaced or not; then the old state is restored or not
    | StopsAfter(crashes: bool)        // both are replaced

  /** The state file is the new one where the activation stopped. */
  predicate StateIsNew(fault: Fault) {
    fault.NoFault? || fault.StopsBetween? || fault.StopsAfter? || (fault.StopsAtShim? && !fault.restored)
  }

  predicate ShimIsNew(fault: Fault) {
    fault.NoFault? || fault.StopsAfter? || (fault.StopsAtShim? && fault.replaced)
  }

  datatype Result = Done | Refused | Failed | Crashed

  datatype Outcome = Outcome(disk: Disk, result: Result)

  function Activate(d: Disk, current: string, history: seq<string>, fault: Fault): Outcome {
    if !Finished(d, current) then Outcome(d, Refused)
    else
      var stateFile := if StateIsNew(fault) then Written(current, history) else d.stateFile;
      var shim := if ShimIsNew(fault) then PointsTo(current) else d.shim;
      Outcome(Disk(stateFile, shim, d.runtimes),
        if fault.NoFault? then Done else if fault.crashes then Crashed else Failed)
  }

  // --- Install -------------------------------------------------------------------------------

  /** How far building the new runtime gets. */
  datatype Build = Built | BuildFails | BuildCrashes

  function Without(d: Disk, id: string): Disk {
    d.(runtimes := d.runtimes - {id})
  }

  /** How removing the new directory goes; `whole` says that what is left is still a finished runtime. */
  datatype Removal = Removed | RemovalFails(whole: bool) | RemovalCrashes(whole: bool)

  function Left(d: Disk, id: string, whole: bool): Disk
    requires id in d.runtimes
  {
    d.(runtimes := d.runtimes[id := d.runtimes[id] && whole])
  }

  /** The handler of a failed install. */
  function CleanUp(d: Disk, id: string, removal: Removal): Outcome
    requires id in d.runtimes
  {
    match removal
    case Removed => Outcome(Without(d, id), Failed)
    case RemovalFails(whole) => Outcome(Left(d, id, whole), Failed)
    case RemovalCrashes(whole) => Outcome(Left(d, id, whole), Crashed)
  }

  /** One attempt: the wheel's version and digest, the confirmation, and what goes wrong. */
  datatype Attempt = Attempt(
    version: string, digest: string, confirmed: bool, build: Build, fault: Fault, removal: Removal)

  predicate Admitted(d: Disk, a: Attempt) {
    && !d.shim.Unmanaged?
    && SafeVersion(a.version) && |a.digest| >= 12 && Hex(a.digest) && a.confirmed
    && Load(d.stateFile).Some?
    && RuntimeId(a.version, a.digest) !in d.runtimes
  }

  function Install(d: Disk, a: Attempt): Outcome {
    if !Admitted(d, a) then Outcome(d, Refused)
    else
      var id := RuntimeId(a.version, a.digest);
      var made := d.(runtimes := d.runtimes[id := false]);
      match a.build
      case BuildCrashes => Outcome(made, Crashed)
      case BuildFails => CleanUp(made, id, a.removal)
      case Built =>
        var switched := Activate(made.(runtimes := made.runtimes[id := true]), id, EntriesOf(d.stateFile), a.fault);
        if switched.result.Done? || switched.result.Crashed? then switched
        else CleanUp(switched.disk, id, a.removal)
  }

  /** The directory of a failed install is still a finished runtime after its removal. */
  predicate LeftWhole(removal: Removal) {
    !removal.Removed? && removal.whole
  }

  /** The install stops in the activation and leaves the state or the shim other than it found them. */
  predicate LeavesANewName(d: Disk, a: Attempt) {
    && Admitted(d, a) && a.build.Built? && !a.fault.NoFault?
    && (StateIsNew(a.fault) || (ShimIsNew(a.fault) && d.shim != PointsTo(RuntimeId(a.version, a.digest))))
  }

  /**
   The install stops in the activation with the new shim and the old state, or with the new state and
   then takes away the runtime that state names.
   */
  predicate BreaksTheState(d: Disk, a: Attempt) {
    && Admitted(d, a) && a.build.Built? && !a.fault.NoFault?
    && (if StateIsNew(a.fault) then !a.fault.crashes && !LeftWhole(a.removal) else ShimIsNew(a.fault))
  }

  lemma PrependKeepsDistinct(id: string, ids: seq<string>)
    requires NoDuplicates(ids) && id !in ids
    ensures NoDuplicates([id] + ids)
  {
  }

  /** A state whose entries are finished runtimes stays valid when a new one is put in front. */
  lemma PushKeepsValid(d: Disk, id: string, shim: Shim)
    requires Valid(d) && ValidId(id) && id !in d.runtimes
    requires shim == d.shim || shim == PointsTo(id)
    ensures Valid(Disk(Written(id, EntriesOf(d.stateFile)), shim, d.runtimes[id := true]))
  {
    var ids := EntriesOf(d.stateFile);
    assert id !in ids by {
      forall i | 0 <= i < |ids| ensures ids[i] != id {
        assert Finished(d, ids[i]);
      }
    }
    EntriesAreLoadable(d.stateFile);
    PrependKeepsDistinct(id, ids);
    assert forall i | 0 <= i < |ids| :: Finished(d, ids[i]);
  }

  lemma EntriesAreLoadable(file: StateFile)
    requires Load(file).Some?
    ensures NoDuplicates(EntriesOf(file)) && forall i | 0 <= i < |EntriesOf(file)| :: ValidId(EntriesOf(file)[i])
  {
  }

  lemma ExtraDirectoryKeepsValid(d: Disk, id: string, finished: bool)
    requires Valid(d) && id !in d.runtimes
    ensures Valid(d.(runtimes := d.runtimes[id := finished]))
  {
    var ids := EntriesOf(d.stateFile);
    forall i | 0 <= i < |ids| ensures Finished(d.(runtimes := d.runtimes[id := finished]), ids[i]) {
      assert Finished(d, ids[i]);
    }
  }

  lemma RemoveAddedDirectory(d: Disk, id: string, finished: bool)
    requires id !in d.runtimes
    ensures d.runtimes[id := finished] - {id} == d.runtimes
  {
  }

  lemma NewStateDiffers(d: Disk, id: string)
    ensures Written(id, EntriesOf(d.stateFile)) != d.stateFile
  {
    if d.stateFile.Written? {
      assert |EntriesOf(d.stateFile)| == |d.stateFile.history| + 1;
    }
  }

  /** A refused install changes nothing, a failed one exactly when state, shim and directory are as before. */
  lemma FailedInstallChangesNothing(d: Disk, a: Attempt)
    ensures Install(d, a).result.Refused? ==> Install(d, a).disk == d
    ensures Install(d, a).result.Failed? ==> (Install(d, a).disk == d <==> a.removal.Removed? && !LeavesANewName(d, a))
  {
    if Admitted(d, a) {
      var id := RuntimeId(a.version, a.digest);
      assert d.runtimes[id := false][id := true] == d.runtimes[id := true];
      RemoveAddedDirectory(d, id, false);
      RemoveAddedDirectory(d, id, true);
      NewStateDiffers(d, id);
      if !a.removal.Removed? {
        assert Install(d, a).result.Failed? ==> id in Install(d, a).disk.runtimes;
      }
    }
  }

  /** The new shim with the old state: the shim points at a runtime the state does not name. */
  lemma StrayShimIsInvalid(d: Disk, id: string, runtimes: map<string, bool>)
    requires Valid(d) && id !in d.runtimes
    ensures !Valid(Disk(d.stateFile, PointsTo(id), runtimes))
  {
    forall i | 0 <= i < |EntriesOf(d.stateFile)| ensures EntriesOf(d.stateFile)[i] != id {
      assert Finished(d, EntriesOf(d.stateFile)[i]);
    }
  }

  /** The new state without the runtime it names. */
  lemma UnfinishedCurrentIsInvalid(d: Disk, id: string, history: seq<string>)
    requires d.stateFile == Written(id, history) && !Finished(d, id)
    ensures !Valid(d)
  {
    assert EntriesOf(d.stateFile)[0] == id;
  }

  lemma BreakingInstallIsInvalid(d: Disk, a: Attempt)
    requires Valid(d) && BreaksTheState(d, a)
    ensures !Valid(Install(d, a).disk)
  {
    var o := Install(d, a);
    var id := RuntimeId(a.version, a.digest);
    if StateIsNew(a.fault) {
      UnfinishedCurrentIsInvalid(o.disk, id, EntriesOf(d.stateFile));
    } else {
      StrayShimIsInvalid(d, id, o.disk.runtimes);
    }
  }

  lemma OtherInstallIsValid(d: Disk, a: Attempt)
    requires Valid(d) && Admitted(d, a) && !BreaksTheState(d, a)
    ensures Valid(Install(d, a).disk)
  {
    var o := Install(d, a);
    var id := RuntimeId(a.version, a.digest);
    RuntimeIdIsValid(a.version, a.digest);
    RemoveAddedDirectory(d, id, false);
    RemoveAddedDirectory(d, id, true);
    assert d.runtimes[id := false][id := true] == d.runtimes[id := true];
    assert d.runtimes[id := true][id := false] == d.runtimes[id := false];
    assert d.runtimes[id := false][id := false] == d.runtimes[id := false];
    assert d.runtimes[id := true][id := true] == d.runtimes[id := true];
    PushKeepsValid(d, id, d.shim);
    PushKeepsValid(d, id, PointsTo(id));
    ExtraDirectoryKeepsValid(d, id, false);
    ExtraDirectoryKeepsValid(d, id, true);
  }

  /** An install keeps the tool's files consistent exactly when it does not break the state. */
  lemma InstallKeepsExactly(d: Disk, a: Attempt)
    requires Valid(d)
    ensures Valid(Install(d, a).disk) <==> !BreaksTheState(d, a)
  {
    if BreaksTheState(d, a) {
      BreakingInstallIsInvalid(d, a);
    } else if Admitted(d, a) {
      OtherInstallIsValid(d, a);
    }
  }

  const EMPTY_DISK := Disk(Absent, NoShim, map[])

  /** An interrupted first install: the shim is replaced, the state restored and the runtime removed. */
  const INTERRUPTED := Attempt("1", "0123456789ab", true, Built, StopsAtShim(true, true, false), Removed)

  /** The interrupt arrives during the rename of the shim; what is left is a shim that points nowhere. */
  lemma InterruptedRenameBreaksTheState()
    ensures Valid(EMPTY_DISK) && Install(EMPTY_DISK, INTERRUPTED).result.Failed?
    ensures Install(EMPTY_DISK, INTERRUPTED).disk == Disk(Absent, PointsTo("1-0123456789ab"), map[])
    ensures !Valid(Install(EMPTY_DISK, INTERRUPTED).disk)
  {
    var id := RuntimeId("1", "0123456789ab");
    assert id == "1-0123456789ab";
    RemoveAddedDirectory(EMPTY_DISK, id, true);
    assert EMPTY_DISK.runtimes[id := false][id := true] == EMPTY_DISK.runtimes[id := true];
    InstallKeepsExactly(EMPTY_DISK, INTERRUPTED);
  }

  /** The state file is missing, or names identifiers that are valid and all different. */
  ghost predicate Readable(file: StateFile) {
    && file != Garbage
    && (file.Written? ==>
          var ids := [file.current] + file.history;
          && (forall i | 0 <= i < |ids| :: ValidId(ids[i]))
          && (forall i, j | 0 <= i < j < |ids| :: ids[i] != ids[j]))
  }

  /** Whatever the disk holds, an install is refused exactly for a bad wheel, shim, state or target. */
  lemma InstallRefusesExactly(d: Disk, a: Attempt)
    ensures Install(d, a).result.Refused? <==>
            || !SafeVersion(a.version) || |a.digest| < 12 || !Hex(a.digest) || !a.confirmed
            || d.shim == Unmanaged || !Readable(d.stateFile) || a.version + "-" + a.digest[..12] in d.runtimes
    ensures Install(d, a).result.Refused? ==> Install(d, a).disk == d
  {
    assert Load(d.stateFile).Some? <==> Readable(d.stateFile);
  }

  /** An install goes through exactly when nothing is in its way, and then the new runtime is in front. */
  lemma InstallDoneExactly(d: Disk, a: Attempt)
    requires Valid(d)
    ensures Install(d, a).result.Done? <==>
            && SafeVersion(a.version) && |a.digest| >= 12 && Hex(a.digest) && a.confirmed
            && d.shim != Unmanaged && a.version + "-" + a.digest[..12] !in d.runtimes
            && a.build == Built && a.fault == NoFault
    ensures Install(d, a).result.Done? ==>
              var id := a.version + "-" + a.digest[..12];
              var n := Install(d, a).disk;
              && n.shim == PointsTo(id) && n.runtimes == d.runtimes[id := true]
              && n.stateFile ==
                 Written(id, if d.stateFile.Written? then [d.stateFile.current] + d.stateFile.history else [])
  {
    if |a.digest| >= 12 {
      var id := RuntimeId(a.version, a.digest);
      assert d.runtimes[id := false][id := true] == d.runtimes[id := true];
    }
  }

  // --- Rollback ------------------------------------------------------------------------------

  datatype Ledger = Unreadable | Schema(version: int)

  datatype LedgerFile = LedgerFile(path: string, ledger: Ledger)

  /** A ledger the target runtime could not use. */
  predicate Blocks(f: LedgerFile, supported: int) {
    f.ledger.Unreadable? || f.ledger.version > supported
  }

  function Blocking(ledgers: seq<LedgerFile>, supported: int): seq<string> {
    if ledgers == [] then []
    else (if Blocks(ledgers[0], supported) then [ledgers[0].path] else []) + Blocking(ledgers[1..], supported)
  }

  lemma {:induction false} BlockingParts(a: seq<LedgerFile>, b: seq<LedgerFile>, supported: int)
    ensures Blocking(a + b, supported) == Blocking(a, supported) + Blocking(b, supported)
  {
    if a == [] {
      assert a + b == b;
    } else {
      assert (a + b)[1..] == a[1..] + b;
      BlockingParts(a[1..], b, supported);
    }
  }

  lemma {:induction false} BlockedPathsExactly(ledgers: seq<LedgerFile>, supported: int, path: string)
    ensures path in Blocking(ledgers, supported) <==>
            exists i | 0 <= i < |ledgers| ::
              && ledgers[i].path == path
              && (ledgers[i].ledger.Unreadable? || supported < ledgers[i].ledger.version)
  {
    if ledgers != [] {
      BlockedPathsExactly(ledgers[1..], supported, path);
      assert forall i | 0 < i < |ledgers| :: ledgers[i] == ledgers[1..][i - 1];
    }
  }

  lemma {:induction false} BlockingExactly(ledgers: seq<LedgerFile>, supported: int)
    ensures Blocking(ledgers, supported) == [] <==>
            forall i | 0 <= i < |ledgers| :: ledgers[i].ledger.Schema? && ledgers[i].ledger.version <= supported
    ensures forall path :: path in Blocking(ledgers, supported) <==>
              exists i | 0 <= i < |ledgers| ::
                && ledgers[i].path == path
                && (ledgers[i].ledger.Unreadable? || supported < ledgers[i].ledger.version)
  {
    forall path
      ensures path in Blocking(ledgers, supported) <==>
              exists i | 0 <= i < |ledgers| ::
                && ledgers[i].path == path
                && (ledgers[i].ledger.Unreadable? || supported < ledgers[i].ledger.version)
    {
      BlockedPathsExactly(ledgers, supported, path);
    }
    if Blocking(ledgers, supported) != [] {
      assert Blocking(ledgers, supported)[0] in Blocking(ledgers, supported);
    }
    forall i | 0 <= i < |ledgers| && (ledgers[i].ledger.Unreadable? || supported < ledgers[i].ledger.version)
      ensures Blocking(ledgers, supported) != []
    {
      assert ledgers[i].path in Blocking(ledgers, supported);
    }
  }

  /** The inspection loop reports every bad ledger, not just the first. */
  method InspectLedgers(ledgers: seq<LedgerFile>, supported: int) returns (problems: seq<string>)
    ensures problems == Blocking(ledgers, supported)
    ensures problems == [] <==>
            forall i | 0 <= i < |ledgers| :: ledgers[i].ledger.Schema? && ledgers[i].ledger.version <= supported
    ensures forall path :: path in problems <==>
              exists i | 0 <= i < |ledgers| ::
                && ledgers[i].path == path
                && (ledgers[i].ledger.Unreadable? || supported < ledgers[i].ledger.version)
  {
    problems := [];
    for n := 0 to |ledgers|
      invariant problems == Blocking(ledgers[..n], supported)
    {
      assert ledgers[..n + 1] == ledgers[..n] + [ledgers[n]];
      BlockingParts(ledgers[..n], [ledgers[n]], supported);
      assert [ledgers[n]][1..] == [];
      if Blocks(ledgers[n], supported) {
        problems := problems + [ledgers[n].path];
      }
    }
    assert ledgers[..|ledgers|] == ledgers;
    BlockingExactly(ledgers, supported);
  }

  /** The state a rollback switches to: the newest retained runtime and the current one trade places. */
  function Exchanged(s: State): State
    requires s.current.Some? && s.history != []
  {
    State(Some(s.history[0]), [s.current.value] + s.history[1..])
  }

  function Rollback(d: Disk, ledgers: seq<LedgerFile>, supported: int, fault: Fault): Outcome {
    var loaded := Load(d.stateFile);
    if loaded.None? || loaded.value.current.None? || loaded.value.history == [] then Outcome(d, Refused)
    else if d.shim.Unmanaged? || !Finished(d, loaded.value.history[0]) then Outcome(d, Refused)
    else if Blocking(ledgers, supported) != [] then Outcome(d, Refused)
    else
      var next := Exchanged(loaded.value);
      Activate(d, next.current.value, next.history, fault)
  }

  lemma ExchangeTwice(s: State)
    requires s.current.Some? && s.history != []
    ensures Exchanged(Exchanged(s)) == s
    ensures multiset([Exchanged(s).current.value] + Exchanged(s).history) == multiset([s.current.value] + s.history)
  {
    var t := Exchanged(s);
    assert t.history[1..] == s.history[1..];
    assert s.history == [s.history[0]] + s.history[1..];
    assert [s.current.value] + s.history == [s.current.value] + [s.history[0]] + s.history[1..];
    assert [t.current.value] + t.history == [s.history[0]] + [s.current.value] + s.history[1..];
  }

  function Swapped(ids: seq<string>): seq<string>
    requires |ids| >= 2
  {
    [ids[1], ids[0]] + ids[2..]
  }

  lemma SwappedKeeps(ids: seq<string>)
    requires |ids| >= 2
    ensures |Swapped(ids)| == |ids| && forall id :: id in Swapped(ids) <==> id in ids
    ensures NoDuplicates(ids) ==> NoDuplicates(Swapped(ids))
  {
    assert ids == [ids[0], ids[1]] + ids[2..];
  }

  lemma ExchangeKeepsValid(d: Disk, shim: Shim)
    requires Valid(d) && Load(d.stateFile).value.current.Some? && Load(d.stateFile).value.history != []
    requires shim == d.shim || shim == PointsTo(Load(d.stateFile).value.history[0])
    ensures var t := Exchanged(Load(d.stateFile).value);
            Valid(Disk(Written(t.current.value, t.history), shim, d.runtimes))
  {
    var s := Load(d.stateFile).value;
    var t := Exchanged(s);
    var was, ids := EntriesOf(d.stateFile), [t.current.value] + t.history;
    assert was == [s.current.value] + s.history && ids == Swapped(was);
    EntriesAreLoadable(d.stateFile);
    SwappedKeeps(was);
    forall i | 0 <= i < |ids| ensures ValidId(ids[i]) && Finished(d, ids[i]) {
      assert ids[i] in ids;
      var k :| 0 <= k < |was| && was[k] == ids[i];
    }
  }

  /** A rollback keeps the tool's files consistent whatever fault or crash it meets. */
  lemma RollbackKeepsValid(d: Disk, ledgers: seq<LedgerFile>, supported: int, fault: Fault)
    requires Valid(d)
    ensures Valid(Rollback(d, ledgers, supported, fault).disk)
    ensures Rollback(d, ledgers, supported, fault).disk.runtimes == d.runtimes
  {
    var o := Rollback(d, ledgers, supported, fault);
    if o.disk != d {
      ExchangeKeepsValid(d, o.disk.shim);
    }
  }

  /** A rollback switches only past ledgers the target can use, and otherwise changes nothing. */
  lemma RollbackGuards(d: Disk, ledgers: seq<LedgerFile>, supported: int, fault: Fault)
    ensures Rollback(d, ledgers, supported, fault).disk != d ==>
              forall i | 0 <= i < |ledgers| :: ledgers[i].ledger.Schema? && ledgers[i].ledger.version <= supported
    ensures Rollback(d, ledgers, supported, fault).result.Refused? ==> Rollback(d, ledgers, supported, fault).disk == d
  {
    BlockingExactly(ledgers, supported);
  }

  /**
   On a consistent disk a rollback goes through exactly when there is a current runtime and one before
   it, the shim is the tool's own, and every ledger can be read and has a schema the older runtime
   supports; it then exchanges the two.
   */
  lemma RollbackDoneExactly(d: Disk, ledgers: seq<LedgerFile>, supported: int)
    requires Valid(d)
    ensures Rollback(d, ledgers, supported, NoFault).result.Done? <==>
            && d.stateFile.Written? && d.stateFile.history != [] && d.shim != Unmanaged
            && forall i | 0 <= i < |ledgers| :: ledgers[i].ledger.Schema? && ledgers[i].ledger.version <= supported
    ensures Rollback(d, ledgers, supported, NoFault).result.Done? ==>
              var was := d.stateFile;
              Rollback(d, ledgers, supported, NoFault).disk ==
              Disk(Written(was.history[0], [was.current] + was.history[1..]), PointsTo(was.history[0]), d.runtimes)
  {
    BlockingExactly(ledgers, supported);
    if d.stateFile.Written? && d.stateFile.history != [] {
      assert Finished(d, EntriesOf(d.stateFile)[1]);
    }
  }

  /** Two rollbacks in a row restore state and shim, and every retained runtime is still there. */
  lemma RollbackIsAnInvolution(
    d: Disk, ledgers: seq<LedgerFile>, supported: int, others: seq<LedgerFile>,
    backSupported: int)
    requires Valid(d) && Load(d.stateFile).value.current.Some? && Load(d.stateFile).value.history != []
    requires d.shim == PointsTo(Load(d.stateFile).value.current.value)
    requires forall i | 0 <= i < |ledgers| :: ledgers[i].ledger.Schema? && ledgers[i].ledger.version <= supported
    requires forall i | 0 <= i < |others| :: others[i].ledger.Schema? && others[i].ledger.version <= backSupported
    ensures var once := Rollback(d, ledgers, supported, NoFault);
            && once.result.Done?
            && once.disk.shim == PointsTo(Load(d.stateFile).value.history[0])
            && Rollback(once.disk, others, backSupported, NoFault) == Outcome(d, Done)
  {
    var s := Load(d.stateFile).value;
    assert EntriesOf(d.stateFile) == [s.current.value] + s.history;
    assert Finished(d, EntriesOf(d.stateFile)[0]) && Finished(d, EntriesOf(d.stateFile)[1]);
    BlockingExactly(ledgers, supported);
    BlockingExactly(others, backSupported);
    var once := Rollback(d, ledgers, supported, NoFault);
    ExchangeKeepsValid(d, once.disk.shim);
    ExchangeTwice(s);
  }

  // --- Runs of the tool ----------------------------------------------------------------------

  datatype Command =
    | InstallCommand(attempt: Attempt)
    | RollbackCommand(ledgers: seq<LedgerFile>, supported: int, fault: Fault)

  function Performed(d: Disk, c: Command): Outcome {
    match c
    case InstallCommand(attempt) => Install(d, attempt)
    case RollbackCommand(ledgers, supported, fault) => Rollback(d, ledgers, supported, fault)
  }

  function {:tailrecursion false} DiskAfter(d: Disk, commands: seq<Command>): Disk
    decreases |commands|
  {
    if commands == [] then d else DiskAfter(Performed(d, commands[0]).disk, commands[1..])
  }

  ghost predicate NeverBreaksTheState(d: Disk, commands: seq<Command>)
    decreases |commands|
  {
    commands == [] ||
    (!(commands[0].InstallCommand? && BreaksTheState(d, commands[0].attempt))
     && NeverBreaksTheState(Performed(d, commands[0]).disk, commands[1..]))
  }

  lemma ValidMeans(d: Disk)
    requires Valid(d)
    ensures d.stateFile != Garbage
    ensures d.stateFile.Written? ==>
              var ids := [d.stateFile.current] + d.stateFile.history;
              && (forall i | 0 <= i < |ids| :: ids[i] in d.runtimes && d.runtimes[ids[i]])
              && (forall i, j | 0 <= i < j < |ids| :: ids[i] != ids[j])
              && (d.shim.PointsTo? ==> d.shim.id in ids)
    ensures d.stateFile.Absent? ==> !d.shim.PointsTo?
  {
    if d.stateFile.Written? {
      var ids := [d.stateFile.current] + d.stateFile.history;
      assert ids == EntriesOf(d.stateFile);
      forall i | 0 <= i < |ids| ensures ids[i] in d.runtimes && d.runtimes[ids[i]] {
        assert Finished(d, EntriesOf(d.stateFile)[i]);
      }
    }
  }

  /**
   Over any run of installs and rollbacks with failures and crashes at every step, short of an install
   that breaks the state: the state loads, its entries are distinct finished runtimes, and the shim
   is absent, foreign, or points at one of them.
   */
  lemma {:induction false} EveryRunKeepsValid(d: Disk, commands: seq<Command>)
    requires Valid(d) && NeverBreaksTheState(d, commands)
    ensures Valid(DiskAfter(d, commands))
    ensures var n := DiskAfter(d, commands);
            && n.stateFile != Garbage
            && (n.stateFile.Written? ==>
                  var ids := [n.stateFile.current] + n.stateFile.history;
                  && (forall i | 0 <= i < |ids| :: ids[i] in n.runtimes && n.runtimes[ids[i]])
                  && (forall i, j | 0 <= i < j < |ids| :: ids[i] != ids[j])
                  && (n.shim.PointsTo? ==> n.shim.id in ids))
            && (n.stateFile.Absent? ==> !n.shim.PointsTo?)
    decreases |commands|
  {
    if commands != [] {
      match commands[0] {
        case InstallCommand(attempt) => InstallKeepsExactly(d, attempt);
        case RollbackCommand(ledgers, supported, fault) => RollbackKeepsValid(d, ledgers, supported, fault);
      }
      EveryRunKeepsValid(Performed(d, commands[0]).disk, commands[1..]);
    } else {
      ValidMeans(d);
    }
  }

  // --- The manager as an object over the disk ------------------------------------------------

  class Manager {
    var stateFile: StateFile
    var shim: Shim
    var runtimes: map<string, bool>

    function OnDisk(): Disk
      reads this
    {
      Disk(stateFile, shim, runtimes)
    }

    constructor (d: Disk)
      ensures OnDisk() == d
    {
      stateFile, shim, runtimes := d.stateFile, d.shim, d.runtimes;
    }

    /** `_activate`: two atomic replaces, the first undone when the second fails. */
    method Switch(current: string, history: seq<string>, fault: Fault) returns (result: Result)
      modifies this
      ensures Outcome(OnDisk(), result) == Activate(old(OnDisk()), current, history, fault)
    {
      if current !in runtimes || !runtimes[current] {
        return Refused;
      }
      var oldState := stateFile;
      if fault.StopsBefore? {
        return if fault.crashes then Crashed else Failed;
      }
      stateFile := Written(current, history);
      if fault.StopsBetween? {
        return if fault.crashes then Crashed else Failed;
      }
      if fault.StopsAtShim? {
        if fault.replaced {
          shim := PointsTo(current);
        }
        if fault.restored {
          stateFile := oldState;
        }
        return if fault.crashes then Crashed else Failed;
      }
      shim := PointsTo(current);
      return if fault.NoFault? then Done else if fault.crashes then Crashed else Failed;
    }

    /** `_install_copy`. */
    method InstallCopy(a: Attempt) returns (result: Result)
      modifies this
      ensures Outcome(OnDisk(), result) == Install(old(OnDisk()), a)
      ensures Valid(old(OnDisk())) && !BreaksTheState(old(OnDisk()), a) ==> Valid(OnDisk())
      ensures result.Refused? ==> OnDisk() == old(OnDisk())
      ensures result.Failed? ==>
                (OnDisk() == old(OnDisk()) <==> a.removal.Removed? && !LeavesANewName(old(OnDisk()), a))
    {
      ghost var before := OnDisk();
      FailedInstallChangesNothing(before, a);
      if Valid(before) {
        InstallKeepsExactly(before, a);
      }
      if !Admitted(OnDisk(), a) {
        return Refused;
      }
      var id := RuntimeId(a.version, a.digest);
      var history := EntriesOf(stateFile);
      runtimes := runtimes[id := false];
      if a.build.BuildCrashes? {
        return Crashed;
      }
      result := Failed;
      if a.build.Built? {
        runtimes := runtimes[id := true];
        result := Switch(id, history, a.fault);
      }
      if result.Failed? || result.Refused? {
        if a.removal.Removed? {
          runtimes := runtimes - {id};
          return Failed;
        }
        runtimes := runtimes[id := runtimes[id] && a.removal.whole];
        return if a.removal.RemovalFails? then Failed else Crashed;
      }
    }

    /** `_rollback`: every ledger is inspected before anything is switched. */
    method RollBack(ledgers: seq<LedgerFile>, supported: int, fault: Fault)
      returns (result: Result, problems: seq<string>)
      modifies this
      ensures Outcome(OnDisk(), result) == Rollback(old(OnDisk()), ledgers, supported, fault)
      ensures Valid(old(OnDisk())) ==> Valid(OnDisk())
      ensures problems != [] ==>
                && result.Refused? && OnDisk() == old(OnDisk())
                && forall path :: path in problems <==>
                     exists i | 0 <= i < |ledgers| ::
                       && ledgers[i].path == path
                       && (ledgers[i].ledger.Unreadable? || supported < ledgers[i].ledger.version)
      ensures Valid(old(OnDisk())) && fault.NoFault? ==>
                (result.Done? <==>
                 && old(stateFile).Written? && old(stateFile).history != [] && old(shim) != Unmanaged
                 && forall i | 0 <= i < |ledgers| ::
                      ledgers[i].ledger.Schema? && ledgers[i].ledger.version <= supported)
    {
      if Valid(OnDisk()) {
        RollbackKeepsValid(OnDisk(), ledgers, supported, fault);
        RollbackDoneExactly(OnDisk(), ledgers, supported);
      }
      var loaded := Load(stateFile);
      if loaded.None? || loaded.value.current.None? || loaded.value.history == [] {
        return Refused, [];
      }
      var target := loaded.value.history[0];
      if shim.Unmanaged? || target !in runtimes || !runtimes[target] {
        return Refused, [];
      }
      problems := InspectLedgers(ledgers, supported);
      if problems != [] {
        return Refused, problems;
      }
      result := Switch(target, [loaded.value.current.value] + loaded.value.history[1..], fault);
    }
  }
}
