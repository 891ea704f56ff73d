/**
 The installed-wheel identity probe (`scripts/factory_gate_identity_probe.py`): comparing a wheel with
 an installation through their RECORD tables.
 */
module Records {
  import opened Common
  import opened Text

  // --- RECORD tables -------------------------------------------------------------------------

  /** The hash column: empty, `sha256=` with a digest, or any other text. */
  datatype HashField = Blank | Hash(digest: Digest) | OtherText(text: string)

  datatype Entry = Entry(hash: HashField, size: string)

  /** A line as the CSV reader returns it; `Malformed` does not have three columns. */
  datatype Row = Row(name: string, entry: Entry) | Malformed

  type Table = map<string, Entry>

  const UNRECORDED := Entry(Blank, "")

  /** The entry that describes a payload. */
  function EntryOf(payload: Bytes): Entry {
    Entry(Hash(Sha256(payload)), Decimal(|payload|))
  }

  ghost predicate Proper(rows: seq<Row>) {
    && (forall i | 0 <= i < |rows| :: rows[i].Row? && rows[i].name != "")
    && (forall i, j | 0 <= i < j < |rows| :: rows[i].name != rows[j].name)
  }

  /** What the rows say, each name mapped to its entry. */
  ghost function TableOf(rows: seq<Row>): Table {
    if rows == [] then map[]
    else
      var last := rows[|rows| - 1];
      var before := TableOf(rows[..|rows| - 1]);
      if last.Row? then before[last.name := last.entry] else before
  }

  lemma {:induction false} TableHolds(rows: seq<Row>)
    requires Proper(rows)
    ensures forall i | 0 <= i < |rows| :: rows[i].name in TableOf(rows) && TableOf(rows)[rows[i].name] == rows[i].entry
    ensures forall name | name in TableOf(rows) :: exists i | 0 <= i < |rows| :: rows[i].name == name
  {
    if rows != [] {
      var n := |rows| - 1;
      var before := rows[..n];
      TableHolds(before);
      forall i | 0 <= i < n ensures rows[i].name in TableOf(rows) && TableOf(rows)[rows[i].name] == rows[i].entry {
        assert rows[i] == before[i];
      }
      forall name | name in TableOf(rows) ensures exists i | 0 <= i < |rows| :: rows[i].name == name {
        if name != rows[n].name {
          var i :| 0 <= i < n && before[i].name == name;
          assert rows[i].name == name;
        }
      }
    }
  }

  /** `_records`: refuses exactly the malformed, nameless and repeated rows. */
  method ReadTable(rows: seq<Row>) returns (table: Option<Table>)
    ensures table.Some? <==> Proper(rows)
    ensures table.Some? ==> table.value == TableOf(rows)
    ensures table.Some? ==> forall i | 0 <= i < |rows| ::
              rows[i].name in table.value && table.value[rows[i].name] == rows[i].entry
  {
    var result: Table := map[];
    for n := 0 to |rows|
      invariant Proper(rows[..n])
      invariant result == TableOf(rows[..n])
    {
      var row := rows[n];
      TableHolds(rows[..n]);
      assert rows[..n + 1][..n] == rows[..n] && rows[..n + 1][n] == row;
      if row.Malformed? || row.name == "" {
        return None;
      }
      if row.name in result {
        var i :| 0 <= i < n && rows[..n][i].name == row.name;
        assert rows[i].name == rows[n].name;
        return None;
      }
      result := result[row.name := row.entry];
    }
    assert rows[..|rows|] == rows;
    TableHolds(rows);
    return Some(result);
  }

  // --- Names ---------------------------------------------------------------------------------

  function Meaningful(components: seq<string>): (parts: seq<string>)
    ensures forall i | 0 <= i < |parts| :: parts[i] in components && parts[i] != "" && parts[i] != "."
  {
    if components == [] then []
    else if components[0] == "" || components[0] == "." then Meaningful(components[1..])
    else [components[0]] + Meaningful(components[1..])
  }

  /** The components `PurePosixPath` keeps of a name. */
  function Parts(name: string): seq<string> {
    Meaningful(Split(name, '/'))
  }

  /** How `PurePosixPath` writes a relative path back. */
  function PathText(parts: seq<string>): string {
    if parts == [] then "." else Join(parts, '/')
  }

  predicate Absolute(name: string) {
    name != "" && name[0] == '/'
  }

  predicate SafeName(name: string) {
    !Absolute(name) && ".." !in Parts(name) && '\\' !in name && '\0' !in name && PathText(Parts(name)) == name
  }

  predicate Plain(component: string) {
    component != "" && component != "." && component != ".."
  }

  lemma {:induction false} MeaningfulIsIdentity(components: seq<string>)
    requires forall i | 0 <= i < |components| :: components[i] != "" && components[i] != "."
    ensures Meaningful(components) == components
  {
    if components != [] {
      MeaningfulIsIdentity(components[1..]);
    }
  }

  lemma MeaningfulKeepsSplit(name: string)
    ensures forall i | 0 <= i < |Parts(name)| :: '/' !in Parts(name)[i]
  {
  }

  lemma AbsoluteStartsEmpty(name: string)
    requires Absolute(name)
    ensures Split(name, '/')[0] == ""
  {
  }

  /** A safe name is the current directory or a path of plain components, free of backslash and NUL. */
  lemma SafeNameExactly(name: string)
    ensures SafeName(name) <==>
              && '\\' !in name && '\0' !in name
              && (name == "." || forall i | 0 <= i < |Split(name, '/')| :: Plain(Split(name, '/')[i]))
  {
    var components := Split(name, '/');
    var parts := Parts(name);
    if name == "." {
      SplitHead(".", "", '/');
      assert Meaningful(components[1..]) == [];
    } else if SafeName(name) {
      MeaningfulKeepsSplit(name);
      SplitJoin(parts, '/');
      assert components == parts;
    } else if '\\' !in name && '\0' !in name && forall i | 0 <= i < |components| :: Plain(components[i]) {
      MeaningfulIsIdentity(components);
      JoinSplit(name, '/');
      if Absolute(name) {
        AbsoluteStartsEmpty(name);
      }
      assert false;
    }
  }

  /** Two safe names that lead to the same place are the same name. */
  lemma SafeNamesAreDistinctPaths(a: string, b: string)
    requires SafeName(a) && SafeName(b)
    ensures Parts(a) == Parts(b) <==> a == b
  {
  }

  // --- Wheels and installations --------------------------------------------------------------

  datatype Member = Member(name: string, content: Bytes, link: bool)

  datatype Wheel = Wheel(members: seq<Member>)

  /** Where an installed name leads: inside the distribution root or not, a link or not, and the bytes. */
  datatype Place = Place(inside: bool, link: bool, content: Option<Bytes>)

  /** `launchers` are the names that resolve to the environment's own `bin/enginery`. */
  datatype Installation = Installation(rows: seq<Row>, places: map<string, Place>, launchers: set<string>)

  function NamesOf(members: seq<Member>): set<string> {
    set i | 0 <= i < |members| :: members[i].name
  }

  ghost predicate DistinctNames(members: seq<Member>) {
    forall i, j | 0 <= i < j < |members| :: members[i].name != members[j].name
  }

  lemma NamesOfLast(members: seq<Member>)
    requires members != []
    ensures NamesOf(members) == NamesOf(members[..|members| - 1]) + {members[|members| - 1].name}
  {
    var before := members[..|members| - 1];
    assert forall i | 0 <= i < |before| :: before[i] == members[i];
  }

  lemma DistinctLast(members: seq<Member>)
    requires members != []
    ensures DistinctNames(members) <==>
            DistinctNames(members[..|members| - 1]) && members[|members| - 1].name !in NamesOf(members[..|members| - 1])
  {
    var before, last := members[..|members| - 1], members[|members| - 1];
    assert forall i | 0 <= i < |before| :: before[i] == members[i];
    assert forall i | 0 <= i < |before| :: before[i].name in NamesOf(before);
  }

  /** Counting the names finds exactly the repeated ones. */
  lemma {:induction false} CountingNames(members: seq<Member>)
    ensures |NamesOf(members)| <= |members|
    ensures |NamesOf(members)| == |members| <==> DistinctNames(members)
  {
    if members != [] {
      CountingNames(members[..|members| - 1]);
      NamesOfLast(members);
      DistinctLast(members);
    }
  }

  /** The bytes of a member. */
  function Content(members: seq<Member>, name: string): (content: Bytes)
    requires name in NamesOf(members)
    ensures exists i | 0 <= i < |members| :: members[i].name == name && members[i].content == content
  {
    if members[0].name == name then members[0].content
    else
      assert name in NamesOf(members[1..]);
      var found := Content(members[1..], name);
      assert exists i | 0 <= i < |members[1..]| :: members[1..][i].name == name && members[1..][i].content == found;
      found
  }

  const RECORD_SUFFIX := ".dist-info/RECORD"

  predicate IsRecordName(name: string) {
    |name| >= |RECORD_SUFFIX| && name[|name| - |RECORD_SUFFIX|..] == RECORD_SUFFIX
  }

  lemma RecordNameExactly(name: string)
    ensures IsRecordName(name) <==> exists stem :: name == stem + ".dist-info/RECORD"
  {
    if IsRecordName(name) {
      var stem := name[..|name| - |RECORD_SUFFIX|];
      assert name == stem + ".dist-info/RECORD";
    }
    if stem :| name == stem + ".dist-info/RECORD" {
      assert name[|stem|..] == ".dist-info/RECORD";
    }
  }

  function RecordNames(names: set<string>): set<string> {
    set name | name in names && IsRecordName(name)
  }

  function Generated(record: string): set<string> {
    var parts := Parts(record);
    var directory := PathText(if parts == [] then [] else parts[..|parts| - 1]);
    {directory + "/INSTALLER", directory + "/REQUESTED", directory + "/direct_url.json", directory + "/uv_cache.json"}
  }

  /** A safe name with a directory splits into plain components, and its parent is the text before. */
  lemma ParentOf(directory: string, file: string)
    requires SafeName(directory + "/" + file) && file != "" && '/' !in file
    ensures var parts := Parts(directory + "/" + file);
            && |parts| >= 2 && parts[|parts| - 1] == file && parts[..|parts| - 1] == Split(directory, '/')
            && PathText(parts[..|parts| - 1]) == directory
  {
    var name := directory + "/" + file;
    assert name == directory + ['/'] + file;
    SplitSnoc(directory, file, '/');
    assert |name| > 1 && name != ".";
    SafeNameExactly(name);
    MeaningfulIsIdentity(Split(name, '/'));
    JoinSplit(directory, '/');
  }

  /** What the installer writes beside the RECORD of a safe name. */
  lemma GeneratedExactly(directory: string)
    requires SafeName(directory + "/RECORD")
    ensures Generated(directory + "/RECORD") ==
            {directory + "/INSTALLER", directory + "/REQUESTED", directory + "/direct_url.json",
             directory + "/uv_cache.json"}
  {
    assert directory + "/RECORD" == directory + "/" + "RECORD";
    ParentOf(directory, "RECORD");
  }

  predicate OptimizationTag(text: string) {
    |text| > 4 && text[..4] == "opt-" && Numeral(text[4..])
  }

  /** `[^.]+\.[^.]+(?:\.opt-[0-9]+)?\.pyc`, read off the dot-separated pieces. */
  predicate BytecodeFile(file: string) {
    var pieces := Split(file, '.');
    && (|pieces| == 3 || (|pieces| == 4 && OptimizationTag(pieces[2])))
    && pieces[0] != "" && pieces[1] != "" && pieces[|pieces| - 1] == "pyc"
  }

  function SourceOf(parts: seq<string>): string
    requires |parts| >= 2
  {
    PathText(parts[..|parts| - 2] + [Split(parts[|parts| - 1], '.')[0] + ".py"])
  }

  predicate Bytecode(name: string, sources: set<string>) {
    var parts := Parts(name);
    && SafeName(name) && |parts| >= 2 && parts[|parts| - 2] == "__pycache__"
    && BytecodeFile(parts[|parts| - 1]) && SourceOf(parts) in sources
  }

  /** The tag of a compiled file: an interpreter, and an optimization level behind it or none. */
  ghost predicate Tag(tag: string, interpreter: string, level: string) {
    && interpreter != "" && '.' !in interpreter
    && (tag == interpreter || (tag == interpreter + ".opt-" + level && level != "" && Numeral(level)))
  }

  lemma ThreePieces(a: string, b: string, c: string, separator: char)
    requires separator !in a && separator !in b && separator !in c
    ensures Split(a + [separator] + b + [separator] + c, separator) == [a, b, c]
  {
    SplitHead(a, "", separator);
    SplitSnoc(a, b, separator);
    SplitSnoc(a + [separator] + b, c, separator);
  }

  lemma FourPieces(a: string, b: string, c: string, d: string, separator: char)
    requires separator !in a && separator !in b && separator !in c && separator !in d
    ensures Split(a + [separator] + b + [separator] + c + [separator] + d, separator) == [a, b, c, d]
  {
    ThreePieces(a, b, c, separator);
    SplitSnoc(a + [separator] + b + [separator] + c, d, separator);
  }

  lemma PlainIsBytecode(stem: string, interpreter: string)
    requires stem != "" && '.' !in stem && interpreter != "" && '.' !in interpreter
    ensures var file := stem + "." + interpreter + ".pyc"; BytecodeFile(file) && Split(file, '.')[0] == stem
  {
    ThreePieces(stem, interpreter, "pyc", '.');
    assert stem + "." + interpreter + ".pyc" == stem + ['.'] + interpreter + ['.'] + "pyc";
  }

  lemma OptimizedIsBytecode(stem: string, interpreter: string, level: string)
    requires stem != "" && '.' !in stem && interpreter != "" && '.' !in interpreter && level != "" && Numeral(level)
    ensures var file := stem + "." + (interpreter + ".opt-" + level) + ".pyc";
            BytecodeFile(file) && Split(file, '.')[0] == stem
  {
    var option := "opt-" + level;
    var file := stem + "." + (interpreter + ".opt-" + level) + ".pyc";
    FourPieces(stem, interpreter, option, "pyc", '.');
    assert ".opt-" + level == ['.'] + option;
    assert file == stem + ['.'] + interpreter + ['.'] + option + ['.'] + "pyc";
    assert OptimizationTag(option) by {
      assert option[..4] == "opt-" && option[4..] == level;
    }
  }

  lemma TaggedIsBytecode(stem: string, tag: string, interpreter: string, level: string)
    requires stem != "" && '.' !in stem && Tag(tag, interpreter, level)
    ensures var file := stem + "." + tag + ".pyc"; BytecodeFile(file) && Split(file, '.')[0] == stem
  {
    if tag == interpreter {
      PlainIsBytecode(stem, interpreter);
    } else {
      OptimizedIsBytecode(stem, interpreter, level);
    }
  }

  lemma JoinThree(a: string, b: string, c: string, separator: char)
    ensures Join([a, b, c], separator) == a + [separator] + b + [separator] + c
  {
    JoinSnoc([a], b, separator);
    JoinSnoc([a, b], c, separator);
    assert [a] + [b] == [a, b] && [a, b] + [c] == [a, b, c];
  }

  lemma JoinFour(a: string, b: string, c: string, d: string, separator: char)
    ensures Join([a, b, c, d], separator) == a + [separator] + b + [separator] + c + [separator] + d
  {
    JoinThree(a, b, c, separator);
    JoinSnoc([a, b, c], d, separator);
    assert [a, b, c] + [d] == [a, b, c, d];
  }

  lemma OptimizedText(stem: string, interpreter: string, option: string, level: string)
    requires option == "opt-" + level
    ensures stem + ['.'] + interpreter + ['.'] + option + ['.'] + "pyc" ==
            stem + "." + (interpreter + ".opt-" + level) + ".pyc"
  {
    assert ['.'] + option == ".opt-" + level;
  }

  lemma BytecodeIsTagged(file: string) returns (stem: string, tag: string, interpreter: string, level: string)
    requires BytecodeFile(file)
    ensures stem != "" && '.' !in stem && Tag(tag, interpreter, level) && file == stem + "." + tag + ".pyc"
    ensures stem == Split(file, '.')[0]
  {
    var pieces := Split(file, '.');
    JoinSplit(file, '.');
    stem, interpreter := pieces[0], pieces[1];
    if |pieces| == 3 {
      tag, level := interpreter, "";
      assert pieces == [stem, interpreter, "pyc"];
      JoinThree(stem, interpreter, "pyc", '.');
    } else {
      level := pieces[2][4..];
      tag := interpreter + ".opt-" + level;
      assert pieces == [stem, interpreter, pieces[2], "pyc"];
      JoinFour(stem, interpreter, pieces[2], "pyc", '.');
      OptimizedText(stem, interpreter, pieces[2], level);
    }
  }

  lemma NestedParts(directory: string, cache: string, file: string, name: string)
    requires name == directory + "/" + cache + "/" + file && SafeName(name)
    requires cache != "" && '/' !in cache && file != "" && '/' !in file
    ensures Parts(name) == Split(directory, '/') + [cache] + [file]
  {
    ParentOf(directory + "/" + cache, file);
    SplitSnoc(directory, cache, '/');
  }

  lemma SourceBeside(directory: string, cache: string, file: string, stem: string)
    requires Split(file, '.')[0] == stem
    ensures SourceOf(Split(directory, '/') + [cache] + [file]) == directory + "/" + (stem + ".py")
  {
    var parent := Split(directory, '/');
    var parts := parent + [cache] + [file];
    assert parts[..|parts| - 2] == parent;
    JoinSnoc(parent, stem + ".py", '/');
    JoinSplit(directory, '/');
  }

  /** A file in a cache below a directory passes as bytecode when its source is beside the cache. */
  lemma BytecodeBelow(directory: string, cache: string, file: string, name: string, sources: set<string>)
    requires name == directory + "/" + cache + "/" + file && SafeName(name)
    requires cache != "" && '/' !in cache && file != "" && '/' !in file
    ensures Bytecode(name, sources) <==>
            && cache == "__pycache__" && BytecodeFile(file)
            && directory + "/" + (Split(file, '.')[0] + ".py") in sources
  {
    NestedParts(directory, cache, file, name);
    SourceBeside(directory, cache, file, Split(file, '.')[0]);
  }

  /** The file is the compiled form of the module `stem`. */
  ghost predicate Compiled(file: string, stem: string, tag: string, interpreter: string, level: string) {
    stem != "" && '.' !in stem && Tag(tag, interpreter, level) && file == stem + "." + tag + ".pyc"
  }

  /** Bytecode is exactly a compiled module, in the cache beside a source that the wheel has. */
  lemma BytecodeExactly(directory: string, cache: string, file: string, name: string, sources: set<string>)
    requires name == directory + "/" + cache + "/" + file
    requires cache != "" && '/' !in cache && file != "" && '/' !in file
    ensures Bytecode(name, sources) <==>
            && SafeName(name) && cache == "__pycache__"
            && exists stem, tag, interpreter, level ::
                 Compiled(file, stem, tag, interpreter, level) && directory + "/" + (stem + ".py") in sources
  {
    if SafeName(name) {
      BytecodeBelow(directory, cache, file, name, sources);
    }
    if BytecodeFile(file) {
      var stem, tag, interpreter, level := BytecodeIsTagged(file);
      assert Compiled(file, stem, tag, interpreter, level);
    }
    forall stem, tag, interpreter, level | Compiled(file, stem, tag, interpreter, level)
      ensures BytecodeFile(file) && Split(file, '.')[0] == stem
    {
      TaggedIsBytecode(stem, tag, interpreter, level);
    }
  }

  predicate Launcher(name: string, launchers: set<string>) {
    var parts := Parts(name);
    parts != [] && parts[|parts| - 1] == "enginery" && name in launchers
  }

  lemma {:induction false} MeaningfulSnoc(components: seq<string>, last: string)
    requires last != "" && last != "."
    ensures Meaningful(components + [last]) == Meaningful(components) + [last]
  {
    if components == [] {
      assert [] + [last] == [last] && Meaningful([last][1..]) == [];
    } else {
      assert (components + [last])[1..] == components[1..] + [last];
      MeaningfulSnoc(components[1..], last);
    }
  }

  /** Of the files below a directory, safe or not, exactly the environment's own script is the launcher. */
  lemma LauncherExactly(directory: string, file: string, launchers: set<string>)
    requires file != "" && file != "." && '/' !in file
    ensures Launcher(directory + "/" + file, launchers) <==> file == "enginery" && directory + "/" + file in launchers
  {
    assert directory + "/" + file == directory + ['/'] + file;
    SplitSnoc(directory, file, '/');
    MeaningfulSnoc(Split(directory, '/'), file);
  }

  /** An installed entry that no wheel member accounts for but an installer writes. */
  predicate Installers(name: string, record: string, sources: set<string>, launchers: set<string>) {
    name in Generated(record) || Bytecode(name, sources) || Launcher(name, launchers)
  }

  // --- What acceptance means -----------------------------------------------------------------

  ghost predicate CleanMembers(w: Wheel) {
    DistinctNames(w.members) && forall i | 0 <= i < |w.members| :: SafeName(w.members[i].name) && !w.members[i].link
  }

  ghost predicate Covers(w: Wheel, record: string, rows: seq<Row>) {
    && Proper(rows)
    && TableOf(rows).Keys == NamesOf(w.members)
    && RecordNames(NamesOf(w.members)) == {record}
    && record in TableOf(rows) && TableOf(rows)[record] == UNRECORDED
  }

  ghost predicate Placed(name: string, at: Installation) {
    name in at.places && at.places[name].inside && !at.places[name].link
  }

  /** One payload: both RECORDs, the wheel's bytes and the installed bytes say the same. */
  ghost predicate SamePayload(w: Wheel, name: string, expected: Table, at: Installation)
    requires name in NamesOf(w.members) && name in expected
  {
    && name in TableOf(at.rows) && TableOf(at.rows)[name] == expected[name]
    && expected[name] == EntryOf(Content(w.members, name))
    && name in at.places && at.places[name].content.Some?
    && expected[name] == EntryOf(at.places[name].content.value)
  }

  ghost predicate Accepted(w: Wheel, record: string, at: Installation, parse: Bytes -> seq<Row>)
  {
    && record in NamesOf(w.members)
    && CleanMembers(w)
    && var rows := parse(Content(w.members, record));
       && Covers(w, record, rows)
       && Proper(at.rows) && record in TableOf(at.rows)
       && (forall name | name in NamesOf(w.members) :: Placed(name, at))
       && (forall name | name in NamesOf(w.members) && name != record :: SamePayload(w, name, TableOf(rows), at))
       && (forall name | name in TableOf(at.rows) && name !in NamesOf(w.members) ::
             Installers(name, record, NamesOf(w.members), at.launchers))
  }

  // --- The probe -----------------------------------------------------------------------------

  method CheckMembers(members: seq<Member>) returns (ok: bool)
    ensures ok <==> DistinctNames(members) && forall i | 0 <= i < |members| ::
              SafeName(members[i].name) && !members[i].link
  {
    CountingNames(members);
    if |NamesOf(members)| != |members| {
      return false;
    }
    for n := 0 to |members|
      invariant forall i | 0 <= i < n :: SafeName(members[i].name) && !members[i].link
    {
      if !SafeName(members[n].name) || members[n].link {
        return false;
      }
    }
    return true;
  }

  method CheckPayloads(w: Wheel, record: string, expected: Table, installed: Table, at: Installation) returns (ok: bool)
    requires expected.Keys == NamesOf(w.members) && installed == TableOf(at.rows)
    ensures ok <==>
              && (forall name | name in expected :: Placed(name, at))
              && (forall name | name in expected && name != record :: SamePayload(w, name, expected, at))
  {
    var pending := expected.Keys;
    while pending != {}
      invariant pending <= expected.Keys
      invariant forall name | name in expected && name !in pending :: Placed(name, at)
      invariant forall name | name in expected && name !in pending && name != record ::
                SamePayload(w, name, expected, at)
      decreases |pending|
    {
      var name :| name in pending;
      pending := pending - {name};
      if name !in at.places || !at.places[name].inside || at.places[name].link {
        return false;
      }
      if name != record {
        var place := at.places[name];
        if name !in installed || installed[name] != expected[name]
           || EntryOf(Content(w.members, name)) != expected[name]
           || place.content.None? || EntryOf(place.content.value) != expected[name] {
          return false;
        }
      }
    }
    return true;
  }

  method CheckExtras(names: set<string>, record: string, installed: Table, launchers: set<string>) returns (ok: bool)
    ensures ok <==> forall name | name in installed && name !in names :: Installers(name, record, names, launchers)
  {
    var extras := installed.Keys - names - Generated(record);
    var pending := extras;
    while pending != {}
      invariant pending <= extras
      invariant forall name | name in extras && name !in pending :: Bytecode(name, names) || Launcher(name, launchers)
      decreases |pending|
    {
      var name :| name in pending;
      pending := pending - {name};
      if !Bytecode(name, names) && !Launcher(name, launchers) {
        return false;
      }
    }
    return true;
  }

  /**
   `verify_records`: accepts exactly the installations of the wheel, and reports the digest of its
   RECORD. `parse` is the CSV reader; bytes that do not decode are a malformed row to it.
   */
  method VerifyRecords(w: Wheel, at: Installation, parse: Bytes -> seq<Row>) returns (digest: Option<Digest>)
    ensures digest.Some? <==> exists record :: Accepted(w, record, at, parse)
    ensures digest.Some? ==> exists record ::
              Accepted(w, record, at, parse) && digest.value == Sha256(Content(w.members, record))
  {
    var names := NamesOf(w.members);
    var installed := ReadTable(at.rows);
    var clean := CheckMembers(w.members);
    var records := RecordNames(names);
    if installed.None? || !clean || |records| != 1 {
      NoOtherSingleton(records);
      return None;
    }
    var record :| record in records;
    SingletonIs(records, record);
    var expected := ReadTable(parse(Content(w.members, record)));
    if expected.None? || expected.value.Keys != names || expected.value[record] != UNRECORDED {
      return None;
    }
    if record !in installed.value {
      return None;
    }
    var same := CheckPayloads(w, record, expected.value, installed.value, at);
    var tidy := CheckExtras(names, record, installed.value, at.launchers);
    if !same || !tidy {
      return None;
    }
    assert Accepted(w, record, at, parse);
    return Some(Sha256(Content(w.members, record)));
  }

  lemma NoOtherSingleton(names: set<string>)
    ensures |names| != 1 ==> forall name: string :: names != {name}
  {
  }

  lemma SingletonIs(names: set<string>, name: string)
    requires |names| == 1 && name in names
    ensures names == {name}
  {
    assert |names - {name}| == 0;
  }

  // --- What acceptance buys ------------------------------------------------------------------

  lemma ContentIsUnique(members: seq<Member>, i: nat)
    requires DistinctNames(members) && i < |members|
    ensures members[i].name in NamesOf(members) && Content(members, members[i].name) == members[i].content
  {
    var name := members[i].name;
    assert name in NamesOf(members);
    var j :| 0 <= j < |members| && members[j].name == name && members[j].content == Content(members, name);
    assert i == j;
  }

  /** Every payload of an accepted wheel is installed byte for byte, inside the root and not through a link. */
  lemma AcceptedMeansInstalled(w: Wheel, record: string, at: Installation, parse: Bytes -> seq<Row>, i: nat)
    requires Accepted(w, record, at, parse) && i < |w.members| && w.members[i].name != record
    ensures var name := w.members[i].name;
            && name in at.places && at.places[name] == Place(true, false, Some(w.members[i].content))
            && name in TableOf(at.rows)
            && TableOf(at.rows)[name] ==
               Entry(Hash(Sha256(w.members[i].content)), Decimal(|w.members[i].content|))
  {
    ContentIsUnique(w.members, i);
    var name := w.members[i].name;
    assert Placed(name, at);
    assert SamePayload(w, name, TableOf(parse(Content(w.members, record))), at);
  }

  /** The partner: a wheel whose RECORD describes its payloads, copied into place, is accepted. */
  lemma CopyIsAccepted(w: Wheel, record: string, at: Installation, parse: Bytes -> seq<Row>)
    requires CleanMembers(w) && RecordNames(NamesOf(w.members)) == {record} && record in NamesOf(w.members)
    requires var rows := parse(Content(w.members, record));
             && Proper(rows) && at.rows == rows && TableOf(rows).Keys == NamesOf(w.members)
             && TableOf(rows)[record] == Entry(Blank, "")
             && forall name | name in NamesOf(w.members) && name != record ::
                  var content := Content(w.members, name);
                  TableOf(rows)[name] == Entry(Hash(Sha256(content)), Decimal(|content|))
    requires forall name | name in NamesOf(w.members) ::
               name in at.places && at.places[name] == Place(true, false, Some(Content(w.members, name)))
    ensures Accepted(w, record, at, parse)
  {
    var rows := parse(Content(w.members, record));
    assert Covers(w, record, rows);
    forall name | name in NamesOf(w.members) ensures Placed(name, at) {
    }
    forall name | name in NamesOf(w.members) && name != record ensures SamePayload(w, name, TableOf(rows), at) {
    }
  }

  function Last(text: string): char
    requires text != ""
  {
    text[|text| - 1]
  }

  lemma {:induction false} JoinEnds(parts: seq<string>, separator: char)
    requires parts != [] && parts[|parts| - 1] != ""
    ensures Join(parts, separator) != "" && Last(Join(parts, separator)) == Last(parts[|parts| - 1])
  {
    if |parts| > 1 {
      JoinEnds(parts[1..], separator);
    }
  }

  lemma BytecodeEnds(file: string)
    requires BytecodeFile(file)
    ensures |file| > 1 && Last(file) == 'c'
  {
    JoinSplit(file, '.');
    JoinEnds(Split(file, '.'), '.');
    assert file != "c" by {
      SplitHead("c", "", '.');
    }
  }

  lemma GeneratedEnds(name: string, record: string)
    requires name in Generated(record)
    ensures |name| > 1 && (Last(name) == 'D' ==> name[|name| - 2] == 'E')
  {
  }

  lemma InstalledEntryEnds(name: string, record: string, sources: set<string>, launchers: set<string>)
    requires SafeName(name) && Installers(name, record, sources, launchers)
    ensures |name| > 1 && (Last(name) == 'D' ==> name[|name| - 2] == 'E')
  {
    if name !in Generated(record) {
      var parts := Parts(name);
      var file := parts[|parts| - 1];
      JoinEnds(parts, '/');
      if BytecodeFile(file) {
        BytecodeEnds(file);
      }
    } else {
      GeneratedEnds(name, record);
    }
  }

  /** A RECORD is never taken for something an installer writes. */
  lemma RecordIsNotInstallers(name: string, record: string, sources: set<string>, launchers: set<string>)
    requires SafeName(name) && IsRecordName(name)
    ensures !Installers(name, record, sources, launchers)
  {
    assert name[|name| - 2] == RECORD_SUFFIX[|RECORD_SUFFIX| - 2] == 'R';
    assert Last(name) == RECORD_SUFFIX[|RECORD_SUFFIX| - 1] == 'D';
    if Installers(name, record, sources, launchers) {
      InstalledEntryEnds(name, record, sources, launchers);
    }
  }

  /** Two wheels accepted against one installation have their RECORD under the same name. */
  lemma AcceptedWheelsShareTheRecord(a: Wheel, recordA: string, b: Wheel, recordB: string, at: Installation,
                                     parse: Bytes -> seq<Row>)
    requires Accepted(a, recordA, at, parse) && Accepted(b, recordB, at, parse)
    ensures recordA == recordB
  {
    assert recordA in RecordNames(NamesOf(a.members));
    RecordIsNotInstallers(recordA, recordB, NamesOf(b.members), at.launchers);
    assert recordA in RecordNames(NamesOf(b.members));
  }

  /** They agree on every payload that is not of a kind installers write. */
  lemma AcceptedWheelsAgree(a: Wheel, b: Wheel, record: string, other: string, at: Installation,
                            parse: Bytes -> seq<Row>, i: nat)
    requires Accepted(a, record, at, parse) && Accepted(b, other, at, parse)
    requires i < |a.members| && a.members[i].name != record
    requires !Installers(a.members[i].name, record, NamesOf(b.members), at.launchers)
    ensures a.members[i] in b.members
  {
    AcceptedWheelsShareTheRecord(a, record, b, other, at, parse);
    var name := a.members[i].name;
    assert name in NamesOf(a.members);
    assert SamePayload(a, name, TableOf(parse(Content(a.members, record))), at);
    AcceptedMeansInstalled(a, record, at, parse, i);
    assert name in NamesOf(b.members);
    var j :| 0 <= j < |b.members| && b.members[j].name == name;
    AcceptedMeansInstalled(b, record, at, parse, j);
    assert b.members[j] == a.members[i];
  }

  /** Wheels with the same reported digest hold the same members, wherever each was installed. */
  lemma DigestIdentifiesTheWheel(a: Wheel, recordA: string, atA: Installation,
                                 b: Wheel, recordB: string, atB: Installation, parse: Bytes -> seq<Row>)
    requires Accepted(a, recordA, atA, parse) && Accepted(b, recordB, atB, parse)
    requires Sha256(Content(a.members, recordA)) == Sha256(Content(b.members, recordB))
    ensures recordA == recordB
    ensures forall member :: member in a.members <==> member in b.members
  {
    assert NamesOf(a.members) == NamesOf(b.members);
    assert recordA in RecordNames(NamesOf(a.members));
    SameMembers(a, atA, b, atB, recordA, parse);
    SameMembers(b, atB, a, atA, recordA, parse);
  }

  lemma SameMembers(a: Wheel, atA: Installation, b: Wheel, atB: Installation, record: string, parse: Bytes -> seq<Row>)
    requires Accepted(a, record, atA, parse) && Accepted(b, record, atB, parse)
    requires Content(a.members, record) == Content(b.members, record)
    ensures forall member :: member in a.members ==> member in b.members
  {
    forall i | 0 <= i < |a.members| ensures a.members[i] in b.members {
      var name := a.members[i].name;
      ContentIsUnique(a.members, i);
      assert name in NamesOf(b.members);
      var j :| 0 <= j < |b.members| && b.members[j].name == name;
      ContentIsUnique(b.members, j);
      if name != record {
        assert SamePayload(a, name, TableOf(parse(Content(a.members, record))), atA);
        assert SamePayload(b, name, TableOf(parse(Content(b.members, record))), atB);
      }
      assert a.members[i] == b.members[j];
    }
  }
}
