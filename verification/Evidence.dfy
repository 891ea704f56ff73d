/**
 The evidence document, its schema check and its exit code (`scripts/factory_gate_evidence.py`).
 */
module Evidence {
  import opened Common
  import opened Text

  // --- Decoded JSON --------------------------------------------------------------------------

  datatype Json =
    | Null
    | Bool(flag: bool)
    | Num(number: int)
    | Str(text: string)
    | Arr(items: seq<Json>)
    | Obj(fields: map<string, Json>)

  type Document = map<string, Json>

  /** Python's `mapping.get(key)`: a missing key reads as `None`. */
  function Get(fields: map<string, Json>, key: string): Json {
    if key in fields then fields[key] else Null
  }

  /** Python's truth value of a decoded document. */
  predicate Truthy(j: Json) {
    match j
    case Null => false
    case Bool(b) => b
    case Num(n) => n != 0
    case Str(s) => s != ""
    case Arr(items) => items != []
    case Obj(fields) => fields != map[]
  }

  /** None of the values that count as nothing. */
  predicate Something(j: Json) {
    j != Null && j != Bool(false) && j != Num(0) && j != Str("") && j != Arr([]) && j != Obj(map[])
  }

  lemma TruthyExactly(j: Json)
    ensures Truthy(j) <==> Something(j)
  {
  }

  predicate NonEmptyText(j: Json) {
    j.Str? && j.text != ""
  }

  /** Python compares `True` and `1` as equal, so a `true` schema version is accepted as well. */
  predicate IsOne(j: Json) {
    j == Num(1) || j == Bool(true)
  }

  predicate Hashable(j: Json) {
    !j.Arr? && !j.Obj?
  }

  /** Python's `str` of a hashable value. */
  function PyStr(j: Json): string
    requires Hashable(j)
  {
    match j
    case Null => "None"
    case Bool(b) => if b then "True" else "False"
    case Num(n) => if n < 0 then "-" + Decimal(-n) else Decimal(n)
    case Str(s) => s
  }

  // --- The schema ----------------------------------------------------------------------------

  const TEXT_KEYS: seq<string> := ["scenario", "reason", "started_at", "ended_at"]
  const IDENTITY_KEYS: seq<string> :=
    ["subject", "build", "config", "host", "engine", "image", "profile", "evaluator"]
  const ASSERTION_KEYS: seq<string> :=
    ["id", "description", "ran", "status", "commands", "observed", "expected", "observer", "raw_artifacts"]
  const CONTROL_KEYS: seq<string> := ["id", "description", "ran", "status", "commands", "observed", "expected"]
  const EFFECT_KEYS: seq<string> := ["hosted_inference_calls"]

  const PASS := Str("pass")
  const FAIL := Str("fail")
  const HOLD := Str("hold")

  predicate HasKeys(fields: map<string, Json>, keys: seq<string>) {
    forall i | 0 <= i < |keys| :: keys[i] in fields
  }

  predicate ObjWith(j: Json, keys: seq<string>) {
    j.Obj? && HasKeys(j.fields, keys)
  }

  function Status(entry: Json): Json {
    if entry.Obj? then Get(entry.fields, "status") else Null
  }

  function Id(entry: Json): Json {
    if entry.Obj? then Get(entry.fields, "id") else Null
  }

  predicate Judged(entry: Json) {
    Status(entry) == PASS || Status(entry) == FAIL
  }

  /** A passing assertion ran, recorded its commands and has a host-side observation. */
  predicate Backed(entry: Json)
    requires entry.Obj?
  {
    Status(entry) == PASS ==>
      && Get(entry.fields, "ran") == Bool(true)
      && Truthy(Get(entry.fields, "commands"))
      && Get(entry.fields, "observer") != Null
  }

  predicate WellFormedAssertion(entry: Json) {
    ObjWith(entry, ASSERTION_KEYS) && Judged(entry) && Backed(entry)
  }

  predicate WellFormedControl(entry: Json) {
    ObjWith(entry, CONTROL_KEYS) && Judged(entry)
  }

  /** The ids read so far, as the set of strings the source keeps; only object entries are read. */
  function Seen(entries: seq<Json>): set<string>
    requires forall i | 0 <= i < |entries| :: Hashable(Id(entries[i]))
  {
    set i | 0 <= i < |entries| && entries[i].Obj? :: PyStr(Id(entries[i]))
  }

  /** `identifier in seen`: only text is ever found among the strings. */
  predicate Repeated(entries: seq<Json>, n: nat)
    requires n < |entries| && forall i | 0 <= i < |entries| :: Hashable(Id(entries[i]))
  {
    Id(entries[n]).Str? && Id(entries[n]).text in Seen(entries[..n])
  }

  function Items(j: Json): seq<Json> {
    if j.Arr? then j.items else []
  }

  function Assertions(d: Document): seq<Json> {
    Items(Get(d, "assertions"))
  }

  function Controls(d: Document): seq<Json> {
    Items(Get(d, "controls"))
  }

  /** No assertion id is a list or an object; looking such an id up in a set is a `TypeError`. */
  predicate Readable(d: Document) {
    forall i | 0 <= i < |Assertions(d)| :: Hashable(Id(Assertions(d)[i]))
  }

  predicate AllPass(entries: seq<Json>) {
    forall i | 0 <= i < |entries| :: Status(entries[i]) == PASS
  }

  /** The frame of the document: everything but its assertions and controls. */
  predicate WellFormedFrame(d: Document) {
    && IsOne(Get(d, "schema_version"))
    && (forall i | 0 <= i < |TEXT_KEYS| :: NonEmptyText(Get(d, TEXT_KEYS[i])))
    && (Get(d, "mode") == Str("local") || Get(d, "mode") == Str("live"))
    && (Get(d, "verdict") == PASS || Get(d, "verdict") == FAIL || Get(d, "verdict") == HOLD)
    && ObjWith(Get(d, "identities"), IDENTITY_KEYS)
    && ObjWith(Get(d, "external_effect_counts"), EFFECT_KEYS)
  }

  predicate WellFormedAssertions(entries: seq<Json>)
    requires forall i | 0 <= i < |entries| :: Hashable(Id(entries[i]))
  {
    forall i | 0 <= i < |entries| :: WellFormedAssertion(entries[i]) && !Repeated(entries, i)
  }

  /** What an empty problem list stands for. */
  predicate WellFormed(d: Document)
    requires Readable(d)
  {
    && WellFormedFrame(d)
    && Get(d, "assertions").Arr? && WellFormedAssertions(Assertions(d))
    && Get(d, "controls").Arr?
    && (forall i | 0 <= i < |Controls(d)| :: WellFormedControl(Controls(d)[i]))
    && (Get(d, "verdict") == PASS ==> AllPass(Assertions(d)) && AllPass(Controls(d)))
  }

  /** A complete pass: well formed, verdict pass, at least one assertion, everything ran and passed. */
  predicate Complete(d: Document)
    requires Readable(d)
  {
    && WellFormed(d)
    && Get(d, "verdict") == PASS
    && Assertions(d) != []
    && (forall i | 0 <= i < |Controls(d)| :: Get(Controls(d)[i].fields, "ran") == Bool(true))
  }

  const EXIT_PASS := 0
  const EXIT_FAIL := 1
  const EXIT_HOLD := 3

  function ExitCode(d: Document): int
    requires Readable(d)
  {
    if Complete(d) then EXIT_PASS
    else if WellFormed(d) && Get(d, "verdict") == HOLD then EXIT_HOLD
    else EXIT_FAIL
  }

  lemma VerdictsDiffer()
    ensures PASS != FAIL && PASS != HOLD && FAIL != HOLD
  {
    assert "pass"[0] != "fail"[0] && "pass"[0] != "hold"[0] && "fail"[0] != "hold"[0];
  }

  // --- The checker ---------------------------------------------------------------------------

  datatype Problem =
    | SchemaVersion
    | NotText(key: string)
    | BadMode
    | BadVerdict
    | NotAnObject(key: string)
    | Lacks(where: string, key: string)
    | NotAList(key: string)
    | EntryNotAnObject(where: string)
    | ListedTwice(text: string)
    | BadStatus(where: string)
    | PassedWithoutRunning
    | PassedWithoutCommands
    | PassedWithoutObservation
    | PassWithFailure(where: string)

  datatype Report = TypeError | Problems(problems: seq<Problem>)

  method MissingKeys(where: string, fields: map<string, Json>, keys: seq<string>) returns (problems: seq<Problem>)
    ensures problems == [] <==> HasKeys(fields, keys)
  {
    problems := [];
    for i := 0 to |keys|
      invariant problems == [] <==> forall j | 0 <= j < i :: keys[j] in fields
    {
      if keys[i] !in fields {
        problems := problems + [Lacks(where, keys[i])];
      }
    }
  }

  method CheckFrame(d: Document) returns (problems: seq<Problem>)
    ensures problems == [] <==> WellFormedFrame(d)
  {
    problems := if IsOne(Get(d, "schema_version")) then [] else [SchemaVersion];
    for i := 0 to |TEXT_KEYS|
      invariant problems == [] <==>
                IsOne(Get(d, "schema_version")) && forall j | 0 <= j < i :: NonEmptyText(Get(d, TEXT_KEYS[j]))
    {
      if !NonEmptyText(Get(d, TEXT_KEYS[i])) {
        problems := problems + [NotText(TEXT_KEYS[i])];
      }
    }
    if Get(d, "mode") != Str("local") && Get(d, "mode") != Str("live") {
      problems := problems + [BadMode];
    }
    if Get(d, "verdict") != PASS && Get(d, "verdict") != FAIL && Get(d, "verdict") != HOLD {
      problems := problems + [BadVerdict];
    }
    var identities := CheckObject(d, "identities", IDENTITY_KEYS);
    var effects := CheckObject(d, "external_effect_counts", EFFECT_KEYS);
    problems := problems + identities + effects;
  }

  method CheckObject(d: Document, key: string, keys: seq<string>) returns (problems: seq<Problem>)
    ensures problems == [] <==> ObjWith(Get(d, key), keys)
  {
    match Get(d, key) {
      case Obj(fields) => problems := MissingKeys(key, fields, keys);
      case _ => problems := [NotAnObject(key)];
    }
  }

  /** The checks of one assertion entry besides its id. */
  method CheckAssertion(entry: Json) returns (problems: seq<Problem>)
    requires entry.Obj?
    ensures problems == [] <==> WellFormedAssertion(entry)
  {
    problems := MissingKeys("assertion", entry.fields, ASSERTION_KEYS);
    if !Judged(entry) {
      problems := problems + [BadStatus("assertion")];
    }
    if Status(entry) == PASS && Get(entry.fields, "ran") != Bool(true) {
      problems := problems + [PassedWithoutRunning];
    }
    if Status(entry) == PASS && !Truthy(Get(entry.fields, "commands")) {
      problems := problems + [PassedWithoutCommands];
    }
    if Status(entry) == PASS && Get(entry.fields, "observer") == Null {
      problems := problems + [PassedWithoutObservation];
    }
  }

  /** The loop over assertions; a `TypeError` escapes it at the first unhashable id. */
  method CheckAssertions(entries: seq<Json>) returns (report: Report)
    ensures report.TypeError? <==> exists i | 0 <= i < |entries| :: !Hashable(Id(entries[i]))
    ensures report.Problems? ==> (report.problems == [] <==> WellFormedAssertions(entries))
  {
    var problems: seq<Problem> := [];
    var seen: set<string> := {};
    for n := 0 to |entries|
      invariant forall i | 0 <= i < n :: Hashable(Id(entries[i]))
      invariant seen == Seen(entries[..n])
      invariant problems == [] <==> WellFormedAssertions(entries[..n])
    {
      var entry := entries[n];
      ghost var before, after := entries[..n], entries[..n + 1];
      assert after == before + [entry];
      if !Hashable(Id(entry)) {
        return TypeError;
      }
      assert after[..n] == before;
      AssertionsGrow(before, entry);
      if entry.Obj? {
        var found := CheckAssertion(entry);
        if Id(entry).Str? && Id(entry).text in seen {
          found := found + [ListedTwice(Id(entry).text)];
        }
        problems := problems + found;
        seen := seen + {PyStr(Id(entry))};
      } else {
        problems := problems + [EntryNotAnObject("assertion")];
      }
    }
    assert entries[..|entries|] == entries;
    return Problems(problems);
  }

  lemma AssertionsGrow(before: seq<Json>, entry: Json)
    requires forall i | 0 <= i < |before| :: Hashable(Id(before[i]))
    requires Hashable(Id(entry))
    ensures Seen(before + [entry]) == Seen(before) + (if entry.Obj? then {PyStr(Id(entry))} else {})
    ensures WellFormedAssertions(before + [entry]) <==>
            && WellFormedAssertions(before)
            && WellFormedAssertion(entry)
            && !(Id(entry).Str? && Id(entry).text in Seen(before))
  {
    var after := before + [entry];
    assert forall i | 0 <= i < |before| :: after[i] == before[i] && after[..i] == before[..i];
    assert after[..|before|] == before && after[|before|] == entry;
    forall s | s in Seen(before) ensures s in Seen(after) {
      var i :| 0 <= i < |before| && before[i].Obj? && s == PyStr(Id(before[i]));
      assert after[i] == before[i];
    }
    if WellFormedAssertions(after) {
      forall i | 0 <= i < |before| ensures WellFormedAssertion(before[i]) && !Repeated(before, i) {
        assert !Repeated(after, i);
      }
      assert !Repeated(after, |before|);
    }
  }

  method CheckControls(entries: seq<Json>) returns (problems: seq<Problem>)
    ensures problems == [] <==> forall i | 0 <= i < |entries| :: WellFormedControl(entries[i])
  {
    problems := [];
    for n := 0 to |entries|
      invariant problems == [] <==> forall i | 0 <= i < n :: WellFormedControl(entries[i])
    {
      match entries[n] {
        case Obj(fields) =>
          var missing := MissingKeys("control", fields, CONTROL_KEYS);
          problems := problems + missing;
          if !Judged(entries[n]) {
            problems := problems + [BadStatus("control")];
          }
        case _ => problems := problems + [EntryNotAnObject("control")];
      }
    }
  }

  /** `validate_evidence`: an empty list exactly for well-formed documents. */
  method Validate(d: Document) returns (report: Report)
    ensures report.TypeError? <==> !Readable(d)
    ensures report.Problems? ==> (report.problems == [] <==> WellFormed(d))
  {
    var problems := CheckFrame(d);
    if !Get(d, "assertions").Arr? {
      problems := problems + [NotAList("assertions")];
    }
    var assertions := CheckAssertions(Assertions(d));
    if assertions.TypeError? {
      return TypeError;
    }
    problems := problems + assertions.problems;
    if !Get(d, "controls").Arr? {
      problems := problems + [NotAList("controls")];
    }
    var controls := CheckControls(Controls(d));
    problems := problems + controls;
    if Get(d, "verdict") == PASS {
      if exists i | 0 <= i < |Assertions(d)| :: Assertions(d)[i].Obj? && Status(Assertions(d)[i]) != PASS {
        problems := problems + [PassWithFailure("assertion")];
      }
      if exists i | 0 <= i < |Controls(d)| :: Controls(d)[i].Obj? && Status(Controls(d)[i]) != PASS {
        problems := problems + [PassWithFailure("control")];
      }
    }
    return Problems(problems);
  }

  /** `exit_code_for`: zero exactly for a complete pass, three exactly for a well-formed hold. */
  method ExitCodeFor(d: Document) returns (code: Option<int>)
    ensures code.None? <==> !Readable(d)
    ensures Readable(d) ==> (code == Some(0) <==> Complete(d))
    ensures Readable(d) ==> (code == Some(3) <==> WellFormed(d) && Get(d, "verdict") == HOLD)
    ensures Readable(d) ==> code in {Some(0), Some(1), Some(3)} && code == Some(ExitCode(d))
  {
    VerdictsDiffer();
    var report := Validate(d);
    if report.TypeError? {
      return None;
    }
    if report.problems != [] {
      return Some(EXIT_FAIL);
    }
    if Get(d, "verdict") == HOLD {
      return Some(EXIT_HOLD);
    }
    if Get(d, "verdict") != PASS || Assertions(d) == [] {
      return Some(EXIT_FAIL);
    }
    var entries := Assertions(d) + Controls(d);
    for n := 0 to |entries|
      invariant forall i | 0 <= i < n :: Status(entries[i]) == PASS && Get(entries[i].fields, "ran") == Bool(true)
    {
      assert entries[n].Obj?;
      if Status(entries[n]) != PASS || Get(entries[n].fields, "ran") != Bool(true) {
        return Some(EXIT_FAIL);
      }
    }
    forall i | 0 <= i < |Controls(d)| ensures Get(Controls(d)[i].fields, "ran") == Bool(true) {
      assert Controls(d)[i] == entries[|Assertions(d)| + i];
    }
    return Some(EXIT_PASS);
  }

  // --- What the exit code says about the document's own fields --------------------------------

  predicate TextAt(fields: map<string, Json>, key: string) {
    key in fields && fields[key].Str? && fields[key].text != ""
  }

  predicate ObjectWith(fields: map<string, Json>, key: string, keys: set<string>) {
    key in fields && fields[key].Obj? && keys <= fields[key].fields.Keys
  }

  /** The frame, field by field. */
  lemma FrameOnFields(d: Document)
    ensures WellFormedFrame(d) <==>
            && "schema_version" in d && d["schema_version"] in {Num(1), Bool(true)}
            && TextAt(d, "scenario") && TextAt(d, "reason") && TextAt(d, "started_at") && TextAt(d, "ended_at")
            && "mode" in d && d["mode"] in {Str("local"), Str("live")}
            && "verdict" in d && d["verdict"] in {Str("pass"), Str("fail"), Str("hold")}
            && ObjectWith(d, "identities",
                          {"subject", "build", "config", "host", "engine", "image", "profile", "evaluator"})
            && ObjectWith(d, "external_effect_counts", {"hosted_inference_calls"})
  {
    TextsOnFields(d);
    IdentitiesOnFields(Get(d, "identities"));
    assert EFFECT_KEYS[0] == "hosted_inference_calls";
  }

  lemma TextsOnFields(d: Document)
    ensures (forall i | 0 <= i < |TEXT_KEYS| :: NonEmptyText(Get(d, TEXT_KEYS[i]))) <==>
            TextAt(d, "scenario") && TextAt(d, "reason") && TextAt(d, "started_at") && TextAt(d, "ended_at")
  {
    assert TEXT_KEYS[0] == "scenario" && TEXT_KEYS[1] == "reason";
    assert TEXT_KEYS[2] == "started_at" && TEXT_KEYS[3] == "ended_at";
    assert |TEXT_KEYS| == 4;
  }

  lemma IdentitiesOnFields(j: Json)
    ensures ObjWith(j, IDENTITY_KEYS) <==>
            j.Obj? && {"subject", "build", "config", "host", "engine", "image", "profile", "evaluator"} <= j.fields.Keys
  {
    KeysOf(IDENTITY_KEYS);
    assert KeySet(IDENTITY_KEYS)
        == {"subject", "build", "config", "host", "engine", "image", "profile", "evaluator"};
    if j.Obj? {
      HasKeysExactly(j.fields, IDENTITY_KEYS);
    }
  }

  function KeySet(keys: seq<string>): set<string> {
    set key | key in keys
  }

  lemma KeysOf(keys: seq<string>)
    ensures forall key :: key in KeySet(keys) <==> key in keys
  {
  }

  lemma HasKeysExactly(fields: map<string, Json>, keys: seq<string>)
    ensures HasKeys(fields, keys) <==> KeySet(keys) <= fields.Keys
  {
    if KeySet(keys) <= fields.Keys {
      forall i | 0 <= i < |keys| ensures keys[i] in fields {
        assert keys[i] in KeySet(keys);
      }
    }
  }

  /** An assertion that passed: it ran, with commands and a host-side observation. */
  predicate PassedAssertion(entry: Json) {
    && entry.Obj?
    && {"id", "description", "ran", "status", "commands", "observed", "expected", "observer", "raw_artifacts"}
       <= entry.fields.Keys
    && entry.fields["status"] == Str("pass") && entry.fields["ran"] == Bool(true)
    && Something(entry.fields["commands"]) && !entry.fields["observer"].Null?
  }

  predicate PassedControl(entry: Json) {
    && entry.Obj?
    && {"id", "description", "ran", "status", "commands", "observed", "expected"} <= entry.fields.Keys
    && entry.fields["status"] == Str("pass") && entry.fields["ran"] == Bool(true)
  }

  /** An assertion that failed is complete too, but need not have run. */
  predicate FailedAssertion(entry: Json) {
    && entry.Obj?
    && {"id", "description", "ran", "status", "commands", "observed", "expected", "observer", "raw_artifacts"}
       <= entry.fields.Keys
    && entry.fields["status"] == Str("fail")
  }

  predicate JudgedControl(entry: Json) {
    && entry.Obj?
    && {"id", "description", "ran", "status", "commands", "observed", "expected"} <= entry.fields.Keys
    && entry.fields["status"] in {Str("pass"), Str("fail")}
  }

  lemma AssertionKeys(fields: map<string, Json>)
    ensures HasKeys(fields, ASSERTION_KEYS) <==>
            {"id", "description", "ran", "status", "commands", "observed", "expected", "observer", "raw_artifacts"}
            <= fields.Keys
  {
    assert KeySet(ASSERTION_KEYS)
        == {"id", "description", "ran", "status", "commands", "observed", "expected", "observer", "raw_artifacts"};
    HasKeysExactly(fields, ASSERTION_KEYS);
  }

  lemma AssertionPassesOnFields(entry: Json)
    ensures WellFormedAssertion(entry) && Status(entry) == PASS <==> PassedAssertion(entry)
  {
    if entry.Obj? {
      AssertionKeys(entry.fields);
      TruthyExactly(Get(entry.fields, "commands"));
    }
  }

  lemma AssertionFailsOnFields(entry: Json)
    ensures WellFormedAssertion(entry) && Status(entry) == FAIL <==> FailedAssertion(entry)
  {
    VerdictsDiffer();
    if entry.Obj? {
      AssertionKeys(entry.fields);
    }
  }

  lemma AssertionOnFields(entry: Json)
    ensures WellFormedAssertion(entry) && Status(entry) == PASS <==> PassedAssertion(entry)
    ensures WellFormedAssertion(entry) <==> PassedAssertion(entry) || FailedAssertion(entry)
  {
    AssertionPassesOnFields(entry);
    AssertionFailsOnFields(entry);
  }

  lemma ControlOnFields(entry: Json)
    ensures WellFormedControl(entry) && Status(entry) == PASS && Get(entry.fields, "ran") == Bool(true) <==>
            PassedControl(entry)
    ensures WellFormedControl(entry) <==> JudgedControl(entry)
  {
    assert KeySet(CONTROL_KEYS) == {"id", "description", "ran", "status", "commands", "observed", "expected"};
    if entry.Obj? {
      HasKeysExactly(entry.fields, CONTROL_KEYS);
    }
  }

  /** The second entry's id is the string form of the first one's. */
  predicate SameId(first: Json, second: Json) {
    Hashable(Id(first)) && Id(second) == Str(PyStr(Id(first)))
  }

  /** No id repeats the text of an earlier one. */
  predicate IdsDistinct(entries: seq<Json>) {
    forall i, j | 0 <= i < j < |entries| :: !SameId(entries[i], entries[j])
  }

  lemma RepeatsOnFields(entries: seq<Json>)
    requires forall i | 0 <= i < |entries| :: entries[i].Obj? && Hashable(Id(entries[i]))
    ensures (forall j | 0 <= j < |entries| :: !Repeated(entries, j)) <==> IdsDistinct(entries)
  {
    forall j | 0 <= j < |entries|
      ensures Repeated(entries, j) <==> exists i | 0 <= i < j :: SameId(entries[i], entries[j])
    {
      var before := entries[..j];
      assert forall i | 0 <= i < j :: before[i] == entries[i];
    }
  }

  /** The assertions are a list of complete entries without repeated ids, the controls one of judged ones. */
  predicate ListsComplete(d: Document) {
    && "assertions" in d && d["assertions"].Arr? && "controls" in d && d["controls"].Arr?
    && (forall i | 0 <= i < |d["assertions"].items| ::
          PassedAssertion(d["assertions"].items[i]) || FailedAssertion(d["assertions"].items[i]))
    && IdsDistinct(d["assertions"].items)
    && (forall i | 0 <= i < |d["controls"].items| :: JudgedControl(d["controls"].items[i]))
  }

  lemma EntriesOnFields(entries: seq<Json>)
    requires forall i | 0 <= i < |entries| :: Hashable(Id(entries[i]))
    ensures WellFormedAssertions(entries) <==>
            && (forall i | 0 <= i < |entries| :: PassedAssertion(entries[i]) || FailedAssertion(entries[i]))
            && IdsDistinct(entries)
  {
    forall i | 0 <= i < |entries|
      ensures WellFormedAssertion(entries[i]) <==> PassedAssertion(entries[i]) || FailedAssertion(entries[i])
    {
      AssertionOnFields(entries[i]);
    }
    if forall i | 0 <= i < |entries| :: WellFormedAssertion(entries[i]) {
      RepeatsOnFields(entries);
    }
  }

  lemma ListsOnFields(d: Document)
    requires Readable(d)
    ensures ListsComplete(d) <==>
            && Get(d, "assertions").Arr? && WellFormedAssertions(Assertions(d)) && Get(d, "controls").Arr?
            && forall i | 0 <= i < |Controls(d)| :: WellFormedControl(Controls(d)[i])
  {
    EntriesOnFields(Assertions(d));
    forall i | 0 <= i < |Controls(d)| ensures WellFormedControl(Controls(d)[i]) <==> JudgedControl(Controls(d)[i]) {
      ControlOnFields(Controls(d)[i]);
    }
    var lists := Get(d, "assertions").Arr? && Get(d, "controls").Arr?;
    assert lists <==> "assertions" in d && d["assertions"].Arr? && "controls" in d && d["controls"].Arr?;
    if lists {
      assert Assertions(d) == d["assertions"].items && Controls(d) == d["controls"].items;
    }
  }

  predicate AllPassed(d: Document)
    requires "assertions" in d && d["assertions"].Arr? && "controls" in d && d["controls"].Arr?
  {
    && (forall i | 0 <= i < |d["assertions"].items| :: PassedAssertion(d["assertions"].items[i]))
    && (forall i | 0 <= i < |d["controls"].items| :: PassedControl(d["controls"].items[i]))
  }

  lemma PassesOnFields(d: Document)
    requires ListsComplete(d)
    ensures AllPassed(d) <==>
            && AllPass(Assertions(d)) && AllPass(Controls(d))
            && forall i | 0 <= i < |Controls(d)| :: Get(Controls(d)[i].fields, "ran") == Bool(true)
  {
    VerdictsDiffer();
    forall i | 0 <= i < |Controls(d)|
      ensures PassedControl(Controls(d)[i]) <==>
              Status(Controls(d)[i]) == PASS && Get(Controls(d)[i].fields, "ran") == Bool(true)
    {
      ControlOnFields(Controls(d)[i]);
    }
  }

  /**
   The exit codes, said of the document's own fields: zero when the frame is complete, the verdict is
   pass and there are assertions, all of them and all controls run and passed; three when frame and
   lists are complete and the verdict is hold.
   */
  lemma ExitOnFields(d: Document)
    requires Readable(d)
    ensures ExitCode(d) == 0 <==>
            && WellFormedFrame(d) && ListsComplete(d) && d["verdict"] == Str("pass")
            && d["assertions"].items != [] && AllPassed(d)
    ensures ExitCode(d) == 3 <==> WellFormedFrame(d) && ListsComplete(d) && d["verdict"] == Str("hold")
  {
    VerdictsDiffer();
    ListsOnFields(d);
    if ListsComplete(d) {
      PassesOnFields(d);
    }
  }

  /** The string form of ids that are not text. */
  lemma StringForms(n: nat)
    ensures PyStr(Null) == "None" && PyStr(Bool(true)) == "True" && PyStr(Bool(false)) == "False"
    ensures PyStr(Num(n)) == Decimal(n) && PyStr(Num(0 - 1 - n)) == "-" + Decimal(n + 1)
  {
  }
}
