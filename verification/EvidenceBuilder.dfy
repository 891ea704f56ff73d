/**
 The builder that turns recorded assertions and controls into a verdict
 (`scripts/factory_gate_evidence.py`).
 */
module EvidenceBuilder {
  import opened Common
  import opened Evidence
  import opened Text

  // --- The recorded state --------------------------------------------------------------------

  datatype Required = Required(id: string, description: string)

  datatype Entry = Entry(
    id: string,
    description: string,
    ran: bool,
    passed: bool,
    commands: seq<string>,
    observed: Json,
    expected: string,
    observer: Json,
    artifacts: seq<string>)

  datatype Control = Control(
    id: string, description: string, passed: bool, commands: seq<string>, observed: Json, expected: string)

  datatype State = State(
    scenario: string,
    live: bool,
    startedAt: string,
    required: seq<Required>,        // in the order the scenario lists them
    assertions: map<string, Entry>,
    controls: seq<Control>,
    hold: Option<string>,
    abort: Option<string>)

  predicate IsRequired(s: State, id: string) {
    exists i | 0 <= i < |s.required| :: s.required[i].id == id
  }

  function DescriptionOf(required: seq<Required>, id: string): string {
    if required == [] then "" else if required[0].id == id then required[0].description
    else DescriptionOf(required[1..], id)
  }

  /** One recording call of a scenario. */
  datatype Call =
    | Assert(id: string, passed: bool, commands: seq<string>, observed: Json, expected: string,
             observer: Json, artifacts: seq<string>, description: string)
    | FailAssertion(id: string, reason: string, commands: seq<string>, artifacts: seq<string>)
    | RecordControl(id: string, description: string, passed: bool, commands: seq<string>, observed: Json,
                    expected: string)
    | SetHold(reason: string)
    | SetAbort(reason: string)

  /** The call raises `EvidenceError` and records nothing. */
  predicate Rejected(s: State, call: Call) {
    match call
    case Assert(id, _, _, _, _, observer, _, _) => !IsRequired(s, id) || id in s.assertions || observer == Null
    case FailAssertion(id, _, _, _) => id !in s.assertions && !IsRequired(s, id)
    case RecordControl(id, _, _, _, _, _) => exists i | 0 <= i < |s.controls| :: s.controls[i].id == id
    case _ => false
  }

  function Recorded(s: State, call: Call): State {
    if Rejected(s, call) then s else
    match call
    case Assert(id, passed, commands, observed, expected, observer, artifacts, description) =>
      var text := if description != "" then description else DescriptionOf(s.required, id);
      var entry := Entry(id, text, true, passed, commands, observed, expected, observer, artifacts);
      s.(assertions := s.assertions[id := entry])
    case FailAssertion(id, reason, commands, artifacts) =>
      if id in s.assertions then s
      else
        s.(assertions := s.assertions[id := Entry(
             id, DescriptionOf(s.required, id), false, false, commands, Obj(map["error" := Str(reason)]),
             "the assertion runs to completion", Obj(map["not_observed" := Str(reason)]), artifacts)])
    case RecordControl(id, description, passed, commands, observed, expected) =>
      s.(controls := s.controls + [Control(id, description, passed, commands, observed, expected)])
    case SetHold(reason) => s.(hold := Some(reason))
    case SetAbort(reason) =>
      // `self._abort or reason`: the first reason that is not empty stays.
      if s.abort.Some? && s.abort.value != "" then s else s.(abort := Some(reason))
  }

  function {:tailrecursion false} RecordedAll(s: State, calls: seq<Call>): State
    decreases |calls|
  {
    if calls == [] then s else RecordedAll(Recorded(s, calls[0]), calls[1..])
  }

  ghost predicate Valid(s: State) {
    && s.startedAt != ""
    && (forall i, j | 0 <= i < j < |s.required| :: s.required[i].id != s.required[j].id)
    && (forall id | id in s.assertions ::
          && IsRequired(s, id)
          && s.assertions[id].id == id
          && (s.assertions[id].passed ==> s.assertions[id].ran && s.assertions[id].observer != Null))
  }

  lemma {:induction false} DescriptionIsListed(required: seq<Required>, i: nat)
    requires i < |required| && forall j | 0 <= j < i :: required[j].id != required[i].id
    ensures DescriptionOf(required, required[i].id) == required[i].description
  {
    if i > 0 {
      assert required[1..][i - 1] == required[i];
      assert forall j | 0 <= j < i - 1 :: required[1..][j] == required[j + 1];
      DescriptionIsListed(required[1..], i - 1);
    }
  }

  /**
   An assertion is recorded exactly when the scenario lists it, it was not recorded before and somebody
   observed it; it is then the one new entry, described by the call or else by the list.
   */
  lemma AssertExactly(s: State, call: Call, r: Required)
    requires Valid(s) && call.Assert?
    ensures call.id !in s.assertions && call.observer != Null && r in s.required && r.id == call.id ==>
              Recorded(s, call) == s.(assertions := s.assertions[call.id := Entry(
                call.id, if call.description == "" then r.description else call.description, true, call.passed,
                call.commands, call.observed, call.expected, call.observer, call.artifacts)])
    ensures (call.id in s.assertions || call.observer == Null || forall q | q in s.required :: q.id != call.id) ==>
              Rejected(s, call) && Recorded(s, call) == s
  {
    if r in s.required && r.id == call.id {
      var i :| 0 <= i < |s.required| && s.required[i] == r;
      DescriptionIsListed(s.required, i);
    }
    if IsRequired(s, call.id) {
      var i :| 0 <= i < |s.required| && s.required[i].id == call.id;
      assert s.required[i] in s.required;
    }
  }

  lemma RecordedKeepsValid(s: State, call: Call)
    requires Valid(s)
    ensures Valid(Recorded(s, call))
    ensures Recorded(s, call).scenario == s.scenario && Recorded(s, call).required == s.required
  {
    var t := Recorded(s, call);
    forall id | id in t.assertions ensures IsRequired(t, id) && t.assertions[id].id == id {
      if id in s.assertions {
        assert t.assertions[id] == s.assertions[id];
        assert IsRequired(s, id);
      }
    }
  }

  lemma {:induction false} RecordingKeepsValid(s: State, calls: seq<Call>)
    requires Valid(s)
    ensures Valid(RecordedAll(s, calls))
    ensures RecordedAll(s, calls).scenario == s.scenario && RecordedAll(s, calls).required == s.required
    decreases |calls|
  {
    if calls != [] {
      RecordedKeepsValid(s, calls[0]);
      RecordingKeepsValid(Recorded(s, calls[0]), calls[1..]);
    }
  }

  // --- The document --------------------------------------------------------------------------

  function StatusJson(passed: bool): Json {
    if passed then PASS else FAIL
  }

  function Texts(texts: seq<string>): Json {
    Arr(seq(|texts|, i requires 0 <= i < |texts| => Str(texts[i])))
  }

  function EntryJson(e: Entry): Json {
    Obj(map["id" := Str(e.id), "description" := Str(e.description), "ran" := Bool(e.ran),
            "status" := StatusJson(e.passed), "commands" := Texts(e.commands), "observed" := e.observed,
            "expected" := Str(e.expected), "observer" := e.observer, "raw_artifacts" := Texts(e.artifacts)])
  }

  function ControlJson(c: Control): Json {
    Obj(map["id" := Str(c.id), "description" := Str(c.description), "ran" := Bool(true),
            "status" := StatusJson(c.passed), "commands" := Texts(c.commands), "observed" := c.observed,
            "expected" := Str(c.expected)])
  }

  /** The entry a required assertion contributes; one that was not recorded did not run and fails. */
  function CompletedEntry(s: State, r: Required): Entry {
    if r.id in s.assertions then s.assertions[r.id]
    else
      var reason :=
        if s.hold.Some? && s.hold.value != "" then "not run: the scenario is held (" + s.hold.value + ")"
        else "not run: the scenario ended before this assertion ran";
      Entry(r.id, r.description, false, false, [], Obj(map["error" := Str(reason)]),
            "the assertion runs and passes", Null, [])
  }

  /** An assertion that was never recorded counts as one that did not run, for the reason that is true. */
  lemma NotRunExactly(s: State, r: Required)
    requires r.id !in s.assertions
    ensures var reason := if s.hold in {None, Some("")} then "not run: the scenario ended before this assertion ran"
                          else "not run: the scenario is held (" + s.hold.value + ")";
            CompletedEntry(s, r) ==
            Entry(r.id, r.description, false, false, [], Obj(map["error" := Str(reason)]),
                  "the assertion runs and passes", Null, [])
  {
  }

  function Completed(s: State): seq<Entry> {
    seq(|s.required|, i requires 0 <= i < |s.required| => CompletedEntry(s, s.required[i]))
  }

  predicate SomeFailed(s: State) {
    || (exists i | 0 <= i < |s.required| :: !CompletedEntry(s, s.required[i]).passed)
    || (exists i | 0 <= i < |s.controls| :: !s.controls[i].passed)
  }

  function VerdictOf(s: State): Json {
    if s.hold.Some? then HOLD
    else if s.abort.Some? then FAIL
    else if SomeFailed(s) then FAIL
    else PASS
  }

  function FailedEntries(entries: seq<Entry>): seq<string> {
    if entries == [] then []
    else (if entries[0].passed then [] else [entries[0].id]) + FailedEntries(entries[1..])
  }

  function FailedControls(controls: seq<Control>): seq<string> {
    if controls == [] then []
    else (if controls[0].passed then [] else [controls[0].id]) + FailedControls(controls[1..])
  }

  function Joined(texts: seq<string>, separator: string): string {
    if texts == [] then "" else if |texts| == 1 then texts[0]
    else texts[0] + separator + Joined(texts[1..], separator)
  }

  lemma JoinedExactly(text: string, rest: seq<string>, separator: string)
    ensures Joined([], separator) == "" && Joined([text], separator) == text
    ensures rest != [] ==> Joined([text] + rest, separator) == text + separator + Joined(rest, separator)
  {
    assert ([text] + rest)[1..] == rest;
  }

  function FailureReason(failed: seq<string>, failedControls: seq<string>): string {
    (if failed != [] then "failed or not-run assertions: " + Joined(failed, ", ") else "")
    + (if failed != [] && failedControls != [] then "; " else "")
    + (if failedControls != [] then "failed controls: " + Joined(failedControls, ", ") else "")
  }

  function ReasonOf(s: State): string {
    if s.hold.Some? then s.hold.value
    else if s.abort.Some? then s.abort.value
    else if SomeFailed(s) then FailureReason(FailedEntries(Completed(s)), FailedControls(s.controls))
    else "all " + Decimal(|s.required|) + " required assertions ran and passed"
  }

  lemma FailureReasonExactly(failed: seq<string>, controls: seq<string>)
    ensures controls == [] && failed != [] ==>
              FailureReason(failed, controls) == "failed or not-run assertions: " + Joined(failed, ", ")
    ensures failed == [] && controls != [] ==>
              FailureReason(failed, controls) == "failed controls: " + Joined(controls, ", ")
    ensures failed != [] && controls != [] ==>
              FailureReason(failed, controls) ==
              "failed or not-run assertions: " + Joined(failed, ", ") + "; "
              + ("failed controls: " + Joined(controls, ", "))
  {
  }

  lemma SomeFailedExactly(s: State)
    ensures SomeFailed(s) <==> FailedEntries(Completed(s)) != [] || FailedControls(s.controls) != []
  {
    FailedEntriesExactly(Completed(s));
    FailedControlsExactly(s.controls);
    assert forall i | 0 <= i < |s.required| :: Completed(s)[i] == CompletedEntry(s, s.required[i]);
  }

  /** Without hold and abort the reason says that all passed, or names what failed. */
  lemma ReasonExactly(s: State)
    requires s.hold.None? && s.abort.None?
    ensures var failed, controls := FailedEntries(Completed(s)), FailedControls(s.controls);
            ReasonOf(s) == if failed == [] && controls == []
                           then "all " + Decimal(|s.required|) + " required assertions ran and passed"
                           else FailureReason(failed, controls)
  {
    SomeFailedExactly(s);
  }

  /** What the caller adds to the document. */
  datatype Frame = Frame(
    identities: map<string, Json>, effects: map<string, Json>, artifactsDir: Json, endedAt: string,
    notRequested: map<string, Json>, details: map<string, Json>)

  function Draft(s: State, f: Frame): Document {
    map["schema_version" := Num(1),
        "scenario" := Str(s.scenario),
        "mode" := Str(if s.live then "live" else "local"),
        "verdict" := VerdictOf(s),
        "reason" := Str(ReasonOf(s)),
        "started_at" := Str(s.startedAt),
        "ended_at" := Str(f.endedAt),
        "identities" := Obj(f.identities),
        "assertions" := Arr(seq(|s.required|, i requires 0 <= i < |s.required| =>
          EntryJson(CompletedEntry(s, s.required[i])))),
        "controls" := Arr(seq(|s.controls|, i requires 0 <= i < |s.controls| => ControlJson(s.controls[i]))),
        "external_effect_counts" := Obj(f.effects),
        "raw_artifacts_dir" := f.artifactsDir,
        "optional_not_requested" := Obj(f.notRequested),
        "details" := Obj(f.details)]
  }

  /** The fields that no validation asks for are there too. */
  lemma DraftCarries(s: State, f: Frame)
    ensures var d := Draft(s, f);
            && "raw_artifacts_dir" in d && d["raw_artifacts_dir"] == f.artifactsDir
            && "optional_not_requested" in d && d["optional_not_requested"] == Obj(f.notRequested)
            && "details" in d && d["details"] == Obj(f.details)
  {
  }

  /** A document that does not validate is turned into a failure. */
  function Sealed(d: Document): Document
    requires Readable(d)
  {
    if WellFormed(d) then d
    else d["verdict" := FAIL]["reason" := Str("the evidence document is malformed")]
  }

  // --- What the verdict means ----------------------------------------------------------------

  /** Every required assertion was recorded passing with a command, and every control passed. */
  predicate Passing(s: State) {
    && s.hold.None? && s.abort.None?
    && s.required != []
    && (forall i | 0 <= i < |s.required| ::
          && s.required[i].id in s.assertions
          && s.assertions[s.required[i].id].passed
          && s.assertions[s.required[i].id].commands != [])
    && (forall i | 0 <= i < |s.controls| :: s.controls[i].passed)
  }

  lemma DraftHead(s: State, f: Frame)
    ensures var d := Draft(s, f);
            && Get(d, "schema_version") == Num(1)
            && Get(d, "scenario") == Str(s.scenario)
            && Get(d, "reason") == Str(ReasonOf(s))
            && Get(d, "started_at") == Str(s.startedAt)
            && Get(d, "ended_at") == Str(f.endedAt)
  {
  }

  lemma DraftBody(s: State, f: Frame)
    ensures var d := Draft(s, f);
            && Get(d, "mode") == Str(if s.live then "live" else "local")
            && Get(d, "verdict") == VerdictOf(s)
            && Get(d, "identities") == Obj(f.identities)
            && Get(d, "external_effect_counts") == Obj(f.effects)
            && Get(d, "assertions").Arr? && |Assertions(d)| == |s.required|
            && Get(d, "controls").Arr? && |Controls(d)| == |s.controls|
            && (forall i | 0 <= i < |s.required| :: Assertions(d)[i] == EntryJson(CompletedEntry(s, s.required[i])))
            && (forall i | 0 <= i < |s.controls| :: Controls(d)[i] == ControlJson(s.controls[i]))
  {
  }

  lemma EntryFields(e: Entry)
    ensures var j := EntryJson(e);
            && HasKeys(j.fields, ASSERTION_KEYS)
            && Id(j) == Str(e.id) && Status(j) == StatusJson(e.passed)
            && Get(j.fields, "ran") == Bool(e.ran) && Get(j.fields, "observer") == e.observer
            && (Truthy(Get(j.fields, "commands")) <==> e.commands != [])
  {
  }

  lemma ControlFields(c: Control)
    ensures var j := ControlJson(c);
            && HasKeys(j.fields, CONTROL_KEYS)
            && Status(j) == StatusJson(c.passed) && Get(j.fields, "ran") == Bool(true)
  {
  }

  lemma {:induction false} FailedEntriesExactly(entries: seq<Entry>)
    ensures FailedEntries(entries) == [] <==> forall i | 0 <= i < |entries| :: entries[i].passed
    ensures forall id :: id in FailedEntries(entries) <==>
              exists i | 0 <= i < |entries| :: entries[i].id == id && !entries[i].passed
  {
    if entries != [] {
      FailedEntriesExactly(entries[1..]);
      assert forall i | 0 < i < |entries| :: entries[i] == entries[1..][i - 1];
    }
  }

  lemma {:induction false} FailedControlsExactly(controls: seq<Control>)
    ensures FailedControls(controls) == [] <==> forall i | 0 <= i < |controls| :: controls[i].passed
    ensures forall id :: id in FailedControls(controls) <==>
              exists i | 0 <= i < |controls| :: controls[i].id == id && !controls[i].passed
  {
    if controls != [] {
      FailedControlsExactly(controls[1..]);
      assert forall i | 0 < i < |controls| :: controls[i] == controls[1..][i - 1];
    }
  }

  /** Only an empty hold or abort reason leaves the document without one. */
  lemma ReasonIsText(s: State)
    ensures ReasonOf(s) != "" <==> !(s.hold == Some("") || (s.hold.None? && s.abort == Some("")))
  {
    SomeFailedExactly(s);
  }

  /** Recorded passes carry at least one command. */
  predicate Commanded(s: State) {
    forall i | 0 <= i < |s.required| ::
      CompletedEntry(s, s.required[i]).passed ==> CompletedEntry(s, s.required[i]).commands != []
  }

  predicate FrameComplete(s: State, f: Frame) {
    s.scenario != "" && HasKeys(f.identities, IDENTITY_KEYS) && HasKeys(f.effects, EFFECT_KEYS)
  }

  lemma DraftTexts(s: State, f: Frame)
    ensures (forall i | 0 <= i < |TEXT_KEYS| :: NonEmptyText(Get(Draft(s, f), TEXT_KEYS[i]))) <==>
            s.scenario != "" && ReasonOf(s) != "" && s.startedAt != "" && f.endedAt != ""
  {
    DraftHead(s, f);
    var d := Draft(s, f);
    assert TEXT_KEYS[0] == "scenario" && TEXT_KEYS[1] == "reason" && TEXT_KEYS[2] == "started_at"
      && TEXT_KEYS[3] == "ended_at";
    assert (forall i | 0 <= i < |TEXT_KEYS| :: NonEmptyText(Get(d, TEXT_KEYS[i]))) <==>
           && NonEmptyText(Get(d, TEXT_KEYS[0])) && NonEmptyText(Get(d, TEXT_KEYS[1]))
           && NonEmptyText(Get(d, TEXT_KEYS[2])) && NonEmptyText(Get(d, TEXT_KEYS[3]));
  }

  lemma DraftFrame(s: State, f: Frame)
    requires Valid(s) && f.endedAt != ""
    ensures WellFormedFrame(Draft(s, f)) <==> FrameComplete(s, f) && ReasonOf(s) != ""
  {
    DraftHead(s, f);
    DraftBody(s, f);
    DraftTexts(s, f);
  }

  lemma CompletedFields(s: State, i: nat)
    requires Valid(s) && i < |s.required|
    ensures var e := CompletedEntry(s, s.required[i]);
            e.id == s.required[i].id && (e.passed ==> e.ran && e.observer != Null)
  {
  }

  lemma DraftIsReadable(s: State, f: Frame)
    requires Valid(s)
    ensures Readable(Draft(s, f))
    ensures forall i | 0 <= i < |s.required| :: Id(Assertions(Draft(s, f))[i]) == Str(s.required[i].id)
  {
    DraftBody(s, f);
    forall i | 0 <= i < |s.required| ensures Id(Assertions(Draft(s, f))[i]) == Str(s.required[i].id) {
      CompletedFields(s, i);
      EntryFields(CompletedEntry(s, s.required[i]));
    }
  }

  lemma EntryWellFormed(e: Entry)
    requires e.passed ==> e.ran && e.observer != Null
    ensures WellFormedAssertion(EntryJson(e)) <==> (e.passed ==> e.commands != [])
  {
    EntryFields(e);
  }

  lemma DistinctNotRepeated(entries: seq<Json>, ids: seq<string>, n: nat)
    requires |ids| == |entries| && n < |entries|
    requires forall i | 0 <= i < |entries| :: Id(entries[i]) == Str(ids[i])
    requires forall i, j | 0 <= i < j < |ids| :: ids[i] != ids[j]
    ensures !Repeated(entries, n)
  {
    var before := entries[..n];
    forall i | 0 <= i < n && before[i].Obj? ensures PyStr(Id(before[i])) != ids[n] {
      assert before[i] == entries[i];
    }
  }

  lemma DraftAssertions(s: State, f: Frame)
    requires Valid(s) && Readable(Draft(s, f))
    ensures WellFormedAssertions(Assertions(Draft(s, f))) <==> Commanded(s)
  {
    var entries := Assertions(Draft(s, f));
    var ids := seq(|s.required|, i requires 0 <= i < |s.required| => s.required[i].id);
    DraftBody(s, f);
    DraftIsReadable(s, f);
    forall i | 0 <= i < |entries| ensures !Repeated(entries, i) {
      DistinctNotRepeated(entries, ids, i);
    }
    forall i | 0 <= i < |entries|
      ensures WellFormedAssertion(entries[i]) <==>
              (CompletedEntry(s, s.required[i]).passed ==> CompletedEntry(s, s.required[i]).commands != [])
    {
      CompletedFields(s, i);
      EntryWellFormed(CompletedEntry(s, s.required[i]));
    }
  }

  lemma DraftStatuses(s: State, f: Frame)
    ensures AllPass(Assertions(Draft(s, f))) && AllPass(Controls(Draft(s, f))) <==> !SomeFailed(s)
    ensures forall i | 0 <= i < |s.controls| ::
              WellFormedControl(Controls(Draft(s, f))[i]) && Get(Controls(Draft(s, f))[i].fields, "ran") == Bool(true)
  {
    var d := Draft(s, f);
    DraftBody(s, f);
    forall i | 0 <= i < |s.required|
      ensures Status(Assertions(d)[i]) == StatusJson(CompletedEntry(s, s.required[i]).passed)
    {
      EntryFields(CompletedEntry(s, s.required[i]));
    }
    forall i | 0 <= i < |s.controls|
      ensures Status(Controls(d)[i]) == StatusJson(s.controls[i].passed)
      ensures WellFormedControl(Controls(d)[i]) && Get(Controls(d)[i].fields, "ran") == Bool(true)
    {
      ControlFields(s.controls[i]);
    }
  }

  /** The draft validates exactly when its frame is complete and every pass is backed by a command. */
  lemma DraftWellFormed(s: State, f: Frame)
    requires Valid(s) && f.endedAt != ""
    ensures Readable(Draft(s, f))
    ensures WellFormed(Draft(s, f)) <==> FrameComplete(s, f) && ReasonOf(s) != "" && Commanded(s)
  {
    DraftIsReadable(s, f);
    DraftFrame(s, f);
    DraftAssertions(s, f);
    DraftStatuses(s, f);
    DraftBody(s, f);
  }

  lemma SealedFields(d: Document)
    requires Readable(d)
    ensures Assertions(Sealed(d)) == Assertions(d)
    ensures !WellFormed(d) ==> Get(Sealed(d), "verdict") == FAIL
  {
    assert "assertions" != "verdict" && "assertions" != "reason" && "verdict" != "reason";
  }

  lemma SealedExit(d: Document)
    requires Readable(d)
    ensures Readable(Sealed(d))
    ensures ExitCode(Sealed(d)) == if WellFormed(d) then ExitCode(d) else 1
  {
    SealedFields(d);
  }

  lemma DraftExit(s: State, f: Frame)
    requires Valid(s) && f.endedAt != ""
    ensures Readable(Draft(s, f)) && Readable(Sealed(Draft(s, f)))
    ensures ExitCode(Sealed(Draft(s, f))) ==
            if !WellFormed(Draft(s, f)) then 1
            else if VerdictOf(s) == HOLD then 3
            else if VerdictOf(s) == PASS && s.required != [] then 0
            else 1
  {
    DraftWellFormed(s, f);
    SealedExit(Draft(s, f));
    DraftStatuses(s, f);
    DraftBody(s, f);
  }

  /**
   The exit code of the built document, for every state the recording calls can reach: zero exactly
   when everything required passed, three exactly for a stated hold over a well-formed document.
   */
  lemma ExitCodeExactly(s: State, f: Frame)
    requires Valid(s) && f.endedAt != ""
    ensures Readable(Draft(s, f)) && Readable(Sealed(Draft(s, f)))
    ensures ExitCode(Sealed(Draft(s, f))) == 0 <==> Passing(s) && FrameComplete(s, f)
    ensures ExitCode(Sealed(Draft(s, f))) == 3 <==>
            s.hold.Some? && s.hold.value != "" && FrameComplete(s, f) && Commanded(s)
    ensures ExitCode(Sealed(Draft(s, f))) in {0, 1, 3}
  {
    DraftExit(s, f);
    DraftWellFormed(s, f);
    ReasonIsText(s);
    PassingExactly(s);
  }

  lemma PassingExactly(s: State)
    ensures Passing(s) <==>
            s.hold.None? && s.abort.None? && s.required != [] && !SomeFailed(s) && Commanded(s)
  {
    forall i | 0 <= i < |s.required|
      ensures CompletedEntry(s, s.required[i]).passed <==>
              s.required[i].id in s.assertions && s.assertions[s.required[i].id].passed
      ensures s.required[i].id in s.assertions ==>
              CompletedEntry(s, s.required[i]) == s.assertions[s.required[i].id]
    {
    }
  }

  // --- Failures last -------------------------------------------------------------------------

  /** The verdict-deciding facts that no later call can undo. */
  ghost predicate Failing(s: State) {
    || (exists id | id in s.assertions :: !s.assertions[id].passed)
    || (exists i | 0 <= i < |s.controls| :: !s.controls[i].passed)
    || s.abort.Some?
  }

  lemma RecordedStaysFailing(s: State, call: Call)
    requires Failing(s)
    ensures Failing(Recorded(s, call))
  {
    var t := Recorded(s, call);
    if i :| 0 <= i < |s.controls| && !s.controls[i].passed {
      assert t.controls[i] == s.controls[i];
    } else if id :| id in s.assertions && !s.assertions[id].passed {
      assert t.assertions[id] == s.assertions[id];
    }
  }

  lemma {:induction false} FailureIsForever(s: State, calls: seq<Call>)
    requires Failing(s)
    ensures Failing(RecordedAll(s, calls))
    decreases |calls|
  {
    if calls != [] {
      RecordedStaysFailing(s, calls[0]);
      FailureIsForever(Recorded(s, calls[0]), calls[1..]);
    }
  }

  lemma FailingExit(s: State, f: Frame)
    requires Valid(s) && Failing(s) && f.endedAt != ""
    ensures var d := Draft(s, f);
            && Readable(d) && Readable(Sealed(d))
            && ExitCode(Sealed(d)) != 0
            && (s.hold.None? ==> ExitCode(Sealed(d)) == 1)
  {
    ExitCodeExactly(s, f);
    assert !Passing(s) by {
      if id :| id in s.assertions && !s.assertions[id].passed {
        assert IsRequired(s, id);
      }
    }
  }

  /** Once anything failed or aborted, whatever is recorded afterwards, the exit code is not zero. */
  lemma FailureNeverPasses(s: State, calls: seq<Call>, f: Frame)
    requires Valid(s) && Failing(s) && f.endedAt != ""
    ensures var d := Draft(RecordedAll(s, calls), f);
            Readable(d) && Readable(Sealed(d)) && ExitCode(Sealed(d)) != 0
  {
    FailureIsForever(s, calls);
    RecordingKeepsValid(s, calls);
    FailingExit(RecordedAll(s, calls), f);
  }

  /** Any scrubbing that leaves the verdict field alone cannot turn a hold or a failure into a pass. */
  lemma ScrubbingNeverPasses(s: State, scrubbed: Document)
    requires Readable(scrubbed) && Get(scrubbed, "verdict") == VerdictOf(s)
    requires s.hold.Some? || s.abort.Some? || SomeFailed(s)
    ensures Readable(Sealed(scrubbed)) && ExitCode(Sealed(scrubbed)) != 0
  {
    SealedExit(scrubbed);
  }

  /** An assertion without raw artifacts of its own refers to what the raw writer stored for it. */
  function References(artifacts: seq<string>, written: Option<string>): seq<string> {
    if artifacts == [] && written.Some? then [written.value] else artifacts
  }

  // --- The object the scenarios record on ----------------------------------------------------

  class Builder {
    const scenario: string
    const live: bool
    const startedAt: string
    const required: seq<Required>
    var assertions: map<string, Entry>
    var controls: seq<Control>
    var hold: Option<string>
    var abort: Option<string>

    function Value(): State
      reads this
    {
      State(scenario, live, startedAt, required, assertions, controls, hold, abort)
    }

    constructor (scenario: string, live: bool, startedAt: string, required: seq<Required>)
      ensures Value() == State(scenario, live, startedAt, required, map[], [], None, None)
    {
      this.scenario, this.live, this.startedAt, this.required := scenario, live, startedAt, required;
      assertions, controls, hold, abort := map[], [], None, None;
    }

    /**
     Returns whether the call was accepted; a rejected one raises `EvidenceError` in the source.
     `written` is the reference the raw writer returns, when the builder has one.
     */
    method Assertion(
      id: string, passed: bool, commands: seq<string>, observed: Json, expected: string, observer: Json,
      artifacts: seq<string>, description: string, written: Option<string>)
      returns (accepted: bool)
      modifies this
      ensures var references := References(artifacts, written);
              var call := Assert(id, passed, commands, observed, expected, observer, references, description);
              accepted == !Rejected(old(Value()), call) && Value() == Recorded(old(Value()), call)
    {
      if !IsRequired(Value(), id) || id in assertions || observer == Null {
        return false;
      }
      var references := artifacts;
      if references == [] && written.Some? {
        references := references + [written.value];
        assert references == [written.value];
      }
      var text := if description != "" then description else DescriptionOf(required, id);
      assertions := assertions[id := Entry(id, text, true, passed, commands, observed, expected, observer, references)];
      return true;
    }

    method Fail(id: string, reason: string, commands: seq<string>, written: Option<string>) returns (accepted: bool)
      modifies this
      ensures var call := FailAssertion(id, reason, commands, References([], written));
              accepted == !Rejected(old(Value()), call) && Value() == Recorded(old(Value()), call)
    {
      if id in assertions {
        return true;
      }
      accepted := Assertion(id, false, commands, Obj(map["error" := Str(reason)]), "the assertion runs to completion",
                            Obj(map["not_observed" := Str(reason)]), [], "", written);
      if accepted {
        assertions := assertions[id := assertions[id].(ran := false)];
      }
    }

    method RecordControlResult(
      id: string, description: string, passed: bool, commands: seq<string>, observed: Json, expected: string)
      returns (accepted: bool)
      modifies this
      ensures var call := RecordControl(id, description, passed, commands, observed, expected);
              accepted == !Rejected(old(Value()), call) && Value() == Recorded(old(Value()), call)
    {
      if exists i | 0 <= i < |controls| :: controls[i].id == id {
        return false;
      }
      controls := controls + [Control(id, description, passed, commands, observed, expected)];
      return true;
    }

    method HoldFor(reason: string)
      modifies this
      ensures Value() == Recorded(old(Value()), SetHold(reason))
    {
      hold := Some(reason);
    }

    method AbortFor(reason: string)
      modifies this
      ensures Value() == Recorded(old(Value()), SetAbort(reason))
    {
      abort := if abort.Some? && abort.value != "" then abort else Some(reason);
    }

    /** `_complete_assertions`: one entry per required assertion, in order. */
    method CompleteAssertions() returns (entries: seq<Entry>)
      ensures entries == Completed(Value())
    {
      entries := [];
      for i := 0 to |required|
        invariant entries == Completed(Value())[..i]
      {
        entries := entries + [CompletedEntry(Value(), required[i])];
      }
    }

    /** `build`, for documents the scrubber leaves as they are. */
    method Build(f: Frame) returns (d: Document)
      requires Valid(Value()) && f.endedAt != ""
      ensures Readable(Draft(Value(), f)) && d == Sealed(Draft(Value(), f))
    {
      DraftIsReadable(Value(), f);
      d := Draft(Value(), f);
      var report := Validate(d);
      if report.problems != [] {
        d := d["verdict" := FAIL]["reason" := Str("the evidence document is malformed")];
      }
    }
  }
}
