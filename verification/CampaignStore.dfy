/**
 The campaign as an object over its manifest file: the operations of `Campaign`, the binding of
 protocol verdicts, and the final verification (`scripts/factory_gate_campaign.py`).
 */
module CampaignStore {
  import opened Common
  import opened Evidence
  import C = Campaign
  import opened Campaign

  // --- Binding a protocol verdict ------------------------------------------------------------

  /** How a payload decodes: the JSON object it holds, if it holds one. */
  type Decoder = Bytes -> Option<Document>

  /** The document is a complete pass of the protocol scenario for this campaign and harness. */
  predicate PassesFor(d: Document, campaignId: string, harness: Harness) {
    && Readable(d) && ExitCode(d) == 0
    && Get(d, "identities").Obj?
    && Get(Get(d, "identities").fields, "config").Obj?
    && var config := Get(Get(d, "identities").fields, "config").fields;
       Get(config, "campaign_id") == Str(campaignId) && Get(config, "harness") == Str(HarnessName(harness))
  }

  /** The verdict `record_protocol_evidence` derives from a decoded document. */
  function VerdictFor(d: Document, campaignId: string, harness: Harness): Verdict {
    if !IsOne(Get(d, "schema_version")) || Get(d, "scenario") != Str("protocol") then Invalid
    else if Get(d, "verdict") == PASS then (if PassesFor(d, campaignId, harness) then Pass else Invalid)
    else if Get(d, "verdict") == FAIL then Verdict.Fail
    else if Get(d, "verdict") == HOLD then Verdict.Hold
    else Invalid
  }

  /** The document's own `config` names this campaign and harness. */
  predicate ConfiguredFor(d: Document, campaignId: string, harness: string) {
    && "identities" in d && d["identities"].Obj? && "config" in d["identities"].fields
    && var config := d["identities"].fields["config"];
       && config.Obj?
       && "campaign_id" in config.fields && config.fields["campaign_id"] == Str(campaignId)
       && "harness" in config.fields && config.fields["harness"] == Str(harness)
  }

  /** A protocol verdict of the reference harnesses, read off the document itself. */
  lemma VerdictExactly(d: Document, campaignId: string, harness: Harness)
    requires harness in {Omp, Claude}
    ensures var identified := "schema_version" in d && d["schema_version"] in {Num(1), Bool(true)}
                              && "scenario" in d && d["scenario"] == Str("protocol") && "verdict" in d;
            var verdict := VerdictFor(d, campaignId, harness);
            && (verdict == Pass <==>
                  && identified && d["verdict"] == Str("pass") && Readable(d) && ExitCode(d) == 0
                  && ConfiguredFor(d, campaignId, if harness == Omp then "omp" else "claude"))
            && (verdict == Verdict.Fail <==> identified && d["verdict"] == Str("fail"))
            && (verdict == Verdict.Hold <==> identified && d["verdict"] == Str("hold"))
  {
    DistinctVerdicts();
  }

  lemma DistinctVerdicts()
    ensures Str("pass") != Str("fail") && Str("pass") != Str("hold") && Str("fail") != Str("hold")
  {
    assert "pass"[0] != "fail"[0] && "pass"[0] != "hold"[0] && "fail"[0] != "hold"[0];
  }

  function Judged(decode: Decoder, m: Manifest, harness: Harness, path: string,
      payload: Option<Bytes>): ProtocolRecord {
    match payload
    case None => ProtocolRecord(path, None, Invalid)
    case Some(bytes) =>
      var verdict :=
        match decode(bytes)
        case None => Invalid
        case Some(d) => VerdictFor(d, m.campaignId, harness);
      ProtocolRecord(path, Some(Sha256(bytes)), verdict)
  }

  // --- Any sequence of operations ------------------------------------------------------------

  datatype Op =
    | OpBind(binding: Binding)
    | OpReserve(harness: Harness, role: Role, owner: Owner)
    | OpAnnotate(key: SlotKey, observations: map<Field, string>)
    | OpTransition(key: SlotKey, state: SlotState)
    | OpFinalize(key: SlotKey, state: SlotState, record: Option<Record>, reconciliation: Option<Reconciliation>)
    | OpMarkDead(host: Host)
    | OpProtocol(harness: Harness, path: string, payload: Option<Bytes>)

  function Attempt(decode: Decoder, m: Manifest, op: Op): Outcome {
    match op
    case OpBind(binding) => Bind(m, binding)
    case OpReserve(harness, role, owner) => Reserve(m, harness, role, owner)
    case OpAnnotate(key, observations) => Annotate(m, key, observations)
    case OpTransition(key, state) => Transition(m, key, state)
    case OpFinalize(key, state, record, reconciliation) => Finalize(m, key, state, record, reconciliation)
    case OpMarkDead(host) => MarkDead(m, host)
    case OpProtocol(harness, path, payload) =>
      if harness.OtherHarness? then Refused(BudgetOrInvalidSlot)
      else Committed(RecordProtocol(m, harness, Judged(decode, m, harness, path, payload)))
  }

  /** What the file holds afterwards: a refused operation writes nothing. */
  function Next(decode: Decoder, m: Manifest, op: Op): Manifest {
    match Attempt(decode, m, op)
    case Committed(n) => n
    case Refused(_) => m
  }

  function {:tailrecursion false} Ran(decode: Decoder, m: Manifest, ops: seq<Op>): Manifest
    decreases |ops|
  {
    if ops == [] then m else Ran(decode, Next(decode, m, ops[0]), ops[1..])
  }

  /** A bound pass names bytes that decode to a complete pass for this campaign. */
  ghost predicate PassesAreReal(decode: Decoder, m: Manifest) {
    forall h | h in m.protocol && m.protocol[h].verdict == Pass ::
      && m.protocol[h].sha256.Some?
      && decode(m.protocol[h].sha256.value.preimage).Some?
      && PassesFor(decode(m.protocol[h].sha256.value.preimage).value, m.campaignId, h)
  }

  lemma RecordProtocolKeeps(m: Manifest, harness: Harness, record: ProtocolRecord)
    requires C.Valid(m) && !harness.OtherHarness?
    ensures C.Valid(RecordProtocol(m, harness, record)) && Extends(m, RecordProtocol(m, harness, record))
  {
  }

  lemma NextKeeps(decode: Decoder, m: Manifest, op: Op)
    requires C.Valid(m)
    ensures C.Valid(Next(decode, m, op)) && Extends(m, Next(decode, m, op))
  {
    match op {
      case OpBind(binding) => BindKeeps(m, binding);
      case OpReserve(harness, role, owner) => ReserveKeeps(m, harness, role, owner);
      case OpAnnotate(key, observations) => AnnotateKeeps(m, key, observations);
      case OpTransition(key, state) => TransitionKeeps(m, key, state);
      case OpFinalize(key, state, record, reconciliation) => FinalizeKeeps(m, key, state, record, reconciliation);
      case OpMarkDead(host) => MarkDeadKeeps(m, host);
      case OpProtocol(harness, path, payload) =>
        if !harness.OtherHarness? {
          RecordProtocolKeeps(m, harness, Judged(decode, m, harness, path, payload));
        }
    }
  }

  lemma NextKeepsPasses(decode: Decoder, m: Manifest, op: Op)
    requires PassesAreReal(decode, m)
    ensures PassesAreReal(decode, Next(decode, m, op))
  {
  }

  /**
   The campaign invariant over every sequence of operations, refused or not: histories are paths of
   the transition table, evidence and binding are write-once, terminal slots never change, and a
   bound pass is real.
   */
  lemma {:induction false} EverySequenceKeeps(decode: Decoder, m: Manifest, ops: seq<Op>)
    requires C.Valid(m) && PassesAreReal(decode, m)
    ensures C.Valid(Ran(decode, m, ops)) && PassesAreReal(decode, Ran(decode, m, ops))
    ensures Extends(m, Ran(decode, m, ops))
    decreases |ops|
  {
    if ops != [] {
      var n := Next(decode, m, ops[0]);
      NextKeeps(decode, m, ops[0]);
      NextKeepsPasses(decode, m, ops[0]);
      EverySequenceKeeps(decode, n, ops[1..]);
      ExtendsTrans(m, n, Ran(decode, m, ops));
    }
  }

  /** The operation changed the state of a slot; marking the dead does so unless all were interrupted already. */
  predicate MovesASlot(decode: Decoder, m: Manifest, op: Op) {
    && Attempt(decode, m, op).Committed?
    && (op.OpReserve? || op.OpTransition? || op.OpFinalize? || (op.OpMarkDead? && Next(decode, m, op) != m))
  }

  /** The operations of a sequence that moved a slot. */
  function {:tailrecursion false} Moves(decode: Decoder, m: Manifest, ops: seq<Op>): nat
    decreases |ops|
  {
    if ops == [] then 0
    else (if MovesASlot(decode, m, ops[0]) then 1 else 0) + Moves(decode, Next(decode, m, ops[0]), ops[1..])
  }

  lemma LaterHasMoreChanges(m: Manifest, n: Manifest)
    requires Extends(m, n)
    ensures Changes(m) <= Changes(n)
  {
    forall key ensures Steps(m, key) <= Steps(n, key) {
      if key in m.slots {
        assert SlotExtends(m.slots[key], n.slots[key]);
      }
    }
  }

  /** Marking moves the one outstanding slot, or changes nothing. */
  lemma MarkCounts(m: Manifest, host: Host)
    requires C.Valid(m) && MarkDead(m, host).Committed?
    ensures var n := MarkDead(m, host).manifest;
            if n == m then Changes(n) == Changes(m) else Changes(n) == Changes(m) + 1
  {
    var n := MarkDead(m, host).manifest;
    if key :| key in m.slots && (m.slots[key].state.Reserved? || m.slots[key].state.Running?) {
      forall other | other in m.slots && other != key ensures n.slots[other] == m.slots[other] {
        assert !Outstanding(m.slots[other].state);
      }
      assert n.slots == m.slots[key := Marked(m.slots[key])];
      WithSlotChanges(m, key, Marked(m.slots[key]));
      assert n.slots[key].state != m.slots[key].state;
    } else {
      assert n.slots == m.slots;
    }
  }

  lemma MoveCounts(decode: Decoder, m: Manifest, op: Op)
    requires C.Valid(m) && MovesASlot(decode, m, op)
    ensures Changes(Next(decode, m, op)) == Changes(m) + 1
  {
    match op {
      case OpReserve(harness, role, owner) => ReserveEffect(m, harness, role, owner);
      case OpTransition(key, state) => TransitionKeeps(m, key, state);
      case OpFinalize(key, state, record, reconciliation) => FinalizeEffect(m, key, state, record, reconciliation);
      case OpMarkDead(host) => MarkCounts(m, host);
    }
  }

  lemma {:induction false} MovesAreChanges(decode: Decoder, m: Manifest, ops: seq<Op>)
    requires C.Valid(m) && PassesAreReal(decode, m)
    ensures Changes(m) + Moves(decode, m, ops) <= Changes(Ran(decode, m, ops))
    decreases |ops|
  {
    if ops != [] {
      var op := ops[0];
      NextKeeps(decode, m, op);
      NextKeepsPasses(decode, m, op);
      LaterHasMoreChanges(m, Next(decode, m, op));
      if MovesASlot(decode, m, op) {
        MoveCounts(decode, m, op);
      }
      MovesAreChanges(decode, Next(decode, m, op), ops[1..]);
    }
  }

  /** However long a campaign is driven, at most sixteen of its operations ever move a slot. */
  lemma AtMostSixteenMoves(decode: Decoder, campaignId: string, ops: seq<Op>)
    ensures Moves(decode, Fresh(campaignId), ops) <= 16
  {
    EverySequenceKeeps(decode, Fresh(campaignId), ops);
    MovesAreChanges(decode, Fresh(campaignId), ops);
    AtMostSixteenChanges(Ran(decode, Fresh(campaignId), ops));
  }

  // --- Final verification --------------------------------------------------------------------

  datatype Reason =
    | MissingTerminalEvidence(key: SlotKey)
    | StaleDigest(key: SlotKey, name: string)
    | MissingProtocolPass(harness: Harness)
    | StaleProtocolDigest(harness: Harness)

  /** The document and its raw originals; an original with the document's own path wins. */
  function Originals(record: Record): map<string, Digest> {
    map[record.path := record.sha256] + record.originals
  }

  predicate Intact(files: Files, name: string, digest: Digest) {
    name in files && Sha256(files[name]) == digest
  }

  predicate TerminalEvidence(m: Manifest, key: SlotKey) {
    key in m.slots && Succeeded(m.slots[key], key.role) && key in m.evidence
  }

  predicate SlotVerified(m: Manifest, files: Files, key: SlotKey) {
    && TerminalEvidence(m, key)
    && var originals := Originals(m.evidence[key]);
       forall name | name in originals :: Intact(files, name, originals[name])
  }

  predicate Absolute(path: string) {
    path != "" && path[0] == '/'
  }

  predicate ProtocolVerified(m: Manifest, files: Files, harness: Harness) {
    && harness in m.protocol
    && m.protocol[harness].verdict == Pass
    && m.protocol[harness].sha256.Some?
    && Absolute(m.protocol[harness].path)
    && Intact(files, m.protocol[harness].path, m.protocol[harness].sha256.value)
  }

  predicate Verified(m: Manifest, files: Files) {
    && (forall key | key in SLOTS :: SlotVerified(m, files, key))
    && ProtocolVerified(m, files, Omp) && ProtocolVerified(m, files, Claude)
  }

  /** The slot ended in this state, or was reconciled with this status. */
  predicate EndedAs(m: Manifest, key: SlotKey, state: SlotState, status: string) {
    && key in m.slots
    && (|| m.slots[key].state == state
        || (m.slots[key].state == Reconciled && m.slots[key].reconciliation == Some(Reconciliation(Some(status)))))
  }

  /** The slot has evidence, and its document and raw originals are on disk as they were retained. */
  predicate Kept(m: Manifest, files: Files, key: SlotKey) {
    && key in m.evidence
    && var record := m.evidence[key];
       && (forall name | name in record.originals :: name in files && Sha256(files[name]) == record.originals[name])
       && (record.path !in record.originals ==> record.path in files && Sha256(files[record.path]) == record.sha256)
  }

  /** A pass is bound for the harness, under an absolute path, and its bytes are on disk. */
  predicate PassBound(m: Manifest, files: Files, harness: Harness) {
    && harness in m.protocol
    && var record := m.protocol[harness];
       && record.verdict == Pass && "/" <= record.path
       && record.path in files && record.sha256 == Some(Sha256(files[record.path]))
  }

  /** What the campaign sets out to show. */
  predicate Accomplished(m: Manifest, files: Files) {
    forall harness | harness in {Omp, Claude} ::
      && EndedAs(m, Key(harness, CompletedWorkflow), Completed, "completed")
      && EndedAs(m, Key(harness, Cancellation), Cancelled, "cancelled")
      && Kept(m, files, Key(harness, CompletedWorkflow)) && Kept(m, files, Key(harness, Cancellation))
      && PassBound(m, files, harness)
  }

  lemma SucceededExactly(m: Manifest, harness: Harness)
    ensures var key := Key(harness, CompletedWorkflow);
            key in m.slots && Succeeded(m.slots[key], key.role) <==> EndedAs(m, key, Completed, "completed")
    ensures var key := Key(harness, Cancellation);
            key in m.slots && Succeeded(m.slots[key], key.role) <==> EndedAs(m, key, Cancelled, "cancelled")
  {
  }

  lemma KeptExactly(record: Record, files: Files)
    ensures (forall name | name in Originals(record) :: Intact(files, name, Originals(record)[name])) <==>
            && (forall name | name in record.originals ::
                  name in files && Sha256(files[name]) == record.originals[name])
            && (record.path !in record.originals ==>
                  record.path in files && Sha256(files[record.path]) == record.sha256)
  {
    var all := Originals(record);
    assert forall name | name in record.originals :: name in all && all[name] == record.originals[name];
    assert record.path in all;
  }

  lemma PassBoundExactly(m: Manifest, files: Files, harness: Harness)
    ensures ProtocolVerified(m, files, harness) <==> PassBound(m, files, harness)
  {
  }

  /** Verification succeeds exactly for a campaign that accomplished what it set out to show. */
  lemma VerifiedExactly(m: Manifest, files: Files)
    ensures Verified(m, files) <==> Accomplished(m, files)
  {
    forall harness | harness in {Omp, Claude}
      ensures SlotVerified(m, files, Key(harness, CompletedWorkflow)) <==>
              EndedAs(m, Key(harness, CompletedWorkflow), Completed, "completed")
              && Kept(m, files, Key(harness, CompletedWorkflow))
      ensures SlotVerified(m, files, Key(harness, Cancellation)) <==>
              && EndedAs(m, Key(harness, Cancellation), Cancelled, "cancelled")
              && Kept(m, files, Key(harness, Cancellation))
      ensures ProtocolVerified(m, files, harness) <==> PassBound(m, files, harness)
    {
      SlotVerifiedExactly(m, files, harness);
      PassBoundExactly(m, files, harness);
    }
  }

  lemma SlotVerifiedExactly(m: Manifest, files: Files, harness: Harness)
    ensures SlotVerified(m, files, Key(harness, CompletedWorkflow)) <==>
            EndedAs(m, Key(harness, CompletedWorkflow), Completed, "completed")
            && Kept(m, files, Key(harness, CompletedWorkflow))
    ensures SlotVerified(m, files, Key(harness, Cancellation)) <==>
            EndedAs(m, Key(harness, Cancellation), Cancelled, "cancelled") && Kept(m, files, Key(harness, Cancellation))
  {
    SucceededExactly(m, harness);
    forall role | Key(harness, role) in m.evidence
      ensures (forall name | name in Originals(m.evidence[Key(harness, role)]) ::
                 Intact(files, name, Originals(m.evidence[Key(harness, role)])[name])) <==>
              Kept(m, files, Key(harness, role))
    {
      KeptExactly(m.evidence[Key(harness, role)], files);
    }
  }

  const SLOT_ORDER: seq<SlotKey> :=
    [Key(Claude, Cancellation), Key(Claude, CompletedWorkflow), Key(Omp, Cancellation), Key(Omp, CompletedWorkflow)]

  method VerifySlot(m: Manifest, files: Files, key: SlotKey) returns (reasons: seq<Reason>)
    ensures reasons == [] <==> SlotVerified(m, files, key)
    ensures key.role == CompletedWorkflow ==>
              (reasons == [] <==> EndedAs(m, key, Completed, "completed") && Kept(m, files, key))
    ensures key.role == Cancellation ==>
              (reasons == [] <==> EndedAs(m, key, Cancelled, "cancelled") && Kept(m, files, key))
    ensures TerminalEvidence(m, key) ==>
              forall name | name in Originals(m.evidence[key]) ::
                StaleDigest(key, name) in reasons <==> !Intact(files, name, Originals(m.evidence[key])[name])
  {
    SlotVerifiedExactly(m, files, key.harness);
    if !TerminalEvidence(m, key) {
      return [MissingTerminalEvidence(key)];
    }
    reasons := [];
    var originals := Originals(m.evidence[key]);
    var pending := originals.Keys;
    while pending != {}
      invariant pending <= originals.Keys
      invariant reasons == [] <==>
                forall name | name in originals && name !in pending :: Intact(files, name, originals[name])
      invariant forall name | name in originals ::
                  StaleDigest(key, name) in reasons <==> name !in pending && !Intact(files, name, originals[name])
    {
      var name :| name in pending;
      if !Intact(files, name, originals[name]) {
        reasons := reasons + [StaleDigest(key, name)];
      }
      pending := pending - {name};
    }
  }

  method VerifyProtocol(m: Manifest, files: Files, harness: Harness) returns (reasons: seq<Reason>)
    ensures reasons == [] <==> ProtocolVerified(m, files, harness)
    ensures reasons == [] <==> PassBound(m, files, harness)
  {
    PassBoundExactly(m, files, harness);
    if harness !in m.protocol || m.protocol[harness].verdict != Pass {
      return [MissingProtocolPass(harness)];
    }
    var record := m.protocol[harness];
    if record.sha256.Some? && Absolute(record.path) && Intact(files, record.path, record.sha256.value) {
      return [];
    }
    return [StaleProtocolDigest(harness)];
  }

  /** `verify_evidence` returns no reasons exactly when everything retained still verifies. */
  method VerifyEvidence(m: Manifest, files: Files) returns (reasons: seq<Reason>)
    ensures reasons == [] <==> Verified(m, files)
    ensures reasons == [] <==> Accomplished(m, files)
  {
    VerifiedExactly(m, files);
    reasons := [];
    for i := 0 to |SLOT_ORDER|
      invariant reasons == [] <==> forall j | 0 <= j < i :: SlotVerified(m, files, SLOT_ORDER[j])
    {
      var found := VerifySlot(m, files, SLOT_ORDER[i]);
      reasons := reasons + found;
    }
    assert forall key | key in SLOTS ::
        key == SLOT_ORDER[0] || key == SLOT_ORDER[1] || key == SLOT_ORDER[2] || key == SLOT_ORDER[3];
    assert forall j | 0 <= j < |SLOT_ORDER| :: SLOT_ORDER[j] in SLOTS;
    var omp := VerifyProtocol(m, files, Omp);
    var claude := VerifyProtocol(m, files, Claude);
    reasons := reasons + omp + claude;
  }

  /**
   After any campaign, a verification without reasons means: every slot was spent and succeeded,
   nothing is outstanding, and the bytes now at each protocol path are a complete pass for this
   campaign and harness.
   */
  lemma VerifiedMeansPassed(decode: Decoder, campaignId: string, ops: seq<Op>, files: Files)
    requires Verified(Ran(decode, Fresh(campaignId), ops), files)
    ensures var m := Ran(decode, Fresh(campaignId), ops);
            && m.slots.Keys == SLOTS && OutstandingKeys(m) == {} && m.binding.Some?
            && (forall h | h in {Omp, Claude} ::
                  var path := m.protocol[h].path;
                  && path in files
                  && decode(files[path]).Some?
                  && var d := decode(files[path]).value;
                     && Readable(d) && ExitCode(d) == 0
                     && ConfiguredFor(d, campaignId, if h == Omp then "omp" else "claude"))
  {
    var m := Ran(decode, Fresh(campaignId), ops);
    EverySequenceKeeps(decode, Fresh(campaignId), ops);
    VerifiedSlots(m, files);
    VerifiedProtocol(decode, m, files, Omp);
    VerifiedProtocol(decode, m, files, Claude);
  }

  lemma VerifiedSlots(m: Manifest, files: Files)
    requires C.Valid(m) && Verified(m, files)
    ensures m.slots.Keys == SLOTS && OutstandingKeys(m) == {} && m.binding.Some?
  {
    forall key | key in m.slots ensures !Outstanding(m.slots[key].state) {
      assert SlotVerified(m, files, key);
    }
    forall key | key in SLOTS ensures key in m.slots {
      assert SlotVerified(m, files, key);
    }
    assert Key(Omp, Cancellation) in m.slots;
  }

  lemma VerifiedProtocol(decode: Decoder, m: Manifest, files: Files, h: Harness)
    requires PassesAreReal(decode, m) && ProtocolVerified(m, files, h)
    ensures var path := m.protocol[h].path;
            && path in files
            && decode(files[path]).Some?
            && var d := decode(files[path]).value;
               && Readable(d) && ExitCode(d) == 0
               && (h in {Omp, Claude} ==> ConfiguredFor(d, m.campaignId, if h == Omp then "omp" else "claude"))
  {
  }

  /**
   A slot that ended otherwise than in its expected success - a reconciliation that had to report
   "failed" because the worker could not be counted, say - keeps the campaign from ever verifying.
   */
  lemma UnsuccessfulSlotNeverVerifies(decode: Decoder, m: Manifest, key: SlotKey, ops: seq<Op>, files: Files)
    requires C.Valid(m) && PassesAreReal(decode, m)
    requires key in m.slots && Terminal(m.slots[key].state) && !Succeeded(m.slots[key], key.role)
    ensures !Verified(Ran(decode, m, ops), files)
  {
    var n := Ran(decode, m, ops);
    EverySequenceKeeps(decode, m, ops);
    assert SlotExtends(m.slots[key], n.slots[key]);
    assert key in SLOTS && !SlotVerified(n, files, key);
  }

  // --- The object ----------------------------------------------------------------------------

  /** A transaction on the manifest file: all of it is written, or nothing and a refusal is raised. */
  ghost predicate Transacted(before: Manifest, outcome: Outcome, after: Manifest, refusal: Option<Refusal>) {
    match outcome
    case Committed(m) => after == m && refusal.None?
    case Refused(r) => after == before && refusal == Some(r)
  }

  /** What an inspection of an interrupted slot reported back. */
  datatype Observation = Observation(containerGone: bool, reconciliation: Reconciliation, record: Option<Record>)

  datatype Recovery = Recovered(keys: set<SlotKey>) | Held(refusal: Option<Refusal>)

  /** The loop of `_reconcile_dead`: prove every outstanding owner dead, or change nothing. */
  method MarkSlots(slots: map<SlotKey, Slot>, host: Host)
    returns (marked: Option<map<SlotKey, Slot>>, pending: set<SlotKey>)
    ensures marked.None? <==> exists key | key in slots ::
              Outstanding(slots[key].state) && !ProvedDead(slots[key], host)
    ensures marked.Some? ==> marked.value == map key | key in slots :: Marked(slots[key])
    ensures marked.Some? ==> pending == set key | key in slots && Outstanding(slots[key].state)
  {
    pending := {};
    var result := slots;
    var todo := slots.Keys;
    while todo != {}
      invariant result.Keys == slots.Keys && todo <= slots.Keys
      invariant forall key | key in slots :: result[key] == if key in todo then slots[key] else Marked(slots[key])
      invariant forall key | key in slots && key !in todo ::
                Outstanding(slots[key].state) ==> ProvedDead(slots[key], host)
      invariant pending == set key | key in slots && key !in todo && Outstanding(slots[key].state)
    {
      var key :| key in todo;
      var slot := slots[key];
      if Outstanding(slot.state) {
        if !ProvedDead(slot, host) {
          return None, {};
        }
        if !slot.state.Interrupted? {
          result := result[key := slot.(state := Interrupted, history := slot.history + [Interrupted])];
        }
        pending := pending + {key};
      }
      todo := todo - {key};
    }
    return Some(result), pending;
  }

  class Store {
    var document: Manifest

    ghost predicate Valid()
      reads this
    {
      C.Valid(document)
    }

    constructor (campaignId: string)
      ensures document == Fresh(campaignId) && Valid()
    {
      document := Fresh(campaignId);
    }

    method Bind(binding: Binding) returns (refusal: Option<Refusal>)
      requires Valid()
      modifies this
      ensures Valid() && Extends(old(document), document)
      ensures Transacted(old(document), C.Bind(old(document), binding), document, refusal)
    {
      BindKeeps(document, binding);
      if document.binding.None? {
        document := document.(binding := Some(binding), designated := Some(Designated(binding)));
      } else if Changed(binding, document.binding.value) != {} {
        return Some(BindingMismatch);
      }
      return None;
    }

    method Reserve(harness: Harness, role: Role, owner: Owner) returns (refusal: Option<Refusal>)
      requires Valid()
      modifies this
      ensures Valid() && Extends(old(document), document)
      ensures Transacted(old(document), C.Reserve(old(document), harness, role, owner), document, refusal)
    {
      ReserveKeeps(document, harness, role, owner);
      var key := Key(harness, role);
      if document.binding.None? {
        return Some(Unbound);
      }
      if key !in SLOTS || |document.slots| >= 4 {
        return Some(BudgetOrInvalidSlot);
      }
      if key in document.slots {
        return Some(AlreadyUsed);
      }
      if exists k | k in document.slots :: Outstanding(document.slots[k].state) {
        return Some(ConcurrencyIsOne);
      }
      var facts := map[OperationId := InitialOperation(document, key)];
      document := document.(slots := document.slots[key := Slot(Reserved, [Reserved], owner, facts, None)]);
      return None;
    }

    method Annotate(key: SlotKey, observations: map<Field, string>) returns (refusal: Option<Refusal>)
      requires Valid()
      modifies this
      ensures Valid() && Extends(old(document), document)
      ensures Transacted(old(document), C.Annotate(old(document), key, observations), document, refusal)
    {
      AnnotateKeeps(document, key, observations);
      if exists field | field in observations :: Protected(field) {
        return Some(ProtectedField);
      }
      if key !in document.slots {
        return Some(NoSuchSlot);
      }
      var slot := document.slots[key];
      if !slot.state.Reserved? && !slot.state.Running? {
        return Some(IdentityFrozen);
      }
      document := document.(slots := document.slots[key := slot.(facts := slot.facts + observations)]);
      return None;
    }

    method Transition(key: SlotKey, state: SlotState) returns (refusal: Option<Refusal>)
      requires Valid()
      modifies this
      ensures Valid() && Extends(old(document), document)
      ensures Transacted(old(document), C.Transition(old(document), key, state), document, refusal)
    {
      TransitionKeeps(document, key, state);
      if key !in document.slots {
        return Some(NoSuchSlot);
      }
      var slot := document.slots[key];
      if state !in Transitions(slot.state) {
        return Some(InvalidTransition);
      }
      document := document.(slots := document.slots[key := slot.(state := state, history := slot.history + [state])]);
      return None;
    }

    method Finalize(key: SlotKey, state: SlotState, record: Option<Record>, reconciliation: Option<Reconciliation>)
      returns (refusal: Option<Refusal>)
      requires Valid()
      modifies this
      ensures Valid() && Extends(old(document), document)
      ensures Transacted(
                old(document), C.Finalize(old(document), key, state, record, reconciliation), document, refusal)
    {
      FinalizeKeeps(document, key, state, record, reconciliation);
      if key !in document.slots {
        return Some(NoSuchSlot);
      }
      var slot := document.slots[key];
      if !Terminal(state) || state !in Transitions(slot.state) {
        return Some(InvalidTransition);
      }
      if key in document.evidence {
        return Some(EvidenceImmutable);
      }
      slot := slot.(state := state, history := slot.history + [state]);
      if reconciliation.Some? {
        slot := slot.(reconciliation := reconciliation);
      }
      document := document.(slots := document.slots[key := slot]);
      if record.Some? {
        document := document.(evidence := document.evidence[key := record.value]);
      }
      return None;
    }

    /** Phase one of `_reconcile_dead`: one transaction that marks every outstanding slot. */
    method MarkDead(host: Host) returns (refusal: Option<Refusal>, pending: set<SlotKey>)
      requires Valid()
      modifies this
      ensures Valid() && Extends(old(document), document)
      ensures Transacted(old(document), C.MarkDead(old(document), host), document, refusal)
      ensures refusal.None? ==> pending == OutstandingKeys(old(document)) == OutstandingKeys(document)
    {
      MarkDeadKeeps(document, host);
      var slots;
      slots, pending := MarkSlots(document.slots, host);
      if slots.None? {
        return Some(OwnerNotProvedDead), {};
      }
      document := document.(slots := slots.value);
      return None, pending;
    }

    /** Commit the inspected slot as reconciled, unless its container is still there. */
    method ReconcileOne(key: SlotKey, observation: Observation) returns (recovery: Recovery)
      requires Valid() && key in document.slots
      modifies this
      ensures Valid() && Extends(old(document), document)
      ensures recovery.Recovered? ==>
                observation.containerGone && document.slots[key].state == Reconciled && OutstandingKeys(document) == {}
      ensures recovery.Held? ==> document == old(document)
    {
      if !observation.containerGone {
        return Held(None);
      }
      FinalizeEffect(document, key, Reconciled, observation.record, Some(observation.reconciliation));
      var refusal := Finalize(key, Reconciled, observation.record, Some(observation.reconciliation));
      return if refusal.Some? then Held(refusal) else Recovered({key});
    }

    /**
     `_reconcile_dead`: mark, inspect every marked slot, and finalize it as reconciled.  A recovery
     that ends leaves nothing outstanding and reconciles exactly what was outstanding.
     */
    method ReconcileDead(host: Host, inspect: map<SlotKey, Observation>) returns (recovery: Recovery)
      requires Valid() && SLOTS <= inspect.Keys
      modifies this
      ensures Valid() && Extends(old(document), document)
      ensures recovery.Recovered? ==>
                && OutstandingKeys(document) == {}
                && recovery.keys == OutstandingKeys(old(document))
                && forall key | key in recovery.keys ::
                     key in inspect && inspect[key].containerGone && document.slots[key].state == Reconciled
    {
      var refusal, pending := MarkDead(host);
      if refusal.Some? {
        return Held(refusal);
      }
      if pending == {} {
        return Recovered({});
      }
      // The concurrency of one leaves a single slot to inspect.
      var key :| key in pending;
      OutstandingAlone(document, key);
      ghost var marked := document;
      recovery := ReconcileOne(key, inspect[key]);
      ExtendsTrans(old(document), marked, document);
      if recovery.Recovered? {
        recovery := Recovered(pending);
      }
    }

    /** The record is replaced even when it is invalid; the problem is raised after the commit. */
    method RecordProtocolEvidence(decode: Decoder, harness: Harness, path: string, payload: Option<Bytes>)
      returns (problem: bool)
      requires Valid() && PassesAreReal(decode, document)
      modifies this
      ensures Valid() && Extends(old(document), document) && PassesAreReal(decode, document)
      ensures document == Next(decode, old(document), OpProtocol(harness, path, payload))
      ensures !harness.OtherHarness? ==> (problem <==> document.protocol[harness].verdict == Invalid)
      ensures !harness.OtherHarness? ==>
                (document.protocol[harness].verdict == Pass <==>
                   && payload.Some? && decode(payload.value).Some?
                   && VerdictFor(decode(payload.value).value, old(document).campaignId, harness) == Pass)
    {
      NextKeeps(decode, document, OpProtocol(harness, path, payload));
      NextKeepsPasses(decode, document, OpProtocol(harness, path, payload));
      if harness.OtherHarness? {
        return true;
      }
      var record := ProtocolRecord(path, None, Invalid);
      if payload.Some? {
        record := record.(sha256 := Some(Sha256(payload.value)));
        var decoded := decode(payload.value);
        if decoded.Some? {
          record := record.(verdict := VerdictFor(decoded.value, document.campaignId, harness));
        }
      }
      document := document.(protocol := document.protocol[harness := record]);
      return record.verdict == Invalid;
    }
  }
}
