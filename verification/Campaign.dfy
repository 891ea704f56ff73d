/**
 The four-slot campaign manifest (`scripts/factory_gate_campaign.py`).

 Every operation of `Campaign` runs in `_locked`: it reads the manifest, changes its copy, and
 replaces the file atomically at the end; an exception in between skips the replace.  Each
 operation is therefore specified as a function from a manifest to an `Outcome`, which is either
 the manifest that is committed or the refusal that leaves the file alone.
 */
module Campaign {
  import opened Common

  // --- The data model ------------------------------------------------------------------------

  datatype Harness = Omp | Claude | OtherHarness(name: string)

  datatype Role = CompletedWorkflow | Cancellation | OtherRole(name: string)

  /** The source's key `"<harness>:<role>"`. */
  datatype SlotKey = Key(harness: Harness, role: Role)

  const SLOTS: set<SlotKey> :=
    {Key(Omp, CompletedWorkflow), Key(Omp, Cancellation), Key(Claude, CompletedWorkflow), Key(Claude, Cancellation)}

  /** The names a slot's fields have; the first five belong to the manifest itself. */
  datatype Field =
    StateField | HistoryField | OwnerPid | OwnerMachineId | OwnerBootId
    | OperationId | RunId | OtherField(name: string)

  predicate Protected(field: Field) {
    field.StateField? || field.HistoryField? || field.OwnerPid? || field.OwnerMachineId? || field.OwnerBootId?
  }

  datatype SlotState = Reserved | Running | Completed | Cancelled | Failed | Interrupted | Reconciled

  function Transitions(state: SlotState): set<SlotState> {
    match state
    case Reserved => {Running, Failed, Interrupted}
    case Running => {Completed, Cancelled, Failed, Interrupted}
    case Interrupted => {Reconciled}
    case _ => {}
  }

  predicate Terminal(state: SlotState) {
    state.Completed? || state.Cancelled? || state.Failed? || state.Reconciled?
  }

  /** The slot still counts against the concurrency of one. */
  predicate Outstanding(state: SlotState) {
    state.Reserved? || state.Running? || state.Interrupted?
  }

  /** The invocation that reserved a slot: its machine, boot (when known) and process id. */
  datatype Owner = Owner(machine: string, boot: Option<string>, pid: nat)

  /** What an inspection of an interrupted slot reported. */
  datatype Reconciliation = Reconciliation(terminalStatus: Option<string>)

  datatype Slot = Slot(
    state: SlotState,
    history: seq<SlotState>,
    owner: Owner,
    facts: map<Field, string>,
    reconciliation: Option<Reconciliation>)

  /** Retained evidence of one slot: its own document and the raw originals it names. */
  datatype Record = Record(path: string, sha256: Digest, originals: map<string, Digest>)

  datatype Verdict = Pass | Fail | Hold | Invalid

  datatype ProtocolRecord = ProtocolRecord(path: string, sha256: Option<Digest>, verdict: Verdict)

  type Binding = map<string, string>

  datatype Manifest = Manifest(
    campaignId: string,
    binding: Option<Binding>,
    designated: Option<SlotKey>,
    slots: map<SlotKey, Slot>,
    evidence: map<SlotKey, Record>,
    protocol: map<Harness, ProtocolRecord>)

  function Fresh(campaignId: string): Manifest {
    Manifest(campaignId, None, None, map[], map[], map[])
  }

  datatype Refusal =
    | BindingMismatch
    | Unbound
    | BudgetOrInvalidSlot
    | AlreadyUsed
    | ConcurrencyIsOne
    | NoSuchSlot
    | ProtectedField
    | IdentityFrozen
    | InvalidTransition
    | EvidenceImmutable
    | OwnerNotProvedDead

  datatype Outcome = Committed(manifest: Manifest) | Refused(refusal: Refusal)

  // --- The operations ------------------------------------------------------------------------

  /** Keys on which two bindings differ. */
  function Changed(binding: Binding, bound: Binding): set<string> {
    set key | key in binding.Keys + bound.Keys &&
              (key !in binding || key !in bound || binding[key] != bound[key])
  }

  function HarnessNamed(name: string): Harness {
    if name == "omp" then Omp else if name == "claude" then Claude else OtherHarness(name)
  }

  function Designated(binding: Binding): SlotKey {
    Key(
      if "designated_workflow" in binding then HarnessNamed(binding["designated_workflow"]) else Omp,
      CompletedWorkflow)
  }

  function Bind(m: Manifest, binding: Binding): Outcome {
    if m.binding.None? then
      Committed(m.(binding := Some(binding), designated := Some(Designated(binding))))
    else if Changed(binding, m.binding.value) != {} then
      Refused(BindingMismatch)
    else
      Committed(m)
  }

  predicate Busy(m: Manifest) {
    exists key | key in m.slots :: Outstanding(m.slots[key].state)
  }

  /** The operation label a slot carries until its product identity is known. */
  function InitialOperation(m: Manifest, key: SlotKey): string {
    "campaign-" + m.campaignId + "-" + HarnessName(key.harness) + "-" + RoleName(key.role)
  }

  function HarnessName(harness: Harness): string {
    match harness case Omp => "omp" case Claude => "claude" case OtherHarness(name) => name
  }

  function RoleName(role: Role): string {
    match role
    case CompletedWorkflow => "completed-workflow"
    case Cancellation => "cancellation"
    case OtherRole(name) => name
  }

  function Reserve(m: Manifest, harness: Harness, role: Role, owner: Owner): Outcome {
    var key := Key(harness, role);
    if m.binding.None? then Refused(Unbound)
    else if key !in SLOTS || |m.slots| >= 4 then Refused(BudgetOrInvalidSlot)
    else if key in m.slots then Refused(AlreadyUsed)
    else if Busy(m) then Refused(ConcurrencyIsOne)
    else
      var facts := map[OperationId := InitialOperation(m, key)];
      Committed(m.(slots := m.slots[key := Slot(Reserved, [Reserved], owner, facts, None)]))
  }

  function Annotate(m: Manifest, key: SlotKey, observations: map<Field, string>): Outcome {
    if exists field | field in observations :: Protected(field) then Refused(ProtectedField)
    else if key !in m.slots then Refused(NoSuchSlot)
    else if !(m.slots[key].state.Reserved? || m.slots[key].state.Running?) then Refused(IdentityFrozen)
    else
      var slot := m.slots[key];
      Committed(m.(slots := m.slots[key := slot.(facts := slot.facts + observations)]))
  }

  function Moved(slot: Slot, state: SlotState): Slot {
    slot.(state := state, history := slot.history + [state])
  }

  function Transition(m: Manifest, key: SlotKey, state: SlotState): Outcome {
    if key !in m.slots then Refused(NoSuchSlot)
    else if state !in Transitions(m.slots[key].state) then Refused(InvalidTransition)
    else Committed(m.(slots := m.slots[key := Moved(m.slots[key], state)]))
  }

  function Finalize(
    m: Manifest, key: SlotKey, state: SlotState, record: Option<Record>, reconciliation: Option<Reconciliation>)
    : Outcome
  {
    if key !in m.slots then Refused(NoSuchSlot)
    else if !Terminal(state) || state !in Transitions(m.slots[key].state) then Refused(InvalidTransition)
    else if key in m.evidence then Refused(EvidenceImmutable)
    else
      var slot := Moved(m.slots[key], state);
      var slot' := if reconciliation.Some? then slot.(reconciliation := reconciliation) else slot;
      Committed(m.(
        slots := m.slots[key := slot'],
        evidence := if record.Some? then m.evidence[key := record.value] else m.evidence))
  }

  /**
   The reconciling host: its machine, boot id (when it can be read) and the process ids that answer
   signal 0, each with whether this user may signal it.
   */
  datatype Host = Host(machine: string, boot: Option<string>, processes: map<nat, bool>)

  /** `_reconcile_dead` establishes that the invocation owning `slot` no longer runs. */
  predicate ProvedDead(slot: Slot, host: Host) {
    && slot.owner.machine == host.machine
    && host.boot.Some?
    && slot.owner.boot.Some?
    && (slot.owner.boot == host.boot ==> slot.owner.pid !in host.processes)
  }

  function OutstandingKeys(m: Manifest): set<SlotKey> {
    set key | key in m.slots && Outstanding(m.slots[key].state)
  }

  function Marked(slot: Slot): Slot {
    if (slot.state.Reserved? || slot.state.Running?) then Moved(slot, Interrupted) else slot
  }

  /** Phase one of `_reconcile_dead`: mark every outstanding slot interrupted, or refuse. */
  function MarkDead(m: Manifest, host: Host): Outcome {
    if exists key | key in m.slots :: Outstanding(m.slots[key].state) && !ProvedDead(m.slots[key], host) then
      Refused(OwnerNotProvedDead)
    else
      Committed(m.(slots := map key | key in m.slots :: Marked(m.slots[key])))
  }

  /** `record_protocol_evidence` always replaces the harness's record, valid or not. */
  function RecordProtocol(m: Manifest, harness: Harness, record: ProtocolRecord): Manifest {
    m.(protocol := m.protocol[harness := record])
  }

  /** The state in which a role succeeds when its own invocation ends it. */
  function ExpectedState(role: Role): SlotState {
    if role == CompletedWorkflow then Completed else Cancelled
  }

  function ExpectedStatus(role: Role): string {
    if role == CompletedWorkflow then "completed" else "cancelled"
  }

  /** The slot ended in its expected success, directly or by reconciliation. */
  predicate Succeeded(slot: Slot, role: Role) {
    || slot.state == ExpectedState(role)
    || (slot.state.Reconciled? && slot.reconciliation.Some?
        && slot.reconciliation.value.terminalStatus == Some(ExpectedStatus(role)))
  }

  // --- The inductive invariant ---------------------------------------------------------------

  /** `history` is a path of the transition table that starts at `Reserved`. */
  ghost predicate IsPath(history: seq<SlotState>) {
    && history != []
    && history[0] == Reserved
    && forall i | 0 < i < |history| :: history[i] in Transitions(history[i - 1])
  }

  ghost predicate ValidSlot(slot: Slot) {
    && IsPath(slot.history)
    && slot.history[|slot.history| - 1] == slot.state
    && (slot.reconciliation.Some? ==> Terminal(slot.state))
  }

  ghost predicate Valid(m: Manifest) {
    && m.slots.Keys <= SLOTS
    && (forall key | key in m.slots :: ValidSlot(m.slots[key]))
    && (forall key | key in m.evidence :: key in m.slots && Terminal(m.slots[key].state))
    && (forall k, l | k in m.slots && l in m.slots ::
          Outstanding(m.slots[k].state) && Outstanding(m.slots[l].state) ==> k == l)
    && (m.slots != map[] ==> m.binding.Some?)
    && (m.binding.Some? ==> m.designated == Some(Designated(m.binding.value)))
  }

  /** What no operation may undo: `n` is a later manifest of the same campaign as `m`. */
  ghost predicate Extends(m: Manifest, n: Manifest) {
    && m.campaignId == n.campaignId
    && (m.binding.Some? ==> n.binding == m.binding && n.designated == m.designated)
    && m.evidence.Keys <= n.evidence.Keys
    && (forall key | key in m.evidence :: n.evidence[key] == m.evidence[key])
    && m.slots.Keys <= n.slots.Keys
    && (forall key | key in m.slots :: SlotExtends(m.slots[key], n.slots[key]))
  }

  ghost predicate SlotExtends(s: Slot, t: Slot) {
    && s.owner == t.owner
    && s.history <= t.history
    && (Terminal(s.state) ==> t == s)
    && s.facts.Keys <= t.facts.Keys
  }

  lemma ExtendsTrans(a: Manifest, b: Manifest, c: Manifest)
    requires Extends(a, b) && Extends(b, c)
    ensures Extends(a, c)
  {
    forall key | key in a.slots ensures SlotExtends(a.slots[key], c.slots[key]) {
      assert SlotExtends(a.slots[key], b.slots[key]) && SlotExtends(b.slots[key], c.slots[key]);
    }
    forall key | key in a.evidence ensures c.evidence[key] == a.evidence[key] {
      assert b.evidence[key] == a.evidence[key];
    }
  }

  // --- Histories are short: the termination measure ------------------------------------------

  function Rank(state: SlotState): nat {
    match state
    case Reserved => 1
    case Running => 2
    case Interrupted => 3
    case _ => 4
  }

  /** A slot changes state at most four times, whatever happens to it. */
  lemma {:induction false} HistoryIsShort(history: seq<SlotState>)
    requires IsPath(history)
    ensures |history| <= Rank(history[|history| - 1]) <= 4
  {
    if |history| > 1 {
      var init := history[..|history| - 1];
      assert IsPath(init);
      HistoryIsShort(init);
      assert history[|history| - 1] in Transitions(init[|init| - 1]);
    }
  }

  /** The whole life of a slot: the only histories with which one can end. */
  lemma EndedHistoriesExactly(history: seq<SlotState>)
    ensures IsPath(history) && history[|history| - 1] in {Completed, Cancelled, Failed, Reconciled} <==>
            || history == [Reserved, Failed]
            || history == [Reserved, Running, Completed]
            || history == [Reserved, Running, Cancelled]
            || history == [Reserved, Running, Failed]
            || history == [Reserved, Interrupted, Reconciled]
            || history == [Reserved, Running, Interrupted, Reconciled]
  {
    if IsPath(history) {
      HistoryIsShort(history);
      assert |history| > 1 ==> history[1] in Transitions(history[0]);
      assert |history| > 2 ==> history[2] in Transitions(history[1]);
      assert |history| > 3 ==> history[3] in Transitions(history[2]);
    }
  }

  function Steps(m: Manifest, key: SlotKey): nat {
    if key in m.slots then |m.slots[key].history| else 0
  }

  /** The number of slot-state changes a manifest has committed. */
  function Changes(m: Manifest): nat {
    Steps(m, Key(Omp, CompletedWorkflow)) + Steps(m, Key(Omp, Cancellation))
    + Steps(m, Key(Claude, CompletedWorkflow)) + Steps(m, Key(Claude, Cancellation))
  }

  lemma AtMostSixteenChanges(m: Manifest)
    requires Valid(m)
    ensures Changes(m) <= 16
  {
    forall key | key in m.slots ensures Steps(m, key) <= 4 {
      HistoryIsShort(m.slots[key].history);
    }
  }

  // --- What each operation keeps -------------------------------------------------------------

  ghost predicate Keeps(m: Manifest, outcome: Outcome) {
    outcome.Committed? ==> Valid(outcome.manifest) && Extends(m, outcome.manifest)
  }

  lemma ChangedExactly(binding: Binding, bound: Binding)
    ensures Changed(binding, bound) == {} <==> binding == bound
  {
    if Changed(binding, bound) == {} {
      forall key ensures key in binding <==> key in bound {
        assert key !in Changed(binding, bound);
      }
      forall key | key in binding ensures binding[key] == bound[key] {
        assert key !in Changed(binding, bound);
      }
    }
  }

  lemma BindKeeps(m: Manifest, binding: Binding)
    requires Valid(m)
    ensures Keeps(m, Bind(m, binding))
    ensures Bind(m, binding).Committed? <==> m.binding.None? || m.binding.value == binding
    ensures Bind(m, binding).Committed? ==>
              var n := Bind(m, binding).manifest;
              && n.binding == Some(binding)
              && ("designated_workflow" !in binding || binding["designated_workflow"] == "omp" ==>
                    n.designated == Some(Key(Omp, CompletedWorkflow)))
              && ("designated_workflow" in binding && binding["designated_workflow"] == "claude" ==>
                    n.designated == Some(Key(Claude, CompletedWorkflow)))
  {
    if m.binding.Some? {
      ChangedExactly(binding, m.binding.value);
    }
  }

  lemma PathGrows(history: seq<SlotState>, state: SlotState)
    requires IsPath(history) && state in Transitions(history[|history| - 1])
    ensures IsPath(history + [state])
  {
  }

  /** Replacing one slot by a later version of itself. */
  function WithSlot(m: Manifest, key: SlotKey, slot: Slot): Manifest {
    m.(slots := m.slots[key := slot])
  }

  lemma WithSlotValid(m: Manifest, key: SlotKey, slot: Slot)
    requires Valid(m) && key in m.slots && ValidSlot(slot)
    requires Outstanding(slot.state) ==> Outstanding(m.slots[key].state)
    requires key in m.evidence ==> Terminal(slot.state)
    ensures Valid(WithSlot(m, key, slot))
  {
    var n := WithSlot(m, key, slot);
    forall k | k in n.slots
      ensures ValidSlot(n.slots[k])
      ensures Outstanding(n.slots[k].state) ==> Outstanding(m.slots[k].state)
    {
    }
  }

  lemma WithSlotExtends(m: Manifest, key: SlotKey, slot: Slot)
    requires key in m.slots && SlotExtends(m.slots[key], slot)
    ensures Extends(m, WithSlot(m, key, slot))
  {
    var n := WithSlot(m, key, slot);
    forall k | k in m.slots ensures SlotExtends(m.slots[k], n.slots[k]) {
    }
  }

  lemma WithSlotChanges(m: Manifest, key: SlotKey, slot: Slot)
    requires key in SLOTS
    ensures Changes(WithSlot(m, key, slot)) == Changes(m) - Steps(m, key) + |slot.history|
  {
    var n := WithSlot(m, key, slot);
    assert forall k | k != key :: Steps(n, k) == Steps(m, k);
  }

  lemma OutstandingAlone(m: Manifest, key: SlotKey)
    requires Valid(m) && key in m.slots && Outstanding(m.slots[key].state)
    ensures OutstandingKeys(m) == {key}
  {
  }

  lemma MovedKeeps(slot: Slot, state: SlotState)
    requires ValidSlot(slot) && state in Transitions(slot.state)
    ensures ValidSlot(Moved(slot, state)) && SlotExtends(slot, Moved(slot, state))
    ensures Outstanding(slot.state)
  {
    PathGrows(slot.history, state);
  }

  lemma NewSlotValid(m: Manifest, key: SlotKey, slot: Slot)
    requires Valid(m) && key in SLOTS - m.slots.Keys && ValidSlot(slot)
    requires m.binding.Some? && OutstandingKeys(m) == {}
    ensures Valid(WithSlot(m, key, slot))
  {
    var n := WithSlot(m, key, slot);
    forall k | k in n.slots
      ensures ValidSlot(n.slots[k])
      ensures Outstanding(n.slots[k].state) ==> k == key
    {
      assert k != key ==> k !in OutstandingKeys(m);
    }
  }

  lemma NewSlotExtends(m: Manifest, key: SlotKey, slot: Slot)
    requires key !in m.slots
    ensures Extends(m, WithSlot(m, key, slot))
  {
    forall k | k in m.slots ensures SlotExtends(m.slots[k], WithSlot(m, key, slot).slots[k]) {
    }
  }

  lemma ReserveKeeps(m: Manifest, harness: Harness, role: Role, owner: Owner)
    requires Valid(m)
    ensures Keeps(m, Reserve(m, harness, role, owner))
  {
    var key := Key(harness, role);
    var outcome := Reserve(m, harness, role, owner);
    if outcome.Committed? {
      var slot := outcome.manifest.slots[key];
      assert outcome.manifest == WithSlot(m, key, slot);
      assert IsPath(slot.history);
      assert OutstandingKeys(m) == {};
      NewSlotValid(m, key, slot);
      NewSlotExtends(m, key, slot);
    }
  }

  /** A reservation spends an unspent slot of the table while nothing else is outstanding. */
  lemma ReserveEffect(m: Manifest, harness: Harness, role: Role, owner: Owner)
    requires Valid(m) && Reserve(m, harness, role, owner).Committed?
    ensures var n := Reserve(m, harness, role, owner).manifest;
            && Key(harness, role) in SLOTS - m.slots.Keys
            && OutstandingKeys(m) == {}
            && OutstandingKeys(n) == {Key(harness, role)}
            && Changes(n) == Changes(m) + 1
  {
    var key := Key(harness, role);
    var n := Reserve(m, harness, role, owner).manifest;
    assert n == WithSlot(m, key, n.slots[key]);
    WithSlotChanges(m, key, n.slots[key]);
    ReserveKeeps(m, harness, role, owner);
    OutstandingAlone(n, key);
  }

  /**
   A reservation commits exactly for one of the four slots, unspent, once the campaign is bound and no
   slot is reserved, running or interrupted; the budget of four refuses nothing beyond that.
   */
  lemma ReserveExactly(m: Manifest, harness: Harness, role: Role, owner: Owner)
    requires Valid(m)
    ensures Reserve(m, harness, role, owner).Committed? <==>
            && m.binding.Some?
            && harness in {Omp, Claude} && role in {CompletedWorkflow, Cancellation} && Key(harness, role) !in m.slots
            && forall key | key in m.slots :: m.slots[key].state !in {Reserved, Running, Interrupted}
    ensures Reserve(m, harness, role, owner).Committed? ==>
              var slot := Reserve(m, harness, role, owner).manifest.slots[Key(harness, role)];
              slot.state == Reserved && slot.history == [Reserved] && slot.owner == owner && slot.reconciliation == None
  {
    var key := Key(harness, role);
    if key in SLOTS && key !in m.slots {
      UnspentLeavesBudget(m, key);
    }
  }

  lemma {:induction false} SubsetIsSmaller(a: set<SlotKey>, b: set<SlotKey>)
    requires a <= b
    ensures |a| <= |b|
  {
    if key :| key in a {
      SubsetIsSmaller(a - {key}, b - {key});
    }
  }

  lemma UnspentLeavesBudget(m: Manifest, key: SlotKey)
    requires Valid(m) && key in SLOTS && key !in m.slots
    ensures |m.slots| < 4
  {
    var rest := SLOTS - {key};
    assert |rest| == 3;
    SubsetIsSmaller(m.slots.Keys, rest);
    assert |m.slots| == |m.slots.Keys|;
  }

  /** The operation a slot is labelled with until the product's identity is known. */
  lemma ReservedOperation(m: Manifest, harness: Harness, owner: Owner)
    requires harness in {Omp, Claude}
    ensures var name := if harness == Omp then "omp" else "claude";
            && (Reserve(m, harness, CompletedWorkflow, owner).Committed? ==>
                  Reserve(m, harness, CompletedWorkflow, owner).manifest.slots[Key(harness, CompletedWorkflow)].facts
                  == map[OperationId := "campaign-" + m.campaignId + "-" + name + "-" + "completed-workflow"])
            && (Reserve(m, harness, Cancellation, owner).Committed? ==>
                  Reserve(m, harness, Cancellation, owner).manifest.slots[Key(harness, Cancellation)].facts
                  == map[OperationId := "campaign-" + m.campaignId + "-" + name + "-" + "cancellation"])
  {
  }

  /** A slot takes observations exactly while it is reserved or running, and never of its own bookkeeping. */
  lemma AnnotateExactly(m: Manifest, key: SlotKey, observations: map<Field, string>)
    ensures Annotate(m, key, observations).Committed? <==>
            && key in m.slots && m.slots[key].state in {Reserved, Running}
            && observations.Keys !! {StateField, HistoryField, OwnerPid, OwnerMachineId, OwnerBootId}
    ensures Annotate(m, key, observations).Committed? ==>
              var n := Annotate(m, key, observations).manifest;
              && n == m.(slots := n.slots) && n.slots.Keys == m.slots.Keys
              && (forall other | other in m.slots && other != key :: n.slots[other] == m.slots[other])
              && n.slots[key] == m.slots[key].(facts := n.slots[key].facts)
              && (forall field | field in observations ::
                    field in n.slots[key].facts && n.slots[key].facts[field] == observations[field])
              && (forall field | field in m.slots[key].facts && field !in observations ::
                    field in n.slots[key].facts && n.slots[key].facts[field] == m.slots[key].facts[field])
  {
  }

  lemma AnnotateKeeps(m: Manifest, key: SlotKey, observations: map<Field, string>)
    requires Valid(m)
    ensures Keeps(m, Annotate(m, key, observations))
    ensures Annotate(m, key, observations).Committed? ==>
              var n := Annotate(m, key, observations).manifest;
              OutstandingKeys(n) == OutstandingKeys(m) == {key} && Changes(n) == Changes(m)
  {
    var outcome := Annotate(m, key, observations);
    if outcome.Committed? {
      var slot := outcome.manifest.slots[key];
      assert outcome.manifest == WithSlot(m, key, slot);
      WithSlotValid(m, key, slot);
      WithSlotExtends(m, key, slot);
      WithSlotChanges(m, key, slot);
      OutstandingAlone(m, key);
      OutstandingAlone(outcome.manifest, key);
    }
  }

  lemma TransitionKeeps(m: Manifest, key: SlotKey, state: SlotState)
    requires Valid(m)
    ensures Keeps(m, Transition(m, key, state))
    ensures Transition(m, key, state).Committed? ==>
              Changes(Transition(m, key, state).manifest) == Changes(m) + 1
  {
    var outcome := Transition(m, key, state);
    if outcome.Committed? {
      var slot := Moved(m.slots[key], state);
      assert outcome.manifest == WithSlot(m, key, slot);
      MovedKeeps(m.slots[key], state);
      WithSlotValid(m, key, slot);
      WithSlotExtends(m, key, slot);
      WithSlotChanges(m, key, slot);
    }
  }

  lemma FinalizedSlotKeeps(m: Manifest, key: SlotKey, slot: Slot, evidence: map<SlotKey, Record>)
    requires Valid(m) && key in m.slots && key !in m.evidence
    requires ValidSlot(slot) && SlotExtends(m.slots[key], slot) && Terminal(slot.state)
    requires evidence == m.evidence || (key in evidence && evidence == m.evidence[key := evidence[key]])
    ensures var n := WithSlot(m, key, slot).(evidence := evidence); Valid(n) && Extends(m, n)
  {
    WithSlotValid(m, key, slot);
    WithSlotExtends(m, key, slot);
    EvidenceAdded(m, WithSlot(m, key, slot), evidence, key);
  }

  lemma FinalizeKeeps(
    m: Manifest, key: SlotKey, state: SlotState, record: Option<Record>, reconciliation: Option<Reconciliation>)
    requires Valid(m)
    ensures Keeps(m, Finalize(m, key, state, record, reconciliation))
  {
    var outcome := Finalize(m, key, state, record, reconciliation);
    if outcome.Committed? {
      var slot := outcome.manifest.slots[key];
      MovedKeeps(m.slots[key], state);
      FinalizedSlotKeeps(m, key, slot, outcome.manifest.evidence);
    }
  }

  /** A slot is ended exactly from where its history allows it, and the record is bound with it. */
  lemma FinalizeExactly(
    m: Manifest, key: SlotKey, state: SlotState, record: Option<Record>, reconciliation: Option<Reconciliation>)
    requires Valid(m)
    ensures Finalize(m, key, state, record, reconciliation).Committed? <==>
            && key in m.slots
            && match m.slots[key].state
               case Reserved => state == Failed
               case Running => state in {Completed, Cancelled, Failed}
               case Interrupted => state == Reconciled
               case _ => false
    ensures Finalize(m, key, state, record, reconciliation).Committed? ==>
              var n := Finalize(m, key, state, record, reconciliation).manifest;
              && n.slots.Keys == m.slots.Keys && n.slots[key].state == state
              && n.slots[key].history == m.slots[key].history + [state]
              && (reconciliation.Some? ==> n.slots[key].reconciliation == reconciliation)
              && (forall other | other in m.slots && other != key :: n.slots[other] == m.slots[other])
              && n.evidence == (if record.Some? then m.evidence[key := record.value] else m.evidence)
  {
    if Finalize(m, key, state, record, reconciliation).Committed? {
      FinalizeChanges(m, key, state, record, reconciliation);
    }
    if key in m.slots {
      assert key in m.evidence ==> Terminal(m.slots[key].state);
    }
  }

  lemma FinalizeChanges(
    m: Manifest, key: SlotKey, state: SlotState, record: Option<Record>, reconciliation: Option<Reconciliation>)
    requires Finalize(m, key, state, record, reconciliation).Committed?
    ensures var n := Finalize(m, key, state, record, reconciliation).manifest;
            && n.slots.Keys == m.slots.Keys && n.slots[key].state == state
            && n.slots[key].history == m.slots[key].history + [state]
            && (reconciliation.Some? ==> n.slots[key].reconciliation == reconciliation)
            && (forall other | other in m.slots && other != key :: n.slots[other] == m.slots[other])
            && n.evidence == (if record.Some? then m.evidence[key := record.value] else m.evidence)
  {
  }

  lemma FinalizeKeepsFacts(
    m: Manifest, key: SlotKey, state: SlotState, record: Option<Record>, reconciliation: Option<Reconciliation>)
    requires Finalize(m, key, state, record, reconciliation).Committed?
    ensures var n := Finalize(m, key, state, record, reconciliation).manifest;
            && n.slots.Keys == m.slots.Keys
            && forall k | k in m.slots :: n.slots[k].facts == m.slots[k].facts
  {
  }

  /** Finalizing frees the campaign, and the evidence guard in it can never fire. */
  lemma FinalizeEffect(
    m: Manifest, key: SlotKey, state: SlotState, record: Option<Record>, reconciliation: Option<Reconciliation>)
    requires Valid(m)
    ensures Finalize(m, key, state, record, reconciliation) != Refused(EvidenceImmutable)
    ensures Finalize(m, key, state, record, reconciliation).Committed? ==>
              var n := Finalize(m, key, state, record, reconciliation).manifest;
              && Changes(n) == Changes(m) + 1
              && OutstandingKeys(m) == {key} && OutstandingKeys(n) == {}
  {
    var outcome := Finalize(m, key, state, record, reconciliation);
    if key in m.slots && Terminal(state) && state in Transitions(m.slots[key].state) {
      OutstandingAlone(m, key);
    }
    if outcome.Committed? {
      WithSlotChanges(m, key, outcome.manifest.slots[key]);
      NothingOutstanding(m, outcome.manifest, key);
    }
  }

  lemma EvidenceAdded(m: Manifest, n: Manifest, evidence: map<SlotKey, Record>, key: SlotKey)
    requires Valid(n) && Extends(m, n) && n.evidence == m.evidence
    requires key in n.slots && Terminal(n.slots[key].state) && key !in m.evidence
    requires evidence == m.evidence || (key in evidence && evidence == m.evidence[key := evidence[key]])
    ensures Valid(n.(evidence := evidence)) && Extends(m, n.(evidence := evidence))
  {
  }

  lemma NothingOutstanding(m: Manifest, n: Manifest, key: SlotKey)
    requires OutstandingKeys(m) == {key} && key in n.slots && Terminal(n.slots[key].state)
    requires n.slots == m.slots[key := n.slots[key]]
    ensures OutstandingKeys(n) == {}
  {
    forall k | k in n.slots ensures !Outstanding(n.slots[k].state) {
      assert k != key ==> k !in OutstandingKeys(m);
    }
  }

  lemma MarkedKeeps(slot: Slot)
    requires ValidSlot(slot)
    ensures ValidSlot(Marked(slot)) && SlotExtends(slot, Marked(slot))
    ensures Outstanding(Marked(slot).state) <==> Outstanding(slot.state)
    ensures Outstanding(slot.state) ==> Marked(slot).state == Interrupted
  {
    if slot.state.Reserved? || slot.state.Running? {
      PathGrows(slot.history, Interrupted);
    }
  }

  lemma MarkDeadKeeps(m: Manifest, host: Host)
    requires Valid(m)
    ensures Keeps(m, MarkDead(m, host))
    ensures MarkDead(m, host).Committed? ==>
              var n := MarkDead(m, host).manifest;
              && OutstandingKeys(n) == OutstandingKeys(m)
              && (forall key | key in OutstandingKeys(n) :: n.slots[key].state == Interrupted)
  {
    var outcome := MarkDead(m, host);
    if outcome.Committed? {
      var n := outcome.manifest;
      forall key | key in m.slots
        ensures ValidSlot(n.slots[key]) && SlotExtends(m.slots[key], n.slots[key])
        ensures Outstanding(n.slots[key].state) <==> Outstanding(m.slots[key].state)
        ensures Outstanding(n.slots[key].state) ==> n.slots[key].state == Interrupted
      {
        MarkedKeeps(m.slots[key]);
      }
      assert n.slots.Keys == m.slots.Keys;
    }
  }

  /**
   Marking commits exactly when every reserved, running or interrupted slot has an owner on this
   machine whose boot is over or whose process no longer answers; all of those end interrupted, and
   nothing else changes.
   */
  lemma MarkDeadExactly(m: Manifest, host: Host)
    ensures MarkDead(m, host).Committed? <==>
              forall key | key in m.slots && m.slots[key].state in {Reserved, Running, Interrupted} ::
                var owner := m.slots[key].owner;
                && owner.machine == host.machine && owner.boot.Some? && host.boot.Some?
                && (owner.boot != host.boot || owner.pid !in host.processes)
    ensures MarkDead(m, host).Committed? ==>
              var n := MarkDead(m, host).manifest;
              && n == m.(slots := n.slots) && n.slots.Keys == m.slots.Keys
              && forall key | key in m.slots ::
                   n.slots[key] == if m.slots[key].state in {Reserved, Running}
                                   then m.slots[key].(state := Interrupted,
                                                      history := m.slots[key].history + [Interrupted])
                                   else m.slots[key]
  {
    forall key | key in m.slots
      ensures Outstanding(m.slots[key].state) <==> m.slots[key].state in {Reserved, Running, Interrupted}
    {
    }
  }
}
