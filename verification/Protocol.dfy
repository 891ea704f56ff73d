/**
 Any number of concurrent, crash-prone gate invocations driving one campaign
 (`scripts/factory_gate_protocol.py`, `scripts/factory_gate_protocol_live.py`).

 An invocation binds the campaign, reconciles dead owners, and then spends the slots of its harness
 one role after the other.  Each call on the manifest is one step, because `_locked` serializes
 them; everything between two calls may interleave with other invocations, with the container engine
 and with crashes and reboots.  The command that launches a worker is a process of its own: it
 survives the invocation that issued it and may create the worker container later, at most once.
 */
module Protocol {
  import opened Common
  import opened Campaign

  // --- The state -----------------------------------------------------------------------------

  /** The product identities a preflight binds: a worker may start only after they are durable. */
  datatype Identity = Identity(run: string, operation: string)

  datatype Launch = Launch(key: SlotKey, id: Identity)

  /** Where an invocation stands. */
  datatype Pc =
    | Starting
    | Reconciling
    | Inspecting(pending: set<SlotKey>, gone: Option<SlotKey>, counted: bool)
    | Looking(role: Role)
    | Qualifying(role: Role)
    | Qualified(role: Role, id: Identity)
    | Holding(role: Role, id: Identity)      // the slot is reserved
    | Began(role: Role, id: Identity)        // the slot is running
    | Identified(role: Role, id: Identity)   // the manifest names the product identities
    | Dispatched(role: Role, id: Identity)   // the launching command was issued
    | Ended(role: Role, id: Identity)        // the worker was counted once and is gone
    | Unwinding(role: Role)                  // an exception is on its way out
    | Finished

  datatype Invocation = Invocation(harness: Harness, owner: Owner, alive: bool, pc: Pc)

  datatype World = World(
    m: Manifest,
    procs: map<nat, Invocation>,
    boots: map<string, Option<string>>,  // the boot id of each machine, when it can be read
    launches: seq<Launch>,               // every launching command ever issued
    clients: set<SlotKey>,               // launching commands that may still create their worker
    created: set<SlotKey>,               // workers that were created
    live: set<SlotKey>)                  // worker containers that exist now

  function Initial(campaignId: string, boots: map<string, Option<string>>): World {
    World(Fresh(campaignId), map[], boots, [], {}, {}, {})
  }

  datatype Action =
    | Spawn(p: nat, harness: Harness, machine: string, pid: nat)
    | Crash(p: nat)
    | Reboot(machine: string, boot: string)
    | DoBind(p: nat, binding: Binding)
    | DoMark(p: nat, host: Host)
    | Inspect(p: nat, key: SlotKey)
    | Settle(p: nat, reconciliation: Reconciliation, record: Option<Record>)
    | LeaveReconciliation(p: nat)
    | Look(p: nat)
    | Preflight(p: nat, id: Identity)
    | DoReserve(p: nat)
    | Begin(p: nat)
    | Identify(p: nat)
    | Dispatch(p: nat)
    | Note(p: nat, observations: map<Field, string>)
    | ObserveEnd(p: nat, observations: map<Field, string>)
    | DoFinalize(p: nat, retained: Record)
    | Raise(p: nat)
    | Unwind(p: nat)
    | CreateWorker(key: SlotKey)
    | ClientExits(key: SlotKey)
    | WorkerExits(key: SlotKey)

  function SlotOf(i: Invocation): SlotKey
    requires HoldsSlot(i.pc)
  {
    Key(i.harness, i.pc.role)
  }

  /** The invocation reserved a slot and has not let go of it. */
  predicate HoldsSlot(pc: Pc) {
    pc.Holding? || pc.Began? || pc.Identified? || pc.Dispatched? || pc.Ended? || pc.Unwinding?
  }

  predicate Alive(w: World, p: nat) {
    p in w.procs && w.procs[p].alive
  }

  /** A host view the reconciling invocation may have: every live process answers signal 0. */
  ghost predicate Sees(w: World, p: nat, host: Host)
    requires p in w.procs
  {
    && host.machine == w.procs[p].owner.machine
    && host.machine in w.boots
    && host.boot == w.boots[host.machine]
    && forall q | Alive(w, q) && w.procs[q].owner.machine == host.machine :: w.procs[q].owner.pid in host.processes
  }

  /** Observations a live owner adds never rename the product identities. */
  predicate OtherFields(observations: map<Field, string>) {
    forall field | field in observations :: field.OtherField?
  }

  /**
   Recovery reports the expected success only of a worker it has counted, and it counts from a create
   that the dead owner had put on record, so one that happened before the inspection.
   */
  predicate Truthful(pc: Pc, reconciliation: Reconciliation)
    requires pc.Inspecting? && pc.gone.Some?
  {
    reconciliation.terminalStatus == Some(ExpectedStatus(pc.gone.value.role)) ==> pc.counted
  }

  ghost predicate Enabled(w: World, a: Action) {
    match a
    case Spawn(p, harness, machine, pid) =>
      && p !in w.procs && machine in w.boots
      && (harness.Omp? || harness.Claude?)
      && forall q | Alive(w, q) :: w.procs[q].owner.machine == machine ==> w.procs[q].owner.pid != pid
    case Crash(p) => Alive(w, p)
    case Reboot(machine, boot) =>
      machine in w.boots && forall q | q in w.procs ::
        w.procs[q].owner.machine == machine ==> w.procs[q].owner.boot != Some(boot)
    case DoBind(p, _) => Alive(w, p) && w.procs[p].pc.Starting?
    case DoMark(p, host) => Alive(w, p) && w.procs[p].pc.Reconciling? && Sees(w, p, host)
    case Inspect(p, key) =>
      && Alive(w, p) && w.procs[p].pc.Inspecting? && w.procs[p].pc.gone.None?
      && key in w.procs[p].pc.pending && key !in w.live
    case Settle(p, reconciliation, _) =>
      && Alive(w, p) && w.procs[p].pc.Inspecting? && w.procs[p].pc.gone.Some?
      && Truthful(w.procs[p].pc, reconciliation)
    case LeaveReconciliation(p) => Alive(w, p) && w.procs[p].pc.Inspecting? && w.procs[p].pc.pending == {}
    case Look(p) => Alive(w, p) && w.procs[p].pc.Looking?
    case Preflight(p, _) => Alive(w, p) && w.procs[p].pc.Qualifying?
    case DoReserve(p) => Alive(w, p) && w.procs[p].pc.Qualified?
    case Begin(p) => Alive(w, p) && w.procs[p].pc.Holding?
    case Identify(p) => Alive(w, p) && w.procs[p].pc.Began?
    case Dispatch(p) => Alive(w, p) && w.procs[p].pc.Identified?
    case Note(p, observations) => Alive(w, p) && w.procs[p].pc.Dispatched? && OtherFields(observations)
    case ObserveEnd(p, observations) =>
      && Alive(w, p) && w.procs[p].pc.Dispatched? && OtherFields(observations)
      && SlotOf(w.procs[p]) in w.created && SlotOf(w.procs[p]) !in w.live
    case DoFinalize(p, _) => Alive(w, p) && w.procs[p].pc.Ended?
    case Raise(p) => Alive(w, p) && !w.procs[p].pc.Unwinding? && !w.procs[p].pc.Finished?
    case Unwind(p) => Alive(w, p) && w.procs[p].pc.Unwinding?
    case CreateWorker(key) => key in w.clients
    case ClientExits(key) => key in w.clients
    case WorkerExits(key) => key in w.live
  }

  function Goto(w: World, p: nat, pc: Pc): World
    requires p in w.procs
  {
    w.(procs := w.procs[p := w.procs[p].(pc := pc)])
  }

  /** One transaction on the manifest, and where it leaves the invocation. */
  function Transact(w: World, p: nat, outcome: Outcome, committed: Pc, refused: Pc): World
    requires p in w.procs
  {
    match outcome
    case Committed(m) => Goto(w.(m := m), p, committed)
    case Refused(_) => Goto(w, p, refused)
  }

  /** The reconciliation lock is held by an invocation that inspects pending slots. */
  ghost predicate LockTaken(w: World) {
    exists q | Alive(w, q) :: w.procs[q].pc.Inspecting?
  }

  function NextRole(role: Role): Pc {
    if role == CompletedWorkflow then Looking(Cancellation) else Finished
  }

  /** A spent slot ended in its expected success, directly or by reconciliation, with evidence. */
  predicate Reusable(m: Manifest, key: SlotKey) {
    && key in m.slots
    && key in m.evidence
    && Succeeded(m.slots[key], key.role)
  }

  ghost function Apply(w: World, a: Action): World
    requires Enabled(w, a)
  {
    match a
    case Spawn(p, harness, machine, pid) =>
      w.(procs := w.procs[p := Invocation(harness, Owner(machine, w.boots[machine], pid), true, Starting)])
    case Crash(p) => w.(procs := w.procs[p := w.procs[p].(alive := false)])
    case Reboot(machine, boot) =>
      w.(boots := w.boots[machine := Some(boot)],
         procs := map q | q in w.procs ::
           if w.procs[q].owner.machine == machine then w.procs[q].(alive := false) else w.procs[q])
    case DoBind(p, binding) => Transact(w, p, Bind(w.m, binding), Reconciling, Finished)
    case DoMark(p, host) =>
      if LockTaken(w) then Goto(w, p, Finished)
      else Transact(w, p, MarkDead(w.m, host), Inspecting(OutstandingKeys(w.m), None, false), Finished)
    case Inspect(p, key) => Goto(w, p, Inspecting(w.procs[p].pc.pending, Some(key), key in w.created))
    case Settle(p, reconciliation, record) =>
      var key := w.procs[p].pc.gone.value;
      Transact(w, p, Finalize(w.m, key, Reconciled, record, Some(reconciliation)),
               Inspecting(w.procs[p].pc.pending - {key}, None, false), Finished)
    case LeaveReconciliation(p) => Goto(w, p, Looking(CompletedWorkflow))
    case Look(p) =>
      var role := w.procs[p].pc.role;
      var key := Key(w.procs[p].harness, role);
      // A spent slot is never relaunched: its retained evidence is reused, or the invocation holds.
      Goto(w, p,
           if key !in w.m.slots then Qualifying(role) else if Reusable(w.m, key) then NextRole(role) else Finished)
    case Preflight(p, id) => Goto(w, p, Qualified(w.procs[p].pc.role, id))
    case DoReserve(p) =>
      var i := w.procs[p];
      Transact(w, p, Reserve(w.m, i.harness, i.pc.role, i.owner), Holding(i.pc.role, i.pc.id), Finished)
    case Begin(p) =>
      var i := w.procs[p];
      Transact(w, p, Transition(w.m, SlotOf(i), Running), Began(i.pc.role, i.pc.id), Finished)
    case Identify(p) =>
      var i := w.procs[p];
      Transact(w, p, Annotate(w.m, SlotOf(i), map[RunId := i.pc.id.run, OperationId := i.pc.id.operation]),
               Identified(i.pc.role, i.pc.id), Unwinding(i.pc.role))
    case Dispatch(p) =>
      var i := w.procs[p];
      Goto(w.(launches := w.launches + [Launch(SlotOf(i), i.pc.id)], clients := w.clients + {SlotOf(i)}),
           p, Dispatched(i.pc.role, i.pc.id))
    case Note(p, observations) =>
      var i := w.procs[p];
      Transact(w, p, Annotate(w.m, SlotOf(i), observations), i.pc, Unwinding(i.pc.role))
    case ObserveEnd(p, observations) =>
      var i := w.procs[p];
      Transact(w, p, Annotate(w.m, SlotOf(i), observations), Ended(i.pc.role, i.pc.id), Unwinding(i.pc.role))
    case DoFinalize(p, record) =>
      var i := w.procs[p];
      Transact(w, p, Finalize(w.m, SlotOf(i), ExpectedState(i.pc.role), Some(record), None),
               NextRole(i.pc.role), Unwinding(i.pc.role))
    case Raise(p) =>
      var pc := w.procs[p].pc;
      Goto(w, p, if pc.Began? || pc.Identified? || pc.Dispatched? || pc.Ended? then Unwinding(pc.role) else Finished)
    case Unwind(p) =>
      var i := w.procs[p];
      // The handler re-reads the slot and interrupts it only while it is still its own to end.
      if SlotOf(i) in w.m.slots && (w.m.slots[SlotOf(i)].state.Reserved? || w.m.slots[SlotOf(i)].state.Running?) then
        Transact(w, p, Transition(w.m, SlotOf(i), Interrupted), Finished, Finished)
      else
        Goto(w, p, Finished)
    case CreateWorker(key) =>
      w.(clients := w.clients - {key}, created := w.created + {key}, live := w.live + {key})
    case ClientExits(key) => w.(clients := w.clients - {key})
    case WorkerExits(key) => w.(live := w.live - {key})
  }

  // --- What an invocation does with a spent slot ---------------------------------------------

  /** The slot ended well for its role, directly or by reconciliation, and its evidence is bound. */
  ghost predicate SpentWell(m: Manifest, key: SlotKey) {
    && key in m.slots && key in m.evidence
    && var slot := m.slots[key];
       if key.role == CompletedWorkflow
       then slot.state == Completed
            || (slot.state == Reconciled && slot.reconciliation == Some(Reconciliation(Some("completed"))))
       else slot.state == Cancelled
            || (slot.state == Reconciled && slot.reconciliation == Some(Reconciliation(Some("cancelled"))))
  }

  lemma ReusableExactly(m: Manifest, key: SlotKey)
    ensures Reusable(m, key) <==> SpentWell(m, key)
  {
  }

  /**
   Looking at a slot changes nothing but the invocation's place: an unspent slot is qualified for, a
   first slot that was spent well leads to the second, and any other spent slot ends the invocation.
   */
  lemma LookExactly(w: World, p: nat)
    requires Enabled(w, Look(p))
    ensures var i := w.procs[p];
            var key := Key(i.harness, i.pc.role);
            var place := if key !in w.m.slots then Qualifying(i.pc.role)
                         else if i.pc.role == CompletedWorkflow && SpentWell(w.m, key) then Looking(Cancellation)
                         else Finished;
            Apply(w, Look(p)) == w.(procs := w.procs[p := i.(pc := place)])
  {
    ReusableExactly(w.m, Key(w.procs[p].harness, w.procs[p].pc.role));
  }

  /** The manifest refused the transaction, or somebody else holds the lock. */
  ghost predicate TurnedAway(w: World, a: Action)
    requires Enabled(w, a)
  {
    match a
    case DoBind(_, binding) => Bind(w.m, binding).Refused?
    case DoMark(_, host) => LockTaken(w) || MarkDead(w.m, host).Refused?
    case Settle(p, reconciliation, record) =>
      Finalize(w.m, w.procs[p].pc.gone.value, Reconciled, record, Some(reconciliation)).Refused?
    case DoReserve(p) => Reserve(w.m, w.procs[p].harness, w.procs[p].pc.role, w.procs[p].owner).Refused?
    case Begin(p) => Transition(w.m, SlotOf(w.procs[p]), Running).Refused?
    case _ => false
  }

  /** An invocation that is turned away before its slot runs is finished, and nothing else changes. */
  lemma TurnedAwayIsFinished(w: World, a: Action)
    requires Enabled(w, a) && TurnedAway(w, a)
    ensures Apply(w, a) == w.(procs := w.procs[a.p := w.procs[a.p].(pc := Finished)])
  {
  }

  /** One that raises later first lets go of its slot, and is finished with that. */
  lemma RaisingIsFinished(w: World, p: nat)
    requires Alive(w, p)
    ensures Enabled(w, Raise(p)) ==>
              var pc := w.procs[p].pc;
              var place := if pc.Began? || pc.Identified? || pc.Dispatched? || pc.Ended? then Unwinding(pc.role)
                           else Finished;
              Apply(w, Raise(p)) == w.(procs := w.procs[p := w.procs[p].(pc := place)])
    ensures Enabled(w, Unwind(p)) ==> Apply(w, Unwind(p)).procs[p].pc == Finished
  {
  }

  /** Nothing moves a finished invocation any more. */
  lemma FinishedIsFinal(w: World, a: Action, p: nat)
    requires Alive(w, p) && w.procs[p].pc.Finished? && Enabled(w, a)
    ensures p in Apply(w, a).procs && Apply(w, a).procs[p].pc.Finished?
  {
  }

  // --- The inductive invariant ---------------------------------------------------------------

  /** Live processes of one machine run on its current boot and have distinct process ids. */
  ghost predicate Hosted(w: World) {
    && (forall p | Alive(w, p) ::
          w.procs[p].owner.machine in w.boots && w.procs[p].owner.boot == w.boots[w.procs[p].owner.machine])
    && (forall p, q | Alive(w, p) && Alive(w, q) && p != q ::
          w.procs[p].owner.machine != w.procs[q].owner.machine || w.procs[p].owner.pid != w.procs[q].owner.pid)
  }

  /** The manifest still says that the slot is this live invocation's, in the state it left it in. */
  ghost predicate OwnsItsSlot(m: Manifest, i: Invocation)
    requires HoldsSlot(i.pc)
  {
    && SlotOf(i) in m.slots
    && m.slots[SlotOf(i)].owner == i.owner
    && m.slots[SlotOf(i)].state == (if i.pc.Holding? then Reserved else Running)
  }

  ghost predicate Owned(w: World) {
    forall p | Alive(w, p) && HoldsSlot(w.procs[p].pc) :: OwnsItsSlot(w.m, w.procs[p])
  }

  predicate Launched(launches: seq<Launch>, key: SlotKey) {
    exists i | 0 <= i < |launches| :: launches[i].key == key
  }

  ghost predicate Names(m: Manifest, key: SlotKey, id: Identity) {
    && key in m.slots
    && RunId in m.slots[key].facts && m.slots[key].facts[RunId] == id.run
    && OperationId in m.slots[key].facts && m.slots[key].facts[OperationId] == id.operation
  }

  /** Before it dispatches, an invocation's slot has never been launched. */
  ghost predicate Undispatched(w: World) {
    forall p | Alive(w, p) ::
      var i := w.procs[p];
      && (i.pc.Holding? || i.pc.Began? || i.pc.Identified? ==> !Launched(w.launches, SlotOf(i)))
      && (i.pc.Identified? ==> Names(w.m, SlotOf(i), i.pc.id))
  }

  /** Every launch was preceded by its reservation, its running state and its annotation. */
  ghost predicate Recorded(w: World) {
    forall i | 0 <= i < |w.launches| ::
      && Names(w.m, w.launches[i].key, w.launches[i].id)
      && [Reserved, Running] <= w.m.slots[w.launches[i].key].history
  }

  ghost predicate Once(launches: seq<Launch>) {
    forall i, j | 0 <= i < j < |launches| :: launches[i].key != launches[j].key
  }

  /** Workers come from launching commands, one at most from each. */
  ghost predicate WorkersLaunched(w: World) {
    && (forall key | key in w.clients || key in w.created :: Launched(w.launches, key))
    && w.live <= w.created
    && w.clients !! w.created
  }

  ghost predicate Inv(w: World) {
    && Valid(w.m)
    && Hosted(w)
    && Owned(w)
    && Undispatched(w)
    && Recorded(w)
    && Once(w.launches)
    && WorkersLaunched(w)
  }

  // --- Every step keeps the invariant --------------------------------------------------------

  /** Two live invocations never hold a slot at the same time. */
  lemma SoleHolder(w: World, p: nat, q: nat)
    requires Valid(w.m) && Hosted(w) && Owned(w)
    requires Alive(w, p) && HoldsSlot(w.procs[p].pc) && Alive(w, q) && HoldsSlot(w.procs[q].pc)
    ensures p == q
  {
    assert OwnsItsSlot(w.m, w.procs[p]) && OwnsItsSlot(w.m, w.procs[q]);
    assert SlotOf(w.procs[p]) == SlotOf(w.procs[q]);
  }

  ghost predicate OthersHoldNothing(w: World, p: nat) {
    forall q | Alive(w, q) && q != p :: !HoldsSlot(w.procs[q].pc)
  }

  lemma HolderIsAlone(w: World, p: nat)
    requires Inv(w) && Alive(w, p) && HoldsSlot(w.procs[p].pc)
    ensures OthersHoldNothing(w, p)
  {
    forall q | Alive(w, q) && HoldsSlot(w.procs[q].pc) ensures p == q {
      SoleHolder(w, p, q);
    }
  }

  /** Launched slots keep the names under which they were launched. */
  ghost predicate KeepsNames(w: World, m: Manifest) {
    forall key, id | Launched(w.launches, key) && Names(w.m, key, id) :: Names(m, key, id)
  }

  /** What the invariant asks of one invocation standing at `pc`. */
  ghost predicate Justified(m: Manifest, launches: seq<Launch>, i: Invocation) {
    && (HoldsSlot(i.pc) ==> OwnsItsSlot(m, i))
    && (i.pc.Holding? || i.pc.Began? || i.pc.Identified? ==> !Launched(launches, SlotOf(i)))
    && (i.pc.Identified? ==> Names(m, SlotOf(i), i.pc.id))
  }

  lemma GotoKeepsHosted(w: World, p: nat, pc: Pc)
    requires Hosted(w) && Alive(w, p)
    ensures Hosted(Goto(w, p, pc))
  {
    var v := Goto(w, p, pc);
    forall q | Alive(v, q) ensures Alive(w, q) && v.procs[q].owner == w.procs[q].owner {
    }
  }

  lemma GotoKeepsOwned(w: World, m: Manifest, p: nat, pc: Pc)
    requires Owned(w) && Undispatched(w) && Alive(w, p)
    requires m == w.m || OthersHoldNothing(w, p)
    requires Justified(m, w.launches, w.procs[p].(pc := pc))
    ensures Owned(Goto(w.(m := m), p, pc)) && Undispatched(Goto(w.(m := m), p, pc))
  {
    var v := Goto(w.(m := m), p, pc);
    forall q | Alive(v, q) ensures Justified(m, w.launches, v.procs[q]) {
      if q != p {
        assert Alive(w, q) && v.procs[q] == w.procs[q];
      }
    }
  }

  lemma LaterManifestKeepsRecorded(w: World, m: Manifest)
    requires Recorded(w) && Extends(w.m, m) && KeepsNames(w, m)
    ensures Recorded(w.(m := m))
  {
    forall i | 0 <= i < |w.launches|
      ensures Names(m, w.launches[i].key, w.launches[i].id)
      ensures [Reserved, Running] <= m.slots[w.launches[i].key].history
    {
      var key := w.launches[i].key;
      assert Launched(w.launches, key) && Names(w.m, key, w.launches[i].id);
      assert SlotExtends(w.m.slots[key], m.slots[key]);
      assert [Reserved, Running] <= w.m.slots[key].history;
    }
  }

  /** An invocation moves on without touching the manifest. */
  lemma GotoKeeps(w: World, p: nat, pc: Pc)
    requires Inv(w) && Alive(w, p) && Justified(w.m, w.launches, w.procs[p].(pc := pc))
    ensures Inv(Goto(w, p, pc))
  {
    assert w.(m := w.m) == w;
    GotoKeepsHosted(w, p, pc);
    GotoKeepsOwned(w, w.m, p, pc);
  }

  /** An invocation commits a later manifest while no other invocation holds a slot. */
  lemma CommitKeeps(w: World, p: nat, m: Manifest, pc: Pc)
    requires Inv(w) && Alive(w, p) && OthersHoldNothing(w, p)
    requires Valid(m) && Extends(w.m, m) && KeepsNames(w, m)
    requires Justified(m, w.launches, w.procs[p].(pc := pc))
    ensures Inv(Goto(w.(m := m), p, pc))
  {
    GotoKeepsHosted(w, p, pc);
    GotoKeepsOwned(w, m, p, pc);
    LaterManifestKeepsRecorded(w, m);
  }

  /** The outcome of a transaction, whichever operation it came from, leaves the invocation justified. */
  ghost predicate Acceptable(w: World, p: nat, outcome: Outcome, committed: Pc)
    requires p in w.procs
  {
    outcome.Committed? ==>
      && OthersHoldNothing(w, p)
      && Valid(outcome.manifest) && Extends(w.m, outcome.manifest) && KeepsNames(w, outcome.manifest)
      && Justified(outcome.manifest, w.launches, w.procs[p].(pc := committed))
  }

  lemma TransactKeeps(w: World, p: nat, outcome: Outcome, committed: Pc, refused: Pc)
    requires Inv(w) && Alive(w, p) && Acceptable(w, p, outcome, committed)
    requires Justified(w.m, w.launches, w.procs[p].(pc := refused))
    ensures Inv(Transact(w, p, outcome, committed, refused))
  {
    if outcome.Committed? {
      CommitKeeps(w, p, outcome.manifest, committed);
    } else {
      GotoKeeps(w, p, refused);
    }
  }

  lemma SpawnKeeps(w: World, a: Action)
    requires Inv(w) && a.Spawn? && Enabled(w, a)
    ensures Inv(Apply(w, a))
  {
    var v := Apply(w, a);
    forall q | Alive(v, q) && q != a.p ensures Alive(w, q) && v.procs[q] == w.procs[q] {
    }
  }

  lemma CrashKeeps(w: World, a: Action)
    requires Inv(w) && a.Crash? && Enabled(w, a)
    ensures Inv(Apply(w, a))
  {
    var v := Apply(w, a);
    forall q | Alive(v, q) ensures Alive(w, q) && v.procs[q] == w.procs[q] {
    }
  }

  lemma RebootKeeps(w: World, a: Action)
    requires Inv(w) && a.Reboot? && Enabled(w, a)
    ensures Inv(Apply(w, a))
  {
    var v := Apply(w, a);
    forall q | Alive(v, q)
      ensures Alive(w, q) && v.procs[q] == w.procs[q] && w.procs[q].owner.machine != a.machine
    {
    }
  }

  lemma BindStepKeeps(w: World, a: Action)
    requires Inv(w) && a.DoBind? && Enabled(w, a)
    ensures Inv(Apply(w, a))
  {
    var outcome := Bind(w.m, a.binding);
    BindKeeps(w.m, a.binding);
    if w.m.binding.None? {
      forall q | Alive(w, q) ensures !HoldsSlot(w.procs[q].pc) {
      }
      CommitKeeps(w, a.p, outcome.manifest, Reconciling);
    } else if outcome.Committed? {
      assert w.(m := outcome.manifest) == w;
      GotoKeeps(w, a.p, Reconciling);
    } else {
      GotoKeeps(w, a.p, Finished);
    }
  }

  /** Soundness of the death proof: no live invocation owns a slot whose owner is proved dead. */
  lemma ProvedDeadIsDead(w: World, p: nat, host: Host, q: nat)
    requires Inv(w) && Alive(w, p) && Sees(w, p, host)
    requires MarkDead(w.m, host).Committed?
    requires Alive(w, q)
    ensures !HoldsSlot(w.procs[q].pc)
  {
    var i := w.procs[q];
    assert HoldsSlot(i.pc) ==> ProvedDead(w.m.slots[SlotOf(i)], host);
  }

  lemma MarkStepKeeps(w: World, a: Action)
    requires Inv(w) && a.DoMark? && Enabled(w, a)
    ensures Inv(Apply(w, a))
  {
    var outcome := MarkDead(w.m, a.host);
    if LockTaken(w) || outcome.Refused? {
      GotoKeeps(w, a.p, Finished);
    } else {
      MarkDeadKeeps(w.m, a.host);
      forall q | Alive(w, q) ensures !HoldsSlot(w.procs[q].pc) {
        ProvedDeadIsDead(w, a.p, a.host, q);
      }
      CommitKeeps(w, a.p, outcome.manifest, Inspecting(OutstandingKeys(w.m), None, false));
    }
  }

  /** Operations that touch no slot's facts keep every launch's names. */
  lemma FactsKeepNames(w: World, m: Manifest)
    requires forall key | key in w.m.slots :: key in m.slots && m.slots[key].facts == w.m.slots[key].facts
    ensures KeepsNames(w, m)
  {
  }

  lemma NobodyHoldsAnInterruptedSlot(w: World, key: SlotKey)
    requires Inv(w) && key in w.m.slots && w.m.slots[key].state == Interrupted
    ensures forall q | Alive(w, q) :: !HoldsSlot(w.procs[q].pc)
  {
    forall q | Alive(w, q) ensures !HoldsSlot(w.procs[q].pc) {
      assert HoldsSlot(w.procs[q].pc) ==> SlotOf(w.procs[q]) == key;
    }
  }

  lemma FinalizedManifest(w: World, key: SlotKey, state: SlotState, record: Option<Record>,
      reconciliation: Option<Reconciliation>)
    requires Valid(w.m) && Finalize(w.m, key, state, record, reconciliation).Committed?
    ensures var m := Finalize(w.m, key, state, record, reconciliation).manifest;
            Valid(m) && Extends(w.m, m) && KeepsNames(w, m)
  {
    FinalizeKeeps(w.m, key, state, record, reconciliation);
    FinalizeKeepsFacts(w.m, key, state, record, reconciliation);
    FactsKeepNames(w, Finalize(w.m, key, state, record, reconciliation).manifest);
  }

  lemma SettledWasInterrupted(m: Manifest, key: SlotKey, record: Option<Record>, reconciliation: Reconciliation)
    requires Finalize(m, key, Reconciled, record, Some(reconciliation)).Committed?
    ensures key in m.slots && m.slots[key].state == Interrupted
  {
  }

  lemma SettleIsAcceptable(w: World, p: nat, outcome: Outcome, key: SlotKey, pending: set<SlotKey>)
    requires Inv(w) && Alive(w, p)
    requires outcome.Committed? ==>
               && key in w.m.slots && w.m.slots[key].state == Interrupted
               && Valid(outcome.manifest) && Extends(w.m, outcome.manifest) && KeepsNames(w, outcome.manifest)
    ensures Acceptable(w, p, outcome, Inspecting(pending, None, false))
  {
    if outcome.Committed? {
      NobodyHoldsAnInterruptedSlot(w, key);
    }
  }

  lemma SettleKeeps(w: World, a: Action)
    requires Inv(w) && a.Settle? && Enabled(w, a)
    ensures Inv(Apply(w, a))
  {
    var key, pending := w.procs[a.p].pc.gone.value, w.procs[a.p].pc.pending;
    var outcome := Finalize(w.m, key, Reconciled, a.record, Some(a.reconciliation));
    if outcome.Committed? {
      SettledWasInterrupted(w.m, key, a.record, a.reconciliation);
      FinalizedManifest(w, key, Reconciled, a.record, Some(a.reconciliation));
    }
    SettleIsAcceptable(w, a.p, outcome, key, pending - {key});
    TransactKeeps(w, a.p, outcome, Inspecting(pending - {key}, None, false), Finished);
  }

  /** A slot that can be reserved was never launched, and nobody holds another one. */
  lemma ReservableIsUntouched(w: World, harness: Harness, role: Role, owner: Owner)
    requires Inv(w) && Reserve(w.m, harness, role, owner).Committed?
    ensures !Launched(w.launches, Key(harness, role))
    ensures forall q | Alive(w, q) :: !HoldsSlot(w.procs[q].pc)
  {
    forall q | Alive(w, q) ensures !HoldsSlot(w.procs[q].pc) {
      assert HoldsSlot(w.procs[q].pc) ==> Busy(w.m);
    }
    assert forall n | 0 <= n < |w.launches| :: Names(w.m, w.launches[n].key, w.launches[n].id);
  }

  lemma ReservedFacts(m: Manifest, harness: Harness, role: Role, owner: Owner)
    requires Reserve(m, harness, role, owner).Committed?
    ensures var n := Reserve(m, harness, role, owner).manifest;
            forall key | key in m.slots :: key in n.slots && n.slots[key].facts == m.slots[key].facts
  {
  }

  lemma ReservedManifest(w: World, harness: Harness, role: Role, owner: Owner)
    requires Valid(w.m) && Reserve(w.m, harness, role, owner).Committed?
    ensures var m := Reserve(w.m, harness, role, owner).manifest;
            Valid(m) && Extends(w.m, m) && KeepsNames(w, m)
  {
    ReserveKeeps(w.m, harness, role, owner);
    ReservedFacts(w.m, harness, role, owner);
    FactsKeepNames(w, Reserve(w.m, harness, role, owner).manifest);
  }

  lemma ReservedIsOwned(m: Manifest, i: Invocation)
    requires i.pc.Qualified? && Reserve(m, i.harness, i.pc.role, i.owner).Committed?
    ensures OwnsItsSlot(Reserve(m, i.harness, i.pc.role, i.owner).manifest, i.(pc := Holding(i.pc.role, i.pc.id)))
  {
  }

  lemma ReserveStepKeeps(w: World, a: Action)
    requires Inv(w) && a.DoReserve? && Enabled(w, a)
    ensures Inv(Apply(w, a))
  {
    var i := w.procs[a.p];
    var outcome := Reserve(w.m, i.harness, i.pc.role, i.owner);
    if outcome.Committed? {
      ReservedManifest(w, i.harness, i.pc.role, i.owner);
      ReservedIsOwned(w.m, i);
      ReservableIsUntouched(w, i.harness, i.pc.role, i.owner);
    }
    TransactKeeps(w, a.p, outcome, Holding(i.pc.role, i.pc.id), Finished);
  }

  lemma BeginKeeps(w: World, a: Action)
    requires Inv(w) && a.Begin? && Enabled(w, a)
    ensures Inv(Apply(w, a))
  {
    var i := w.procs[a.p];
    assert OwnsItsSlot(w.m, i);
    HolderIsAlone(w, a.p);
    TransitionKeeps(w.m, SlotOf(i), Running);
    CommitKeeps(w, a.p, Transition(w.m, SlotOf(i), Running).manifest, Began(i.pc.role, i.pc.id));
  }

  /** A live owner's annotation always commits. */
  lemma OwnerAnnotates(w: World, p: nat, observations: map<Field, string>)
    requires Inv(w) && Alive(w, p) && HoldsSlot(w.procs[p].pc)
    requires forall field | field in observations :: !Protected(field)
    ensures var i := w.procs[p];
            var outcome := Annotate(w.m, SlotOf(i), observations);
            && outcome.Committed?
            && Valid(outcome.manifest) && Extends(w.m, outcome.manifest)
            && outcome.manifest.slots[SlotOf(i)] ==
               w.m.slots[SlotOf(i)].(facts := w.m.slots[SlotOf(i)].facts + observations)
            && OwnsItsSlot(outcome.manifest, i)
  {
    assert OwnsItsSlot(w.m, w.procs[p]);
    AnnotateKeeps(w.m, SlotOf(w.procs[p]), observations);
  }

  lemma AnnotatedSlot(m: Manifest, key: SlotKey, observations: map<Field, string>)
    requires Annotate(m, key, observations).Committed?
    ensures var n := Annotate(m, key, observations).manifest;
            && n.slots.Keys == m.slots.Keys
            && n.slots[key] == m.slots[key].(facts := m.slots[key].facts + observations)
            && forall other | other in m.slots && other != key :: n.slots[other] == m.slots[other]
  {
  }

  lemma AnnotatedOwner(m: Manifest, i: Invocation, observations: map<Field, string>, pc: Pc)
    requires HoldsSlot(i.pc) && OwnsItsSlot(m, i) && Annotate(m, SlotOf(i), observations).Committed?
    requires HoldsSlot(pc) && pc.role == i.pc.role && pc.Holding? == i.pc.Holding?
    ensures OwnsItsSlot(Annotate(m, SlotOf(i), observations).manifest, i.(pc := pc))
  {
    AnnotatedSlot(m, SlotOf(i), observations);
  }

  /** Annotating a slot that was not launched, or with other fields only, renames no launch. */
  lemma AnnotatedNames(w: World, key: SlotKey, observations: map<Field, string>)
    requires Annotate(w.m, key, observations).Committed? && (OtherFields(observations) || !Launched(w.launches, key))
    ensures KeepsNames(w, Annotate(w.m, key, observations).manifest)
  {
    AnnotatedSlot(w.m, key, observations);
  }

  /** A live owner's annotation moves it on within its slot. */
  lemma AnnotationKeeps(w: World, p: nat, observations: map<Field, string>, pc: Pc)
    requires Inv(w) && Alive(w, p) && HoldsSlot(w.procs[p].pc)
    requires forall field | field in observations :: !Protected(field)
    requires HoldsSlot(pc) && pc.role == w.procs[p].pc.role && pc.Holding? == w.procs[p].pc.Holding?
    requires OtherFields(observations) || !Launched(w.launches, SlotOf(w.procs[p]))
    requires var i := w.procs[p];
             var outcome := Annotate(w.m, SlotOf(i), observations);
             outcome.Committed? ==>
               && (pc.Holding? || pc.Began? || pc.Identified? ==> !Launched(w.launches, SlotOf(i)))
               && (pc.Identified? ==> Names(outcome.manifest, SlotOf(i), pc.id))
    ensures var outcome := Annotate(w.m, SlotOf(w.procs[p]), observations);
            outcome.Committed? && Inv(Goto(w.(m := outcome.manifest), p, pc))
  {
    var i := w.procs[p];
    var outcome := Annotate(w.m, SlotOf(i), observations);
    assert outcome.Committed? && OwnsItsSlot(outcome.manifest, i.(pc := pc)) by {
      assert OwnsItsSlot(w.m, i);
      AnnotatedOwner(w.m, i, observations, pc);
    }
    AnnotatedNames(w, SlotOf(i), observations);
    AnnotateKeeps(w.m, SlotOf(i), observations);
    HolderIsAlone(w, p);
    CommitKeeps(w, p, outcome.manifest, pc);
  }

  lemma IdentifyKeeps(w: World, a: Action)
    requires Inv(w) && a.Identify? && Enabled(w, a)
    ensures Inv(Apply(w, a))
    ensures Apply(w, a).procs[a.p].pc.Identified?
  {
    var i := w.procs[a.p];
    var observations := map[RunId := i.pc.id.run, OperationId := i.pc.id.operation];
    if Annotate(w.m, SlotOf(i), observations).Committed? {
      AnnotatedSlot(w.m, SlotOf(i), observations);
    }
    AnnotationKeeps(w, a.p, observations, Identified(i.pc.role, i.pc.id));
  }

  lemma NoteKeeps(w: World, a: Action)
    requires Inv(w) && (a.Note? || a.ObserveEnd?) && Enabled(w, a)
    ensures Inv(Apply(w, a))
  {
    var i := w.procs[a.p];
    AnnotationKeeps(w, a.p, a.observations, if a.Note? then i.pc else Ended(i.pc.role, i.pc.id));
  }

  lemma ReleaseKeeps(w: World, p: nat, outcome: Outcome, committed: Pc, refused: Pc)
    requires Inv(w) && Alive(w, p) && w.procs[p].pc.Ended?
    requires !HoldsSlot(committed) && refused == Unwinding(w.procs[p].pc.role)
    requires outcome.Committed? ==>
               Valid(outcome.manifest) && Extends(w.m, outcome.manifest) && KeepsNames(w, outcome.manifest)
    ensures Inv(Transact(w, p, outcome, committed, refused))
  {
    assert OwnsItsSlot(w.m, w.procs[p]);
    HolderIsAlone(w, p);
    TransactKeeps(w, p, outcome, committed, refused);
  }

  lemma FinalizeTransacts(w: World, p: nat, key: SlotKey, state: SlotState, record: Record, committed: Pc, refused: Pc)
    requires Inv(w) && Alive(w, p) && w.procs[p].pc.Ended?
    requires !HoldsSlot(committed) && refused == Unwinding(w.procs[p].pc.role)
    ensures Inv(Transact(w, p, Finalize(w.m, key, state, Some(record), None), committed, refused))
  {
    var outcome := Finalize(w.m, key, state, Some(record), None);
    assert outcome.Committed? ==>
        Valid(outcome.manifest) && Extends(w.m, outcome.manifest) && KeepsNames(w, outcome.manifest) by {
      if outcome.Committed? {
        FinalizedManifest(w, key, state, Some(record), None);
      }
    }
    ReleaseKeeps(w, p, outcome, committed, refused);
  }

  lemma FinalizeStepKeeps(w: World, a: Action)
    requires Inv(w) && a.DoFinalize? && Enabled(w, a)
    ensures Inv(Apply(w, a))
  {
    var i := w.procs[a.p];
    FinalizeTransacts(w, a.p, SlotOf(i), ExpectedState(i.pc.role), a.retained, NextRole(i.pc.role),
      Unwinding(i.pc.role));
  }

  lemma TransitionKeepsFacts(m: Manifest, key: SlotKey, state: SlotState)
    requires Transition(m, key, state).Committed?
    ensures var n := Transition(m, key, state).manifest;
            forall k | k in m.slots :: k in n.slots && n.slots[k].facts == m.slots[k].facts
  {
  }

  lemma TransitionedManifest(w: World, key: SlotKey, state: SlotState)
    requires Valid(w.m) && Transition(w.m, key, state).Committed?
    ensures var m := Transition(w.m, key, state).manifest; Valid(m) && Extends(w.m, m) && KeepsNames(w, m)
  {
    var m := Transition(w.m, key, state).manifest;
    assert KeepsNames(w, m) by {
      TransitionKeepsFacts(w.m, key, state);
      FactsKeepNames(w, m);
    }
    TransitionKeeps(w.m, key, state);
  }

  /** An invocation that lets go of its slot, whatever the transaction was. */
  lemma LettingGoKeeps(w: World, p: nat, outcome: Outcome)
    requires Inv(w) && Alive(w, p) && HoldsSlot(w.procs[p].pc)
    requires outcome.Committed? ==>
               Valid(outcome.manifest) && Extends(w.m, outcome.manifest) && KeepsNames(w, outcome.manifest)
    ensures Inv(Transact(w, p, outcome, Finished, Finished))
  {
    HolderIsAlone(w, p);
    TransactKeeps(w, p, outcome, Finished, Finished);
  }

  lemma UnwindKeeps(w: World, a: Action)
    requires Inv(w) && a.Unwind? && Enabled(w, a)
    ensures Inv(Apply(w, a))
  {
    var key := SlotOf(w.procs[a.p]);
    assert key in w.m.slots && w.m.slots[key].state == Running by {
      assert OwnsItsSlot(w.m, w.procs[a.p]);
    }
    TransitionedManifest(w, key, Interrupted);
    LettingGoKeeps(w, a.p, Transition(w.m, key, Interrupted));
  }

  lemma DispatchKeeps(w: World, a: Action)
    requires Inv(w) && a.Dispatch? && Enabled(w, a)
    ensures Inv(Apply(w, a))
  {
    var i := w.procs[a.p];
    var key := SlotOf(i);
    var v := Apply(w, a);
    assert OwnsItsSlot(w.m, i);
    HolderIsAlone(w, a.p);
    GotoKeepsHosted(w, a.p, Dispatched(i.pc.role, i.pc.id));
    assert Owned(v) && Undispatched(v) by {
      forall q | Alive(v, q) ensures Justified(v.m, v.launches, v.procs[q]) {
        assert Alive(w, q);
      }
    }
    RunningHistory(w.m.slots[key]);
    LaunchAppended(w, key, i.pc.id);
  }

  lemma RunningHistory(slot: Slot)
    requires ValidSlot(slot) && slot.state == Running
    ensures slot.history == [Reserved, Running]
  {
    HistoryIsShort(slot.history);
    assert slot.history[0] == Reserved && slot.history[|slot.history| - 1] == Running;
  }

  lemma LaunchAppended(w: World, key: SlotKey, id: Identity)
    requires Inv(w) && !Launched(w.launches, key) && Names(w.m, key, id)
    requires w.m.slots[key].history == [Reserved, Running]
    ensures var v := w.(launches := w.launches + [Launch(key, id)], clients := w.clients + {key});
            Recorded(v) && Once(v.launches) && WorkersLaunched(v)
  {
    var v := w.(launches := w.launches + [Launch(key, id)], clients := w.clients + {key});
    assert v.launches[|w.launches|] == Launch(key, id);
    forall k | k in v.clients || k in v.created ensures Launched(v.launches, k) {
      if k != key {
        assert Launched(w.launches, k);
        var n :| 0 <= n < |w.launches| && w.launches[n].key == k;
        assert v.launches[n].key == k;
      }
    }
    assert key !in w.created;
  }

  lemma EngineKeeps(w: World, a: Action)
    requires Inv(w) && (a.CreateWorker? || a.ClientExits? || a.WorkerExits?) && Enabled(w, a)
    ensures Inv(Apply(w, a))
  {
    var v := Apply(w, a);
    forall q | Alive(v, q) ensures Alive(w, q) {
    }
  }

  lemma HostStepKeeps(w: World, a: Action)
    requires Inv(w) && (a.Spawn? || a.Crash? || a.Reboot?) && Enabled(w, a)
    ensures Inv(Apply(w, a))
  {
    if a.Spawn? {
      SpawnKeeps(w, a);
    } else if a.Crash? {
      CrashKeeps(w, a);
    } else {
      RebootKeeps(w, a);
    }
  }

  /** Transactions of an invocation that holds no slot yet. */
  predicate CampaignStep(a: Action) {
    a.DoBind? || a.DoMark? || a.Settle? || a.DoReserve?
  }

  lemma CampaignStepKeeps(w: World, a: Action)
    requires Inv(w) && CampaignStep(a) && Enabled(w, a)
    ensures Inv(Apply(w, a))
  {
    if a.DoBind? {
      BindStepKeeps(w, a);
    } else if a.DoMark? {
      MarkStepKeeps(w, a);
    } else if a.Settle? {
      SettleKeeps(w, a);
    } else {
      ReserveStepKeeps(w, a);
    }
  }

  /** A live owner's own transactions. */
  predicate OwnerStep(a: Action) {
    a.Begin? || a.Identify? || a.Note? || a.ObserveEnd? || a.DoFinalize? || a.Unwind?
  }

  lemma OwnerStepKeeps(w: World, a: Action)
    requires Inv(w) && OwnerStep(a) && Enabled(w, a)
    ensures Inv(Apply(w, a))
  {
    if a.Begin? {
      BeginKeeps(w, a);
    } else if a.Identify? {
      IdentifyKeeps(w, a);
    } else if a.DoFinalize? {
      FinalizeStepKeeps(w, a);
    } else if a.Unwind? {
      UnwindKeeps(w, a);
    } else {
      NoteKeeps(w, a);
    }
  }

  predicate EngineStep(a: Action) {
    a.CreateWorker? || a.ClientExits? || a.WorkerExits?
  }

  /** The invariant is inductive. */
  lemma StepKeeps(w: World, a: Action)
    requires Inv(w) && Enabled(w, a)
    ensures Inv(Apply(w, a))
  {
    if a.Spawn? || a.Crash? || a.Reboot? {
      HostStepKeeps(w, a);
    } else if CampaignStep(a) {
      CampaignStepKeeps(w, a);
    } else if OwnerStep(a) {
      OwnerStepKeeps(w, a);
    } else if a.Dispatch? {
      DispatchKeeps(w, a);
    } else if EngineStep(a) {
      EngineKeeps(w, a);
    } else {
      LocalStepKeeps(w, a);
    }
  }

  lemma LocalStepKeeps(w: World, a: Action)
    requires Inv(w) && Enabled(w, a)
    requires a.Inspect? || a.LeaveReconciliation? || a.Look? || a.Preflight? || a.Raise?
    ensures Inv(Apply(w, a))
  {
    var pc := Apply(w, a).procs[a.p].pc;
    assert Apply(w, a) == Goto(w, a.p, pc);
    assert Justified(w.m, w.launches, w.procs[a.p].(pc := pc)) by {
      if HoldsSlot(w.procs[a.p].pc) {
        assert OwnsItsSlot(w.m, w.procs[a.p]);
      }
    }
    GotoKeeps(w, a.p, pc);
  }
}
