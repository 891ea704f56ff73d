/**
 An undisturbed campaign: an invocation of each harness spends its two slots, one after the other, and
 every slot is launched, observed at its end and finalized with its evidence.
 */
module ProtocolCampaign {
  import opened Common
  import opened Campaign
  import opened Protocol
  import opened ProtocolSafety
  import opened ProtocolRuns

  // --- One slot ------------------------------------------------------------------------------

  /** Nothing is outstanding, nobody reconciles, and the campaign is bound. */
  ghost predicate Between(w: World) {
    Inv(w) && OutstandingKeys(w.m) == {} && !LockTaken(w) && w.m.binding.Some?
  }

  /** This slot was spent well, with this evidence, and nothing else of the manifest changed. */
  ghost predicate Adds(m: Manifest, n: Manifest, key: SlotKey, record: Record) {
    && n.binding == m.binding && n.slots.Keys == m.slots.Keys + {key}
    && (forall other | other in m.slots && other != key :: n.slots[other] == m.slots[other])
    && n.evidence == m.evidence[key := record]
    && SpentWell(n, key)
  }

  lemma KeepsSpentWell(m: Manifest, n: Manifest, key: SlotKey, record: Record, other: SlotKey)
    requires Adds(m, n, key, record) && SpentWell(m, other) && other != key
    ensures SpentWell(n, other)
  {
  }

  /** The command creates the worker, and the worker ends. */
  lemma WorkerComesAndGoes(w: World, key: SlotKey) returns (actions: seq<Action>, v: World)
    requires key in w.clients
    ensures Leads(w, actions, v)
    ensures v == w.(clients := w.clients - {key}, created := w.created + {key}, live := w.live - {key})
  {
    LeadsOne(w, CreateWorker(key));
    var u := w.(clients := w.clients - {key}, created := w.created + {key}, live := w.live + {key});
    LeadsTo(w, [CreateWorker(key)], u, WorkerExits(key));
    v := Apply(u, WorkerExits(key));
    assert v.live == w.live - {key};
    actions := [CreateWorker(key)] + [WorkerExits(key)];
  }

  /** The owner observes the end of a worker that is gone. */
  lemma ObservesEnd(w: World, q: nat, key: SlotKey)
    requires Inv(w) && Alive(w, q) && w.procs[q].pc.Dispatched? && SlotOf(w.procs[q]) == key
    requires key in w.created && key !in w.live
    ensures Enabled(w, ObserveEnd(q, map[]))
    ensures var v := Apply(w, ObserveEnd(q, map[]));
            && OnlySlot(w.m, v.m, key)
            && v == w.(m := v.m,
                       procs := w.procs[q := w.procs[q].(pc := Ended(w.procs[q].pc.role, w.procs[q].pc.id))])
  {
    OwnerMayAnnotate(w, q, map[]);
    AnnotatesOnlySlot(w.m, key, map[]);
  }

  lemma Ends(w: World, q: nat, key: SlotKey) returns (actions: seq<Action>, v: World)
    requires Inv(w) && Alive(w, q) && w.procs[q].pc.Dispatched? && SlotOf(w.procs[q]) == key && key in w.clients
    ensures Leads(w, actions, v) && Inv(v) && OnlySlot(w.m, v.m, key)
    ensures v.procs == w.procs[q := w.procs[q].(pc := Ended(w.procs[q].pc.role, w.procs[q].pc.id))]
    ensures v.boots == w.boots && v.live == w.live - {key}
  {
    var first, u := WorkerComesAndGoes(w, key);
    RunKeeps(w, first);
    ObservesEnd(u, q, key);
    LeadsTo(w, first, u, ObserveEnd(q, map[]));
    v := Apply(u, ObserveEnd(q, map[]));
    actions := first + [ObserveEnd(q, map[])];
    RunKeeps(w, actions);
  }

  /** Where an invocation goes once a slot of this role is spent. */
  function Onward(role: Role): Pc {
    match role
    case CompletedWorkflow => Looking(Cancellation)
    case _ => Finished
  }

  /** The end of a slot of this role. */
  function EndOf(role: Role): SlotState {
    match role
    case CompletedWorkflow => SlotState.Completed
    case _ => SlotState.Cancelled
  }

  lemma FinalizedAdds(m: Manifest, key: SlotKey, record: Record)
    requires Valid(m) && key in m.slots && m.slots[key].state == Running
    ensures var outcome := Finalize(m, key, EndOf(key.role), Some(record), None);
            && outcome.Committed? && Adds(m, outcome.manifest, key, record)
            && OutstandingKeys(outcome.manifest) == {}
  {
    FinalizeExactly(m, key, EndOf(key.role), Some(record), None);
    FinalizeEffect(m, key, EndOf(key.role), Some(record), None);
  }

  lemma FinalizeMoves(w: World, q: nat, key: SlotKey, record: Record, n: Manifest)
    requires Alive(w, q) && w.procs[q].pc.Ended? && SlotOf(w.procs[q]) == key
    requires Finalize(w.m, key, EndOf(key.role), Some(record), None) == Committed(n)
    ensures Apply(w, DoFinalize(q, record)) ==
            w.(m := n, procs := w.procs[q := w.procs[q].(pc := Onward(key.role))])
  {
  }

  lemma OwnerRuns(w: World, q: nat, key: SlotKey)
    requires Inv(w) && Alive(w, q) && w.procs[q].pc.Ended? && SlotOf(w.procs[q]) == key
    ensures Valid(w.m) && key in w.m.slots && w.m.slots[key].state == Running
  {
    assert OwnsItsSlot(w.m, w.procs[q]);
  }

  /** The owner of a worker that has ended binds its evidence and goes on. */
  lemma Finalizes(w: World, q: nat, key: SlotKey, record: Record)
    requires Inv(w) && Alive(w, q) && w.procs[q].pc.Ended? && SlotOf(w.procs[q]) == key
    ensures var v := Apply(w, DoFinalize(q, record));
            && Adds(w.m, v.m, key, record) && OutstandingKeys(v.m) == {}
            && v == w.(m := v.m, procs := w.procs[q := w.procs[q].(pc := Onward(key.role))])
  {
    OwnerRuns(w, q, key);
    FinalizedAdds(w.m, key, record);
    FinalizeMoves(w, q, key, record, Finalize(w.m, key, EndOf(key.role), Some(record), None).manifest);
  }

  lemma LockStaysFree(w: World, v: World, q: nat)
    requires !LockTaken(w) && q in v.procs && v.procs == w.procs[q := v.procs[q]] && !v.procs[q].pc.Inspecting?
    ensures !LockTaken(v)
  {
    forall p | Alive(v, p) ensures !v.procs[p].pc.Inspecting? {
      assert p != q ==> Alive(w, p) && v.procs[p] == w.procs[p];
    }
  }

  /** An invocation that looks for an unspent slot qualifies for it. */
  lemma LooksAndQualifies(w: World, q: nat, key: SlotKey) returns (actions: seq<Action>, v: World)
    requires Inv(w) && Alive(w, q) && w.procs[q].pc == Looking(key.role) && w.procs[q].harness == key.harness
    requires key !in w.m.slots
    ensures Leads(w, actions, v) && Inv(v)
    ensures v == w.(procs := w.procs[q := w.procs[q].(pc := Qualified(key.role, SOME_RUN))])
  {
    LeadsOne(w, Look(q));
    StepKeeps(w, Look(q));
    var u := Apply(w, Look(q));
    LeadsTo(w, [Look(q)], u, Preflight(q, SOME_RUN));
    StepKeeps(u, Preflight(q, SOME_RUN));
    v := Apply(u, Preflight(q, SOME_RUN));
    actions := [Look(q)] + [Preflight(q, SOME_RUN)];
    assert v.procs == w.procs[q := w.procs[q].(pc := Qualified(key.role, SOME_RUN))];
  }

  /** From looking for an unspent slot to the observed end of its worker. */
  lemma LaunchesAndEnds(w: World, q: nat, key: SlotKey) returns (actions: seq<Action>, v: World)
    requires Between(w) && Alive(w, q) && w.procs[q].pc == Looking(key.role) && w.procs[q].harness == key.harness
    requires key in SLOTS - w.m.slots.Keys
    ensures Leads(w, actions, v) && Inv(v) && v.boots == w.boots && v.live == w.live - {key}
    ensures Alive(v, q) && v.procs[q].pc.Ended? && SlotOf(v.procs[q]) == key
    ensures v.procs == w.procs[q := w.procs[q].(pc := v.procs[q].pc)]
    ensures OnlySlot(w.m, v.m, key)
  {
    var first, u := LooksAndQualifies(w, q, key);
    var second, u2 := Launches(u, q, key);
    LeadsOn(w, first, u, second, u2);
    var third;
    third, v := Ends(u2, q, key);
    LeadsOn(w, first + second, u2, third, v);
    actions := first + second + third;
    OnlyItsPlace(w, u, u2, v, q, key);
    OnlySlotTrans(w.m, u2.m, v.m, key);
  }

  lemma OnlySlotTrans(m: Manifest, k: Manifest, n: Manifest, key: SlotKey)
    requires OnlySlot(m, k, key) && OnlySlot(k, n, key)
    ensures OnlySlot(m, n, key)
  {
  }

  lemma PlaceTwice(before: map<nat, Invocation>, q: nat, one: Pc, two: Pc)
    requires q in before
    ensures var between := before[q := before[q].(pc := one)];
            between[q := between[q].(pc := two)] == before[q := before[q].(pc := two)]
  {
  }

  /** From looking for an unspent slot to having spent it well, with its worker gone. */
  lemma SpendsSlot(w: World, q: nat, key: SlotKey, record: Record) returns (actions: seq<Action>, v: World)
    requires Between(w) && Alive(w, q) && w.procs[q].pc == Looking(key.role) && w.procs[q].harness == key.harness
    requires key in SLOTS - w.m.slots.Keys
    ensures Leads(w, actions, v) && Between(v) && Adds(w.m, v.m, key, record)
    ensures v.procs == w.procs[q := w.procs[q].(pc := Onward(key.role))]
    ensures v.boots == w.boots && v.live == w.live - {key}
  {
    var first, u := LaunchesAndEnds(w, q, key);
    Finalizes(u, q, key, record);
    LeadsTo(w, first, u, DoFinalize(q, record));
    v := Apply(u, DoFinalize(q, record));
    actions := first + [DoFinalize(q, record)];
    AddsThrough(w.m, u.m, v.m, key, record);
    PlaceTwice(w.procs, q, u.procs[q].pc, Onward(key.role));
    LockStaysFree(w, v, q);
    RunKeeps(w, actions);
  }

  lemma OnlyItsPlace(w: World, u: World, u2: World, v: World, q: nat, key: SlotKey)
    requires q in w.procs && u.procs == w.procs[q := w.procs[q].(pc := Qualified(key.role, SOME_RUN))]
    requires OnlyIts(u, u2, q, key) && u2.procs[q].pc.Dispatched?
    requires v.procs == u2.procs[q := u2.procs[q].(pc := Ended(u2.procs[q].pc.role, u2.procs[q].pc.id))]
    ensures v.procs == w.procs[q := w.procs[q].(pc := v.procs[q].pc)]
  {
    assert v.procs.Keys == w.procs.Keys;
    forall p | p in w.procs && p != q ensures v.procs[p] == w.procs[p] {
    }
  }

  lemma AddsThrough(m: Manifest, k: Manifest, n: Manifest, key: SlotKey, record: Record)
    requires OnlySlot(m, k, key) && Adds(k, n, key, record)
    ensures Adds(m, n, key, record)
  {
  }

  // --- One harness ---------------------------------------------------------------------------

  /** Both slots of the harness were spent well, with this evidence, and the others are as they were. */
  ghost predicate AddsBoth(m: Manifest, n: Manifest, harness: Harness, one: Record, two: Record) {
    && n.slots.Keys == m.slots.Keys + {Key(harness, CompletedWorkflow), Key(harness, Cancellation)}
    && (forall other | other in m.slots && other.harness != harness :: n.slots[other] == m.slots[other])
    && n.evidence == m.evidence[Key(harness, CompletedWorkflow) := one][Key(harness, Cancellation) := two]
    && SpentWell(n, Key(harness, CompletedWorkflow)) && SpentWell(n, Key(harness, Cancellation))
  }

  lemma AddsTwice(m: Manifest, k: Manifest, n: Manifest, harness: Harness, one: Record, two: Record)
    requires Adds(m, k, Key(harness, CompletedWorkflow), one) && Adds(k, n, Key(harness, Cancellation), two)
    ensures AddsBoth(m, n, harness, one, two)
  {
    KeepsSpentWell(k, n, Key(harness, Cancellation), two, Key(harness, CompletedWorkflow));
  }

  lemma ArrivedIsBetween(w: World, binding: Binding, actions: seq<Action>, q: nat, i: Invocation, u: World)
    requires Inv(w) && OutstandingKeys(w.m) == {} && !LockTaken(w) && Bind(w.m, binding).Committed?
    requires u == Joined(w, Bind(w.m, binding).manifest, q, i) && Leads(w, actions, u) && i.pc.Looking?
    ensures Between(u) && u.m.slots == w.m.slots && u.m.evidence == w.m.evidence
    ensures u.m.binding == Some(binding)
  {
    BindKeeps(w.m, binding);
    RunKeeps(w, actions);
    NewcomerTakesNoLock(w, u.m, q, i);
    assert OutstandingKeys(u.m) == OutstandingKeys(w.m);
  }

  lemma SecondIsUnspent(m: Manifest, n: Manifest, harness: Harness, record: Record)
    requires Adds(m, n, Key(harness, CompletedWorkflow), record) && harness in {Omp, Claude}
    requires Key(harness, Cancellation) !in m.slots
    ensures Key(harness, Cancellation) in SLOTS - n.slots.Keys
  {
  }

  lemma SpendsOneAfterTheOther(w: World, q: nat, harness: Harness, one: Record, two: Record)
    returns (actions: seq<Action>, v: World)
    requires Between(w) && Alive(w, q) && w.procs[q].pc == Looking(CompletedWorkflow) && w.procs[q].harness == harness
    requires harness in {Omp, Claude}
    requires Key(harness, CompletedWorkflow) !in w.m.slots && Key(harness, Cancellation) !in w.m.slots
    ensures Leads(w, actions, v) && Between(v) && v.boots == w.boots && v.m.binding == w.m.binding
    ensures AddsBoth(w.m, v.m, harness, one, two) && v.live <= w.live
  {
    var first, u := SpendsSlot(w, q, Key(harness, CompletedWorkflow), one);
    SecondIsUnspent(w.m, u.m, harness, one);
    var second;
    second, v := SpendsSlot(u, q, Key(harness, Cancellation), two);
    LeadsOn(w, first, u, second, v);
    AddsTwice(w.m, u.m, v.m, harness, one, two);
    actions := first + second;
  }

  /** A new invocation spends both slots of its harness. */
  lemma SpendsBoth(w: World, harness: Harness, machine: string, binding: Binding, one: Record, two: Record)
    returns (actions: seq<Action>, v: World)
    requires Inv(w) && OutstandingKeys(w.m) == {} && !LockTaken(w) && machine in w.boots
    requires harness in {Omp, Claude} && Bind(w.m, binding).Committed?
    requires Key(harness, CompletedWorkflow) !in w.m.slots && Key(harness, Cancellation) !in w.m.slots
    ensures Leads(w, actions, v) && Between(v) && v.boots == w.boots && v.m.binding == Some(binding)
    ensures AddsBoth(w.m, v.m, harness, one, two) && v.live <= w.live
  {
    var q, i, first := Arrives(w, harness, machine, binding);
    var u := Joined(w, Bind(w.m, binding).manifest, q, i);
    ArrivedIsBetween(w, binding, first, q, i, u);
    var second;
    second, v := SpendsOneAfterTheOther(u, q, harness, one, two);
    LeadsOn(w, first, u, second, v);
    actions := first + second;
  }

  // --- The whole campaign --------------------------------------------------------------------

  lemma OtherHarnessStays(m: Manifest, n: Manifest, one: Record, two: Record, role: Role)
    requires AddsBoth(m, n, Claude, one, two) && SpentWell(m, Key(Omp, role))
    ensures SpentWell(n, Key(Omp, role)) && n.evidence[Key(Omp, role)] == m.evidence[Key(Omp, role)]
  {
  }

  /** All four slots were spent well, each with the evidence given for it. */
  ghost predicate AllSpent(m: Manifest, completed: map<Harness, Record>, cancelled: map<Harness, Record>)
    requires completed.Keys == {Omp, Claude} && cancelled.Keys == {Omp, Claude}
  {
    forall harness | harness in {Omp, Claude} ::
      && SpentWell(m, Key(harness, CompletedWorkflow))
      && m.evidence[Key(harness, CompletedWorkflow)] == completed[harness]
      && SpentWell(m, Key(harness, Cancellation))
      && m.evidence[Key(harness, Cancellation)] == cancelled[harness]
  }

  lemma BothHarnesses(
    k: Manifest, m: Manifest, n: Manifest, completed: map<Harness, Record>, cancelled: map<Harness, Record>)
    requires completed.Keys == {Omp, Claude} && cancelled.Keys == {Omp, Claude}
    requires AddsBoth(k, m, Omp, completed[Omp], cancelled[Omp])
    requires AddsBoth(m, n, Claude, completed[Claude], cancelled[Claude])
    ensures AllSpent(n, completed, cancelled)
  {
    OtherHarnessStays(m, n, completed[Claude], cancelled[Claude], CompletedWorkflow);
    OtherHarnessStays(m, n, completed[Claude], cancelled[Claude], Cancellation);
  }

  lemma StartsFree(campaignId: string, boots: map<string, Option<string>>)
    ensures var w := Initial(campaignId, boots);
            Inv(w) && OutstandingKeys(w.m) == {} && !LockTaken(w) && w.m.slots == map[] && w.m.binding.None?
  {
  }

  lemma OthersAreUnspent(m: Manifest, n: Manifest, one: Record, two: Record)
    requires AddsBoth(m, n, Omp, one, two) && m.slots == map[]
    ensures Key(Claude, CompletedWorkflow) !in n.slots && Key(Claude, Cancellation) !in n.slots
  {
  }

  /** An invocation of the first harness spends its slots, and leaves those of the second. */
  lemma FirstHarness(
    campaignId: string, boots: map<string, Option<string>>, machine: string, binding: Binding, one: Record, two: Record)
    returns (actions: seq<Action>, u: World)
    requires machine in boots
    ensures Leads(Initial(campaignId, boots), actions, u) && Between(u) && u.boots == boots && u.live == {}
    ensures AddsBoth(Initial(campaignId, boots).m, u.m, Omp, one, two)
    ensures Bind(u.m, binding).Committed?
    ensures Key(Claude, CompletedWorkflow) !in u.m.slots && Key(Claude, Cancellation) !in u.m.slots
  {
    var start := Initial(campaignId, boots);
    StartsFree(campaignId, boots);
    actions, u := SpendsBoth(start, Omp, machine, binding, one, two);
    OthersAreUnspent(start.m, u.m, one, two);
    BindKeeps(u.m, binding);
  }

  /**
   From the start, one invocation of each harness spends all four slots well: each ends as its role
   demands, with the evidence of its own worker bound, and no worker is left.
   */
  lemma UndisturbedCampaign(
    campaignId: string, boots: map<string, Option<string>>, machine: string, binding: Binding,
    completed: map<Harness, Record>, cancelled: map<Harness, Record>)
    returns (actions: seq<Action>, w: World)
    requires machine in boots && completed.Keys == {Omp, Claude} && cancelled.Keys == {Omp, Claude}
    ensures Leads(Initial(campaignId, boots), actions, w)
    ensures AllSpent(w.m, completed, cancelled) && OutstandingKeys(w.m) == {} && w.live == {}
  {
    var first, u := FirstHarness(campaignId, boots, machine, binding, completed[Omp], cancelled[Omp]);
    var second;
    second, w := SpendsBoth(u, Claude, machine, binding, completed[Claude], cancelled[Claude]);
    LeadsOn(Initial(campaignId, boots), first, u, second, w);
    BothHarnesses(Initial(campaignId, boots).m, u.m, w.m, completed, cancelled);
    actions := first + second;
  }
}
