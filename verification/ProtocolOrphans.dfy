/**
 The exact condition under which reconciliation keeps the concurrency of one worker.

 A launching command outlives the invocation that issued it.  If an inspection finds no container
 while that command is still running, the slot is reconciled, the next slot is launched, and the old
 command can still create its worker.
 */
module ProtocolOrphans {
  import opened Common
  import opened Campaign
  import opened Protocol
  import opened ProtocolSafety
  import opened ProtocolOrder
  import opened ProtocolRuns

  // --- Two workers ---------------------------------------------------------------------------

  /** The worker of the slot is live, or its launching command may still create it. */
  predicate Loose(w: World, key: SlotKey) {
    key in w.clients || key in w.live
  }

  /** The run inspects nothing and ends with two live workers. */
  ghost predicate MakesTwoWorkers(w: World, actions: seq<Action>) {
    NoInspection(actions) && CanRun(w, actions) && |After(w, actions).live| >= 2
  }

  lemma Prepend(w: World, first: seq<Action>, v: World, rest: seq<Action>)
    requires Leads(w, first, v) && MakesTwoWorkers(v, rest)
    ensures MakesTwoWorkers(w, first + rest)
  {
    RunsCompose(w, first, rest);
  }

  lemma TwoElements(keys: set<SlotKey>, a: SlotKey, b: SlotKey)
    requires a in keys && b in keys && a != b
    ensures |keys| >= 2
  {
    SubsetSize({a, b}, keys);
  }

  lemma BothAppear(w: World, key: SlotKey, other: SlotKey) returns (actions: seq<Action>)
    requires Loose(w, key) && other in w.clients && other != key
    ensures MakesTwoWorkers(w, actions)
  {
    var a := CreateWorker(other);
    LeadsOne(w, a);
    var v := Apply(w, a);
    actions := [a];
    if key in v.clients {
      LeadsTo(w, actions, v, CreateWorker(key));
      v := Apply(v, CreateWorker(key));
      actions := actions + [CreateWorker(key)];
    }
    TwoElements(v.live, key, other);
  }

  /** A slot that may be spent while a worker is loose and nothing is outstanding makes two workers. */
  lemma FreeSlotMakesTwo(w: World, machine: string, key: SlotKey, next: SlotKey) returns (actions: seq<Action>)
    requires Inv(w) && machine in w.boots && !LockTaken(w)
    requires w.m.binding.Some? && OutstandingKeys(w.m) == {}
    requires Loose(w, key) && key in w.m.slots && MaySpend(w.m, next)
    ensures MakesTwoWorkers(w, actions)
  {
    BindKeeps(w.m, w.m.binding.value);
    assert Bind(w.m, w.m.binding.value) == Committed(w.m);
    var q, i, first := Arrives(w, next.harness, machine, w.m.binding.value);
    var second := Qualifies(w, w.m, q, i, next.role);
    var u := Joined(w, w.m, q, i.(pc := Qualified(next.role, SOME_RUN)));
    LeadsOn(w, first, Joined(w, w.m, q, i), second, u);
    RunKeeps(w, first + second);
    var third, v := Launches(u, q, next);
    LeadsOn(w, first + second, u, third, v);
    var last := BothAppear(v, key, next);
    Prepend(w, first + second + third, v, last);
    actions := first + second + third + last;
  }

  // --- An orphaned inspection ----------------------------------------------------------------

  /** A slot can still be launched: the first of a harness, or its second after a reusable first. */
  predicate Launchable(m: Manifest) {
    exists harness | harness in {Omp, Claude} :: LaunchableFor(m, harness)
  }

  predicate LaunchableFor(m: Manifest, harness: Harness) {
    MaySpend(m, Key(harness, CompletedWorkflow)) || MaySpend(m, Key(harness, Cancellation))
  }

  /** The invocation observed `key` gone although the command that launched it is still running. */
  ghost predicate Orphaned(w: World, p: nat, key: SlotKey) {
    && Inv(w) && Exclusive(w) && Alive(w, p)
    && w.procs[p].pc.Inspecting? && w.procs[p].pc.gone == Some(key)
    && key in w.clients
    && key in w.m.slots && w.m.slots[key].state == Interrupted
  }

  /** The slot is reconciled, its worker is loose, and nobody is in the way of another invocation. */
  ghost predicate Abandoned(w: World, key: SlotKey) {
    && Inv(w) && !LockTaken(w) && OutstandingKeys(w.m) == {}
    && w.m.binding.Some? && key in w.m.slots && Loose(w, key)
  }

  const FAILURE := Reconciliation(Some("failed"))

  lemma FailureIsNoSuccess(role: Role)
    ensures FAILURE.terminalStatus != Some(ExpectedStatus(role))
  {
    assert |"failed"| != |ExpectedStatus(role)|;
  }

  lemma FailedManifest(m: Manifest, key: SlotKey)
    requires Valid(m) && key in m.slots && m.slots[key].state == Interrupted
    ensures var outcome := Finalize(m, key, Reconciled, None, Some(FAILURE));
            && outcome.Committed?
            && var n := outcome.manifest;
               && n.binding == m.binding && n.binding.Some? && OutstandingKeys(n) == {} && n.slots.Keys == m.slots.Keys
               && n.evidence == m.evidence
               && forall other | other in m.slots && other != key :: n.slots[other] == m.slots[other]
  {
    FinalizeEffect(m, key, Reconciled, None, Some(FAILURE));
  }

  /** The orphaned slot is settled as a failure and the reconciling invocation goes away. */
  lemma SettlesAndLeaves(w: World, p: nat, key: SlotKey) returns (actions: seq<Action>, v: World)
    requires Orphaned(w, p, key)
    ensures Leads(w, actions, v) && Abandoned(v, key) && v.boots == w.boots
    ensures v.m == Finalize(w.m, key, Reconciled, None, Some(FAILURE)).manifest
  {
    var a := Settle(p, FAILURE, None);
    FailureIsNoSuccess(key.role);
    FailedManifest(w.m, key);
    LeadsOne(w, a);
    StepKeeps(w, a);
    StepKeepsExclusive(w, a);
    var u := Apply(w, a);
    LeadsTo(w, [a], u, Crash(p));
    StepKeeps(u, Crash(p));
    v := Apply(u, Crash(p));
    actions := [a] + [Crash(p)];
    CrashReleases(u, p);
  }

  lemma CrashReleases(w: World, p: nat)
    requires Exclusive(w) && Alive(w, p) && w.procs[p].pc.Inspecting?
    ensures !LockTaken(Apply(w, Crash(p)))
  {
    var v := Apply(w, Crash(p));
    forall q | Alive(v, q) ensures !v.procs[q].pc.Inspecting? {
      assert Alive(w, q) && q != p && v.procs[q] == w.procs[q];
    }
  }

  /** Reconciled as a failure, the slot leaves those launchable that were. */
  lemma FailureLeavesLaunchable(m: Manifest, key: SlotKey, next: SlotKey)
    requires Valid(m) && key in m.slots && m.slots[key].state == Interrupted && MaySpend(m, next)
    ensures MaySpend(Finalize(m, key, Reconciled, None, Some(FAILURE)).manifest, next)
  {
    FailedManifest(m, key);
  }

  /** From an orphaned inspection with a slot left to launch a run leads to two live workers. */
  lemma OrphanLeadsToTwoWorkers(w: World, p: nat, key: SlotKey) returns (actions: seq<Action>)
    requires Orphaned(w, p, key) && Launchable(w.m)
    ensures MakesTwoWorkers(w, actions)
  {
    var harness :| harness in {Omp, Claude} && LaunchableFor(w.m, harness);
    var next := Key(harness, if MaySpend(w.m, Key(harness,
      CompletedWorkflow)) then CompletedWorkflow else Cancellation);
    var first, v := SettlesAndLeaves(w, p, key);
    FailureLeavesLaunchable(w.m, key, next);
    var rest := FreeSlotMakesTwo(v, w.procs[p].owner.machine, key, next);
    Prepend(w, first, v, rest);
    actions := first + rest;
  }

  // --- With nothing left to launch -----------------------------------------------------------

  /** Whoever reconciles has `key` before it, and has counted its worker only if that is gone for good. */
  ghost predicate InspectsOnly(w: World, pc: Pc, key: SlotKey) {
    pc.Inspecting? ==>
      && pc.pending <= {key} && (pc.gone.Some? ==> pc.gone.value == key)
      && (pc.counted ==> key !in w.clients + w.live)
  }

  /** Nobody holds a slot, none can be launched any more, and all workers there can be are of `key`. */
  ghost predicate Barren(w: World, key: SlotKey) {
    && Orderly(w) && w.m.binding.Some? && key in w.m.slots && Frozen(w.m.slots[key].state)
    && (forall other | other in w.m.slots && other != key :: Terminal(w.m.slots[other].state))
    && (forall p | Alive(w, p) :: !HoldsSlot(w.procs[p].pc) && InspectsOnly(w, w.procs[p].pc, key))
    && !Launchable(w.m)
    && w.clients <= {key} && w.live <= {key}
  }

  lemma BarrenRefuses(m: Manifest, i: Invocation)
    requires i.pc.Qualified? && KnownHarness(i) && InTurn(m, i) && !Launchable(m)
    ensures Reserve(m, i.harness, i.pc.role, i.owner).Refused?
  {
    assert !LaunchableFor(m, i.harness);
  }

  /** Only `key` may still change, from interrupted to reconciled as a failure, and that opens no slot. */
  ghost predicate KeyEnds(m: Manifest, n: Manifest, key: SlotKey) {
    || n == m
    || (&& key in m.slots && n.binding == m.binding && n.slots.Keys == m.slots.Keys
        && n.slots == m.slots[key := n.slots[key]] && Frozen(n.slots[key].state) && !Succeeded(n.slots[key], key.role)
        && forall other | other != key :: other in n.evidence <==> other in m.evidence)
  }

  lemma StillNotLaunchable(m: Manifest, n: Manifest, key: SlotKey)
    requires !Launchable(m) && KeyEnds(m, n, key)
    ensures !Launchable(n)
  {
    forall harness | harness in {Omp, Claude} ensures !LaunchableFor(n, harness) {
      assert !LaunchableFor(m, harness);
    }
  }

  /** The step settles `key` as the success that was counted. */
  predicate SettlesSuccess(a: Action, key: SlotKey) {
    a.Settle? && a.reconciliation.terminalStatus == Some(ExpectedStatus(key.role))
  }

  lemma SettleEndsKey(w: World, a: Action, key: SlotKey)
    requires Barren(w, key) && a.Settle? && Enabled(w, a) && !SettlesSuccess(a, key)
    ensures KeyEnds(w.m, Apply(w, a).m, key)
  {
    assert InspectsOnly(w, w.procs[a.p].pc, key);
    var outcome := Finalize(w.m, key, Reconciled, a.record, Some(a.reconciliation));
    if outcome.Committed? {
      SettledWasInterrupted(w.m, key, a.record, a.reconciliation);
      SettledAsFailure(w.m, key, a.record, a.reconciliation);
    }
  }

  lemma SettledAsFailure(m: Manifest, key: SlotKey, record: Option<Record>, reconciliation: Reconciliation)
    requires Finalize(m, key, Reconciled, record, Some(reconciliation)).Committed?
    requires reconciliation.terminalStatus != Some(ExpectedStatus(key.role))
    ensures KeyEnds(m, Finalize(m, key, Reconciled, record, Some(reconciliation)).manifest, key)
  {
  }

  lemma FrozenIsMarked(m: Manifest, host: Host)
    requires forall key | key in m.slots :: Frozen(m.slots[key].state)
    ensures MarkDead(m, host).Committed? ==> MarkDead(m, host).manifest == m
  {
    assert (map key | key in m.slots :: Marked(m.slots[key])) == m.slots;
  }

  lemma BarrenManifest(w: World, a: Action, key: SlotKey)
    requires Barren(w, key) && Enabled(w, a) && !SettlesSuccess(a, key)
    ensures KeyEnds(w.m, Apply(w, a).m, key)
  {
    if OwnerStep(a) {
      assert HoldsSlot(w.procs[a.p].pc);
    } else if a.Settle? {
      SettleEndsKey(w, a, key);
    } else if a.DoMark? {
      FrozenIsMarked(w.m, a.host);
    } else if a.DoReserve? {
      BarrenRefuses(w.m, w.procs[a.p]);
    } else if !a.DoBind? {
      OtherStepsLeaveTheManifest(w, a);
    }
  }

  lemma BarrenHolders(w: World, a: Action, key: SlotKey, p: nat)
    requires Barren(w, key) && Enabled(w, a) && Alive(Apply(w, a), p)
    ensures !HoldsSlot(Apply(w, a).procs[p].pc)
  {
    StepMoves(w, a, p);
    if a.DoReserve? {
      BarrenRefuses(w.m, w.procs[a.p]);
    }
  }

  lemma BarrenWorkers(w: World, a: Action, key: SlotKey)
    requires Barren(w, key) && Enabled(w, a)
    ensures Apply(w, a).clients <= {key} && Apply(w, a).live <= {key}
    ensures key !in w.clients + w.live ==> key !in Apply(w, a).clients + Apply(w, a).live
  {
    if a.Dispatch? {
      assert HoldsSlot(w.procs[a.p].pc);
    }
  }

  lemma OutstandingIsKey(m: Manifest, key: SlotKey)
    requires forall other | other in m.slots && other != key :: Terminal(m.slots[other].state)
    ensures OutstandingKeys(m) <= {key}
  {
  }

  lemma BarrenInspects(w: World, a: Action, key: SlotKey, p: nat)
    requires Barren(w, key) && Enabled(w, a) && Settled(w, a) && Alive(Apply(w, a), p)
    ensures InspectsOnly(Apply(w, a), Apply(w, a).procs[p].pc, key)
  {
    var v := Apply(w, a);
    BarrenWorkers(w, a, key);
    OutstandingIsKey(w.m, key);
    if p in w.procs && v.procs[p] == w.procs[p] {
      assert Alive(w, p) && InspectsOnly(w, w.procs[p].pc, key);
    } else if v.procs[p].pc.Inspecting? {
      InspectionStep(w, a, p);
      assert a.DoMark? || InspectsOnly(w, w.procs[p].pc, key);
    }
  }

  lemma BarrenKept(w: World, a: Action, key: SlotKey)
    requires Inv(w) && Barren(w, key) && Enabled(w, a) && Settled(w, a) && !SettlesSuccess(a, key)
    ensures Barren(Apply(w, a), key)
  {
    var v := Apply(w, a);
    StepKeepsOrder(w, a);
    BarrenManifest(w, a, key);
    StillNotLaunchable(w.m, v.m, key);
    BarrenWorkers(w, a, key);
    forall p | Alive(v, p) ensures !HoldsSlot(v.procs[p].pc) && InspectsOnly(v, v.procs[p].pc, key) {
      BarrenHolders(w, a, key, p);
      BarrenInspects(w, a, key, p);
    }
  }

  /** A success is settled only of a worker that is gone for good, and then all is quiet again. */
  lemma SuccessIsQuiet(w: World, a: Action, key: SlotKey)
    requires Inv(w) && Barren(w, key) && Enabled(w, a) && SettlesSuccess(a, key)
    ensures Quiet(Apply(w, a))
  {
    var v := Apply(w, a);
    assert InspectsOnly(w, w.procs[a.p].pc, key);
    assert v.clients == w.clients && v.live == w.live && w.clients == {} && w.live == {};
    forall p | Alive(v, p) ensures InspectedGone(v, v.procs[p].pc) && !v.procs[p].pc.Ended? {
      BarrenHolders(w, a, key, p);
      if v.procs[p].pc.Inspecting? {
        LockIsTakenFree(w, a, p);
        assert p == a.p;
      }
    }
  }

  lemma {:induction false} BarrenRunKeeps(w: World, actions: seq<Action>, key: SlotKey)
    requires Inv(w) && Barren(w, key) && CanRun(w, actions) && AllSettled(w, actions)
    ensures |After(w, actions).live| <= 1
    decreases |actions|
  {
    if actions == [] {
      SubsetSize(w.live, {key});
    } else {
      var a := actions[0];
      StepKeeps(w, a);
      if SettlesSuccess(a, key) {
        SuccessIsQuiet(w, a, key);
        QuietRunKeeps(Apply(w, a), actions[1..]);
        QuietHasOneWorker(After(w, actions));
      } else {
        BarrenKept(w, a, key);
        BarrenRunKeeps(Apply(w, a), actions[1..], key);
      }
    }
  }

  /** An unsettled inspection, with nothing left to launch. */
  lemma InspectedIsBarren(w: World, p: nat, key: SlotKey)
    requires Inv(w) && Orderly(w) && Contained(w) && Enabled(w, Inspect(p, key)) && key in w.clients
    requires w.procs[p].pc == Inspecting({key}, None, false)
    requires key in w.m.slots && w.m.slots[key].state == Interrupted && !Launchable(w.m)
    ensures Barren(Apply(w, Inspect(p, key)), key)
  {
    var v := Apply(w, Inspect(p, key));
    StepKeepsOrder(w, Inspect(p, key));
    NobodyHoldsAnInterruptedSlot(w, key);
    forall other | other in w.m.slots && other != key ensures Terminal(w.m.slots[other].state) {
      assert !Outstanding(w.m.slots[other].state);
    }
    forall q | Alive(v, q) ensures !HoldsSlot(v.procs[q].pc) && InspectsOnly(v, v.procs[q].pc, key) {
      assert Alive(w, q);
    }
  }

  // --- The exact condition -------------------------------------------------------------------

  /** After this inspection, as long as later ones are settled, at most one worker is ever live. */
  ghost predicate InspectionIsSafe(w: World, p: nat, key: SlotKey)
    requires Enabled(w, Inspect(p, key))
  {
    var v := Apply(w, Inspect(p, key));
    forall actions | CanRun(v, actions) && AllSettled(v, actions) :: |After(v, actions).live| <= 1
  }

  lemma SettledIsSafe(w: World, p: nat, key: SlotKey)
    requires Inv(w) && Quiet(w) && Enabled(w, Inspect(p, key)) && Settled(w, Inspect(p, key))
    ensures InspectionIsSafe(w, p, key)
  {
    var a := Inspect(p, key);
    var v := Apply(w, a);
    StepKeeps(w, a);
    InspectionsKept(w, a);
    EndingsKept(w, a);
    ContainedKept(w, a);
    forall actions | CanRun(v, actions) && AllSettled(v, actions) ensures |After(v, actions).live| <= 1 {
      QuietRunKeeps(v, actions);
      QuietHasOneWorker(After(v, actions));
    }
  }

  lemma BarrenIsSafe(w: World, p: nat, key: SlotKey)
    requires Inv(w) && Orderly(w) && Contained(w) && Enabled(w, Inspect(p, key)) && key in w.clients
    requires w.procs[p].pc == Inspecting({key}, None, false)
    requires key in w.m.slots && w.m.slots[key].state == Interrupted && !Launchable(w.m)
    ensures InspectionIsSafe(w, p, key)
  {
    var v := Apply(w, Inspect(p, key));
    StepKeeps(w, Inspect(p, key));
    InspectedIsBarren(w, p, key);
    forall actions | CanRun(v, actions) && AllSettled(v, actions) ensures |After(v, actions).live| <= 1 {
      BarrenRunKeeps(v, actions, key);
    }
  }

  /**
   An inspection of the pending slot keeps every later run at one live worker exactly when the command
   that launched its worker has ended, or no slot can be launched any more.
   */
  lemma InspectionSafeExactlyWhenSettled(w: World, p: nat, key: SlotKey)
    requires Inv(w) && Orderly(w) && Quiet(w) && Enabled(w, Inspect(p, key))
    requires w.procs[p].pc == Inspecting({key}, None, false) && key in w.m.slots && w.m.slots[key].state == Interrupted
    ensures InspectionIsSafe(w, p, key) <==> Settled(w, Inspect(p, key)) || !Launchable(w.m)
  {
    var a := Inspect(p, key);
    if Settled(w, a) {
      SettledIsSafe(w, p, key);
    } else if !Launchable(w.m) {
      BarrenIsSafe(w, p, key);
    } else {
      var v := Apply(w, a);
      StepKeeps(w, a);
      StepKeepsExclusive(w, a);
      var actions := OrphanLeadsToTwoWorkers(v, p, key);
      NoInspectionIsSettled(v, actions);
      assert CanRun(v, actions) && AllSettled(v, actions) && !(|After(v, actions).live| <= 1);
    }
  }

  // --- The failure, from the start of a campaign ---------------------------------------------

  /** The only slot of the campaign is running, its owner is alive and has issued the launching command. */
  ghost predicate FirstLaunched(w: World, q: nat, key: SlotKey) {
    && Inv(w) && Orderly(w) && Alive(w, q) && w.procs[q].pc.Dispatched? && SlotOf(w.procs[q]) == key
    && w.procs.Keys == {q} && w.m.slots.Keys == {key} && w.m.binding.Some?
    && key in w.clients && w.live == {} && w.created == {}
    && w.procs[q].owner.boot.Some?
  }

  const FIRST := Key(Omp, CompletedWorkflow)

  lemma QualifiesTheFirst(campaignId: string, boots: map<string, Option<string>>, machine: string, binding: Binding)
    returns (actions: seq<Action>, u: World, q: nat, i: Invocation)
    requires machine in boots
    ensures Leads(Initial(campaignId, boots), actions, u) && Inv(u)
    ensures u == Joined(Initial(campaignId, boots), Bind(Fresh(campaignId), binding).manifest, q, i)
    ensures i.alive && i.harness == Omp && i.owner.boot == boots[machine]
    ensures i.pc == Qualified(CompletedWorkflow, SOME_RUN)
  {
    var start := Initial(campaignId, boots);
    var m := Bind(start.m, binding).manifest;
    assert OutstandingKeys(start.m) == {};
    var j, first;
    q, j, first := Arrives(start, Omp, machine, binding);
    var second := Qualifies(start, m, q, j, CompletedWorkflow);
    i := j.(pc := Qualified(CompletedWorkflow, SOME_RUN));
    u := Joined(start, m, q, i);
    LeadsOn(start, first, Joined(start, m, q, j), second, u);
    actions := first + second;
    RunKeeps(start, actions);
  }

  lemma LaunchesTheFirst(campaignId: string, boots: map<string, Option<string>>, machine: string, binding: Binding)
    returns (actions: seq<Action>, w: World, q: nat)
    requires machine in boots && boots[machine].Some?
    ensures Leads(Initial(campaignId, boots), actions, w) && FirstLaunched(w, q, FIRST)
  {
    var start := Initial(campaignId, boots);
    var first, u, i, second;
    first, u, q, i := QualifiesTheFirst(campaignId, boots, machine, binding);
    assert OutstandingKeys(u.m) == {};
    second, w := Launches(u, q, FIRST);
    LeadsOn(start, first, u, second, w);
    actions := first + second;
    EveryRunIsOrderly(campaignId, boots, actions);
  }

  /** The owner dies, and another invocation of its harness comes to inspect the slot. */
  lemma TakesOver(w: World, q: nat, key: SlotKey) returns (actions: seq<Action>, v: World, p: nat)
    requires FirstLaunched(w, q, key)
    ensures Leads(w, actions, v) && Inv(v) && Alive(v, p) && v.procs[p].pc == Inspecting({key}, None, false)
    ensures v.m.slots.Keys == {key} && v.m.slots[key].state == Interrupted && key in v.clients && v.live == {}
  {
    assert OwnsItsSlot(w.m, w.procs[q]);
    var machine := w.procs[q].owner.machine;
    LeadsOne(w, Crash(q));
    StepKeeps(w, Crash(q));
    var u := Apply(w, Crash(q));
    BindKeeps(u.m, u.m.binding.value);
    assert Bind(u.m, u.m.binding.value) == Committed(u.m);
    var i, rest;
    p, i, rest := SpawnsAndBinds(u, w.procs[q].harness, machine, u.m.binding.value);
    LeadsOn(w, [Crash(q)], u, rest, Joined(u, u.m, p, i));
    var a;
    v, a := Marks(u, q, key, p, i);
    LeadsTo(w, [Crash(q)] + rest, Joined(u, u.m, p, i), a);
    actions := [Crash(q)] + rest + [a];
    RunKeeps(w, actions);
  }

  lemma MarksTheOnlySlot(m: Manifest, key: SlotKey, host: Host)
    requires Valid(m) && m.slots.Keys == {key} && m.slots[key].state == Running && ProvedDead(m.slots[key], host)
    ensures MarkDead(m, host).Committed? && OutstandingKeys(m) == {key}
    ensures var n := MarkDead(m, host).manifest; n.slots.Keys == {key} && n.slots[key].state == Interrupted
  {
    MarkDeadExactly(m, host);
    OutstandingAlone(m, key);
    assert forall k | k in m.slots :: k == key;
    MarkDeadKeeps(m, host);
  }

  lemma OwnerIsSeenDead(u: World, q: nat, slot: Slot, p: nat, i: Invocation)
    requires u.procs.Keys == {q} && !u.procs[q].alive && slot.owner == u.procs[q].owner
    requires IsFresh(u, p, i) && i.owner.machine == u.procs[q].owner.machine
    requires i.owner.boot.Some? && u.procs[q].owner.boot.Some?
    ensures ProvedDead(slot, HostOf(Joined(u, u.m, p, i), i.owner.machine))
  {
    var joined := Joined(u, u.m, p, i);
    forall r | r in joined.procs && joined.procs[r].alive ensures joined.procs[r].owner.pid != slot.owner.pid {
      assert r != p ==> r in u.procs.Keys;
    }
    assert slot.owner.pid !in LivePids(joined);
  }

  lemma Marks(u: World, q: nat, key: SlotKey, p: nat, i: Invocation) returns (v: World, a: Action)
    requires Valid(u.m) && u.m.slots.Keys == {key} && u.m.slots[key].state == Running
    requires u.procs.Keys == {q} && !u.procs[q].alive && u.m.slots[key].owner == u.procs[q].owner
    requires IsFresh(u, p, i) && i.pc == Reconciling && i.owner.machine == u.procs[q].owner.machine
    requires i.owner.boot.Some? && u.procs[q].owner.boot.Some?
    ensures Enabled(Joined(u, u.m, p, i), a) && a.DoMark? && v == Apply(Joined(u, u.m, p, i), a)
    ensures Alive(v, p) && v.procs[p].pc == Inspecting({key}, None, false)
    ensures v.m.slots.Keys == {key} && v.m.slots[key].state == Interrupted && v.clients == u.clients && v.live == u.live
  {
    var joined := Joined(u, u.m, p, i);
    HostIsSeen(joined, p);
    OwnerIsSeenDead(u, q, u.m.slots[key], p, i);
    var host := HostOf(joined, i.owner.machine);
    MarksTheOnlySlot(u.m, key, host);
    NobodyInspects(joined, q, p);
    a := DoMark(p, host);
    v := Apply(joined, a);
  }

  lemma NobodyInspects(w: World, q: nat, p: nat)
    requires w.procs.Keys == {q, p} && !w.procs[q].alive && !w.procs[p].pc.Inspecting?
    ensures !LockTaken(w)
  {
    forall r | Alive(w, r) ensures !w.procs[r].pc.Inspecting? {
      assert r in w.procs.Keys;
    }
  }

  /** The inspection finds no container, and the run goes on to two workers. */
  lemma InspectsTooEarly(v: World, p: nat) returns (actions: seq<Action>)
    requires Inv(v) && Exclusive(v) && Alive(v, p) && v.procs[p].pc == Inspecting({FIRST}, None, false)
    requires v.m.slots.Keys == {FIRST} && v.m.slots[FIRST].state == Interrupted && FIRST in v.clients && v.live == {}
    ensures CanRun(v, actions) && |After(v, actions).live| >= 2
  {
    var a := Inspect(p, FIRST);
    StepKeeps(v, a);
    StepKeepsExclusive(v, a);
    var u := Apply(v, a);
    assert LaunchableFor(u.m, Claude);
    var rest := OrphanLeadsToTwoWorkers(u, p, FIRST);
    assert ([a] + rest)[1..] == rest;
    actions := [a] + rest;
  }

  /**
   One live worker is false: from the start of a campaign, on one machine, an owner that dies after
   its dispatch and a recovery by its own harness lead to two live workers.
   */
  lemma CrashedOwnerLeavesTwoWorkers(
    campaignId: string, boots: map<string, Option<string>>, machine: string,
    binding: Binding)
    returns (actions: seq<Action>)
    requires machine in boots && boots[machine].Some?
    ensures CanRun(Initial(campaignId, boots), actions) && |After(Initial(campaignId, boots), actions).live| >= 2
  {
    var start := Initial(campaignId, boots);
    var first, w, q := LaunchesTheFirst(campaignId, boots, machine, binding);
    var second, v, p := TakesOver(w, q, FIRST);
    LeadsOn(start, first, w, second, v);
    RunKeepsOrder(Initial(campaignId, boots), first + second);
    var rest := InspectsTooEarly(v, p);
    RunsCompose(start, first + second, rest);
    actions := first + second + rest;
  }
}
