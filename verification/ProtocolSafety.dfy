/**
 Safety of whole runs of the campaign protocol: what holds after any interleaving of invocations,
 crashes, reboots, reconciliations and container-engine steps.
 */
module ProtocolSafety {
  import opened Common
  import opened Campaign
  import opened Protocol

  // --- Runs ----------------------------------------------------------------------------------

  ghost predicate CanRun(w: World, actions: seq<Action>)
    decreases |actions|
  {
    actions == [] || (Enabled(w, actions[0]) && CanRun(Apply(w, actions[0]), actions[1..]))
  }

  ghost function After(w: World, actions: seq<Action>): World
    requires CanRun(w, actions)
    decreases |actions|
  {
    if actions == [] then w else After(Apply(w, actions[0]), actions[1..])
  }

  lemma {:induction false} RunKeeps(w: World, actions: seq<Action>)
    requires Inv(w) && CanRun(w, actions)
    ensures Inv(After(w, actions))
    decreases |actions|
  {
    if actions != [] {
      StepKeeps(w, actions[0]);
      RunKeeps(Apply(w, actions[0]), actions[1..]);
    }
  }

  // --- At most one launch per slot, at most four in all --------------------------------------

  lemma {:induction false} DistinctKeysAreFew(launches: seq<Launch>, keys: set<SlotKey>)
    requires Once(launches)
    requires forall i | 0 <= i < |launches| :: launches[i].key in keys
    ensures |launches| <= |keys|
  {
    if launches != [] {
      var last := |launches| - 1;
      DistinctKeysAreFew(launches[..last], keys - {launches[last].key});
    }
  }

  /**
   After any run: no slot was launched twice, there were at most four launches, and the manifest
   shows for each of them the reservation, the running state and the run and operation ids.
   */
  lemma LaunchesAreBounded(campaignId: string, boots: map<string, Option<string>>, actions: seq<Action>)
    requires CanRun(Initial(campaignId, boots), actions)
    ensures var w := After(Initial(campaignId, boots), actions);
            && Once(w.launches)
            && |w.launches| <= 4
            && (forall i | 0 <= i < |w.launches| ::
                  && w.launches[i].key in SLOTS
                  && Names(w.m, w.launches[i].key, w.launches[i].id)
                  && [Reserved, Running] <= w.m.slots[w.launches[i].key].history)
  {
    RunKeeps(Initial(campaignId, boots), actions);
    var w := After(Initial(campaignId, boots), actions);
    forall i | 0 <= i < |w.launches| ensures w.launches[i].key in SLOTS {
      assert Names(w.m, w.launches[i].key, w.launches[i].id);
    }
    DistinctKeysAreFew(w.launches, SLOTS);
  }

  /** After any run at most one slot is reserved, running or interrupted, and workers are launched ones. */
  lemma OneOutstandingSlot(campaignId: string, boots: map<string, Option<string>>, actions: seq<Action>)
    requires CanRun(Initial(campaignId, boots), actions)
    ensures var w := After(Initial(campaignId, boots), actions);
            && |OutstandingKeys(w.m)| <= 1
            && (forall key | key in w.created :: Launched(w.launches, key))
  {
    RunKeeps(Initial(campaignId, boots), actions);
    var m := After(Initial(campaignId, boots), actions).m;
    if key :| key in OutstandingKeys(m) {
      OutstandingAlone(m, key);
    }
  }

  // --- A live owner is never robbed of its slot ----------------------------------------------

  /** Where a transaction that commits leaves its invocation. */
  function WhenCommitted(a: Action, pc: Pc): Pc
    requires (a.Begin? || a.Identify? || a.Note? || a.ObserveEnd? || a.DoFinalize?) && HoldsSlot(pc) && !pc.Unwinding?
  {
    match a
    case Begin(_) => Began(pc.role, pc.id)
    case Identify(_) => Identified(pc.role, pc.id)
    case ObserveEnd(_, _) => Ended(pc.role, pc.id)
    case DoFinalize(_, _) => NextRole(pc.role)
    case _ => pc
  }

  /** No transaction of a live owner on its own slot is ever refused. */
  lemma LiveOwnerIsNeverRefused(w: World, a: Action)
    requires Inv(w) && Enabled(w, a)
    requires a.Begin? || a.Identify? || a.Note? || a.ObserveEnd? || a.DoFinalize?
    ensures Apply(w, a).procs[a.p].pc == WhenCommitted(a, w.procs[a.p].pc)
  {
    if a.Begin? {
      OwnerBegins(w, a.p);
    } else if a.DoFinalize? {
      OwnerFinalizes(w, a.p, a.retained);
    } else {
      OwnerNotes(w, a);
    }
  }

  lemma OwnerNotes(w: World, a: Action)
    requires Inv(w) && Enabled(w, a) && (a.Identify? || a.Note? || a.ObserveEnd?)
    ensures Apply(w, a).procs[a.p].pc == WhenCommitted(a, w.procs[a.p].pc)
  {
    var pc := w.procs[a.p].pc;
    OwnerMayAnnotate(
      w, a.p, if a.Identify? then map[RunId := pc.id.run, OperationId := pc.id.operation] else a.observations);
  }

  lemma OwnerBegins(w: World, p: nat)
    requires Inv(w) && Alive(w, p) && w.procs[p].pc.Holding?
    ensures Transition(w.m, SlotOf(w.procs[p]), Running).Committed?
  {
    assert OwnsItsSlot(w.m, w.procs[p]);
  }

  lemma OwnerMayAnnotate(w: World, p: nat, observations: map<Field, string>)
    requires Inv(w) && Alive(w, p) && HoldsSlot(w.procs[p].pc)
    requires forall field | field in observations :: !Protected(field)
    ensures Annotate(w.m, SlotOf(w.procs[p]), observations).Committed?
  {
    assert OwnsItsSlot(w.m, w.procs[p]);
  }

  lemma OwnerFinalizes(w: World, p: nat, retained: Record)
    requires Inv(w) && Alive(w, p) && w.procs[p].pc.Ended?
    ensures Finalize(w.m, SlotOf(w.procs[p]), ExpectedState(w.procs[p].pc.role), Some(retained), None).Committed?
  {
    var i := w.procs[p];
    assert OwnsItsSlot(w.m, i);
    FinalizeEffect(w.m, SlotOf(i), ExpectedState(i.pc.role), Some(retained), None);
  }

  // --- At most one live worker ---------------------------------------------------------------

  /** The slot is past its owner's reach: interrupted, or ended. */
  predicate Frozen(state: SlotState) {
    state.Interrupted? || Terminal(state)
  }

  lemma {:induction false} FrozenStays(history: seq<SlotState>, n: nat, k: nat)
    requires IsPath(history) && n <= k < |history| && Frozen(history[n])
    ensures Frozen(history[k])
  {
    if n < k {
      FrozenStays(history, n, k - 1);
      assert history[k] in Transitions(history[k - 1]);
    }
  }

  lemma FrozenExtends(m: Manifest, n: Manifest, key: SlotKey)
    requires Valid(m) && Valid(n) && Extends(m, n)
    requires key in m.slots && Frozen(m.slots[key].state)
    ensures key in n.slots && Frozen(n.slots[key].state)
  {
    var s, t := m.slots[key], n.slots[key];
    assert SlotExtends(s, t) && ValidSlot(t);
    FrozenStays(t.history, |s.history| - 1, |t.history| - 1);
  }

  lemma Reflexive(m: Manifest)
    ensures Extends(m, m)
  {
    assert forall key | key in m.slots :: SlotExtends(m.slots[key], m.slots[key]);
  }

  lemma OwnerStepExtends(w: World, a: Action)
    requires Inv(w) && Enabled(w, a) && OwnerStep(a) && !a.DoFinalize?
    ensures Extends(w.m, Apply(w, a).m)
  {
    var key := SlotOf(w.procs[a.p]);
    Reflexive(w.m);
    match a {
      case Begin(p) => TransitionKeeps(w.m, key, Running);
      case Identify(p) =>
        AnnotateKeeps(w.m, key, map[RunId := w.procs[p].pc.id.run, OperationId := w.procs[p].pc.id.operation]);
      case Note(p, observations) => AnnotateKeeps(w.m, key, observations);
      case ObserveEnd(p, observations) => AnnotateKeeps(w.m, key, observations);
      case Unwind(p) => TransitionKeeps(w.m, key, Interrupted);
    }
  }

  lemma FinalizeStepExtends(w: World, a: Action)
    requires Inv(w) && Enabled(w, a) && (a.DoFinalize? || a.Settle?)
    ensures Extends(w.m, Apply(w, a).m)
  {
    Reflexive(w.m);
    if a.DoFinalize? {
      FinalizeKeeps(w.m, SlotOf(w.procs[a.p]), ExpectedState(w.procs[a.p].pc.role), Some(a.retained), None);
    } else {
      FinalizeKeeps(w.m, w.procs[a.p].pc.gone.value, Reconciled, a.record, Some(a.reconciliation));
    }
  }

  lemma CampaignStepExtends(w: World, a: Action)
    requires Inv(w) && Enabled(w, a) && CampaignStep(a) && !a.Settle?
    ensures Extends(w.m, Apply(w, a).m)
  {
    Reflexive(w.m);
    match a {
      case DoBind(_, binding) => BindKeeps(w.m, binding);
      case DoMark(_, host) => MarkDeadKeeps(w.m, host);
      case DoReserve(p) => ReserveKeeps(w.m, w.procs[p].harness, w.procs[p].pc.role, w.procs[p].owner);
    }
  }

  lemma OtherStepsLeaveTheManifest(w: World, a: Action)
    requires Enabled(w, a) && !OwnerStep(a) && !CampaignStep(a)
    ensures Apply(w, a).m == w.m
  {
  }

  lemma ManifestOnlyExtends(w: World, a: Action)
    requires Inv(w) && Enabled(w, a)
    ensures Extends(w.m, Apply(w, a).m)
  {
    if a.DoFinalize? || a.Settle? {
      FinalizeStepExtends(w, a);
    } else if OwnerStep(a) {
      OwnerStepExtends(w, a);
    } else if CampaignStep(a) {
      CampaignStepExtends(w, a);
    } else {
      OtherStepsLeaveTheManifest(w, a);
      Reflexive(w.m);
    }
  }

  /** Evidence, the binding, owners and histories only ever grow along a run. */
  lemma {:induction false} RunOnlyExtends(w: World, actions: seq<Action>)
    requires Inv(w) && CanRun(w, actions)
    ensures Extends(w.m, After(w, actions).m)
    decreases |actions|
  {
    if actions != [] {
      var v := Apply(w, actions[0]);
      StepKeeps(w, actions[0]);
      ManifestOnlyExtends(w, actions[0]);
      RunOnlyExtends(v, actions[1..]);
      ExtendsTrans(w.m, v.m, After(w, actions).m);
    }
  }

  /** A slot under inspection stays frozen, and one observed gone has no worker and no client. */
  ghost predicate InspectedGone(w: World, pc: Pc) {
    pc.Inspecting? ==>
      && (forall key | key in pc.pending :: key in w.m.slots && Frozen(w.m.slots[key].state))
      && (pc.gone.Some? ==> pc.gone.value in pc.pending && pc.gone.value !in w.clients + w.live)
  }

  ghost predicate Inspections(w: World) {
    forall p | Alive(w, p) :: InspectedGone(w, w.procs[p].pc)
  }

  ghost predicate Endings(w: World) {
    forall p | Alive(w, p) && w.procs[p].pc.Ended? ::
      SlotOf(w.procs[p]) in w.created && SlotOf(w.procs[p]) !in w.live
  }

  /** Every worker, and every command that may still create one, belongs to the outstanding slot. */
  ghost predicate Contained(w: World) {
    forall key | key in w.clients || key in w.live :: key in w.m.slots && Outstanding(w.m.slots[key].state)
  }

  ghost predicate Quiet(w: World) {
    Inspections(w) && Endings(w) && Contained(w)
  }

  /**
   The inspection looks at a slot whose launching command is over.  The source does not check this:
   it only looks for the container and the worker's process group.
   */
  predicate Settled(w: World, a: Action) {
    a.Inspect? ==> a.key !in w.clients
  }

  lemma MarkedAreFrozen(m: Manifest, host: Host)
    requires Valid(m) && MarkDead(m, host).Committed?
    ensures var n := MarkDead(m, host).manifest;
            forall key | key in OutstandingKeys(m) :: key in n.slots && Frozen(n.slots[key].state)
  {
    MarkDeadKeeps(m, host);
  }

  lemma InspectionsKept(w: World, a: Action)
    requires Inv(w) && Quiet(w) && Enabled(w, a) && Settled(w, a)
    ensures Inspections(Apply(w, a))
  {
    var v := Apply(w, a);
    forall p | Alive(v, p) ensures InspectedGone(v, v.procs[p].pc) {
      if p in w.procs && v.procs[p] == w.procs[p] {
        SameInspectionKept(w, a, p);
      } else if v.procs[p].pc.Inspecting? {
        InspectionStep(w, a, p);
        ChangedInspection(w, a, p);
      }
    }
  }

  /** An invocation comes to inspect by marking the dead, and goes on by inspecting and settling. */
  lemma InspectionStep(w: World, a: Action, p: nat)
    requires Enabled(w, a) && Alive(Apply(w, a), p) && !(p in w.procs && w.procs[p] == Apply(w, a).procs[p])
    requires Apply(w, a).procs[p].pc.Inspecting?
    ensures (a.DoMark? || a.Inspect? || a.Settle?) && p == a.p
  {
    if OwnerStep(a) {
      OwnersDoNotInspect(w, a, p);
    } else if !CampaignStep(a) {
      OnlyInspectingInspects(w, a, p);
    }
  }

  lemma OwnersDoNotInspect(w: World, a: Action, p: nat)
    requires Enabled(w, a) && OwnerStep(a) && Alive(Apply(w, a), p) && Apply(w, a).procs[p].pc.Inspecting?
    ensures p in w.procs && w.procs[p] == Apply(w, a).procs[p]
  {
  }

  lemma OnlyInspectingInspects(w: World, a: Action, p: nat)
    requires Enabled(w, a) && !OwnerStep(a) && !CampaignStep(a)
    requires Alive(Apply(w, a), p) && Apply(w, a).procs[p].pc.Inspecting?
    ensures (p in w.procs && w.procs[p] == Apply(w, a).procs[p]) || (a.Inspect? && p == a.p)
  {
  }

  lemma PendingStaysFrozen(w: World, a: Action, pending: set<SlotKey>)
    requires Inv(w) && Enabled(w, a)
    requires forall key | key in pending :: key in w.m.slots && Frozen(w.m.slots[key].state)
    ensures var v := Apply(w, a); forall key | key in pending :: key in v.m.slots && Frozen(v.m.slots[key].state)
  {
    var v := Apply(w, a);
    StepKeeps(w, a);
    ManifestOnlyExtends(w, a);
    forall key | key in pending ensures key in v.m.slots && Frozen(v.m.slots[key].state) {
      FrozenExtends(w.m, v.m, key);
    }
  }

  /** Only a live owner's dispatch makes a command that can create a worker. */
  lemma GoneStaysGone(w: World, a: Action, key: SlotKey)
    requires Owned(w) && Enabled(w, a)
    requires key in w.m.slots && Frozen(w.m.slots[key].state) && key !in w.clients + w.live
    ensures key !in Apply(w, a).clients + Apply(w, a).live
  {
    if a.Dispatch? {
      assert OwnsItsSlot(w.m, w.procs[a.p]);
    }
  }

  lemma SameInspectionKept(w: World, a: Action, p: nat)
    requires Inv(w) && Quiet(w) && Enabled(w, a) && Alive(w, p)
    requires p in Apply(w, a).procs && Apply(w, a).procs[p] == w.procs[p]
    ensures InspectedGone(Apply(w, a), w.procs[p].pc)
  {
    var pc := w.procs[p].pc;
    assert InspectedGone(w, pc);
    if pc.Inspecting? {
      PendingStaysFrozen(w, a, pc.pending);
      if pc.gone.Some? {
        GoneStaysGone(w, a, pc.gone.value);
      }
    }
  }

  lemma NewInspection(w: World, a: Action)
    requires Inv(w) && a.DoMark? && Enabled(w, a)
    ensures InspectedGone(Apply(w, a), Apply(w, a).procs[a.p].pc)
  {
    if !LockTaken(w) && MarkDead(w.m, a.host).Committed? {
      MarkedAreFrozen(w.m, a.host);
    }
  }

  lemma ChangedInspection(w: World, a: Action, p: nat)
    requires Inv(w) && Quiet(w) && Enabled(w, a) && Settled(w, a)
    requires (a.DoMark? || a.Inspect? || a.Settle?) && p == a.p
    ensures InspectedGone(Apply(w, a), Apply(w, a).procs[p].pc)
  {
    if a.DoMark? {
      NewInspection(w, a);
    } else {
      assert InspectedGone(w, w.procs[p].pc);
      PendingStaysFrozen(w, a, w.procs[p].pc.pending);
    }
  }

  lemma EndingsKept(w: World, a: Action)
    requires Inv(w) && Endings(w) && Enabled(w, a)
    ensures Endings(Apply(w, a))
  {
    var v := Apply(w, a);
    forall p | Alive(v, p) && v.procs[p].pc.Ended?
      ensures SlotOf(v.procs[p]) in v.created && SlotOf(v.procs[p]) !in v.live
    {
      EndedBefore(w, a, p);
      GoneWorkerStaysGone(w, a, SlotOf(v.procs[p]));
    }
  }

  /** An invocation past the end of its worker was there before, or has just observed that end. */
  lemma EndedBefore(w: World, a: Action, p: nat)
    requires Endings(w) && Enabled(w, a)
    requires Alive(Apply(w, a), p) && Apply(w, a).procs[p].pc.Ended?
    ensures SlotOf(Apply(w, a).procs[p]) in w.created && SlotOf(Apply(w, a).procs[p]) !in w.live
  {
    if a.ObserveEnd? && p == a.p {
      assert SlotOf(Apply(w, a).procs[p]) == SlotOf(w.procs[p]);
    } else if OwnerStep(a) || CampaignStep(a) {
      EndedStays(w, a, p);
    } else {
      EndedStaysOtherwise(w, a, p);
    }
  }

  lemma EndedStays(w: World, a: Action, p: nat)
    requires Enabled(w, a) && (OwnerStep(a) || CampaignStep(a)) && !(a.ObserveEnd? && p == a.p)
    requires Alive(Apply(w, a), p) && Apply(w, a).procs[p].pc.Ended?
    ensures Alive(w, p) && Apply(w, a).procs[p] == w.procs[p]
  {
    if OwnerStep(a) {
      EndedStaysByOwner(w, a, p);
    } else {
      EndedStaysByCampaign(w, a, p);
    }
  }

  lemma EndedStaysByOwner(w: World, a: Action, p: nat)
    requires Enabled(w, a) && OwnerStep(a) && !(a.ObserveEnd? && p == a.p)
    requires Alive(Apply(w, a), p) && Apply(w, a).procs[p].pc.Ended?
    ensures Alive(w, p) && Apply(w, a).procs[p] == w.procs[p]
  {
  }

  lemma EndedStaysByCampaign(w: World, a: Action, p: nat)
    requires Enabled(w, a) && CampaignStep(a)
    requires Alive(Apply(w, a), p) && Apply(w, a).procs[p].pc.Ended?
    ensures Alive(w, p) && Apply(w, a).procs[p] == w.procs[p]
  {
  }

  lemma EndedStaysOtherwise(w: World, a: Action, p: nat)
    requires Enabled(w, a) && !OwnerStep(a) && !CampaignStep(a)
    requires Alive(Apply(w, a), p) && Apply(w, a).procs[p].pc.Ended?
    ensures Alive(w, p) && Apply(w, a).procs[p] == w.procs[p]
  {
  }

  lemma GoneWorkerStaysGone(w: World, a: Action, key: SlotKey)
    requires WorkersLaunched(w) && Enabled(w, a) && key in w.created && key !in w.live
    ensures key in Apply(w, a).created && key !in Apply(w, a).live
  {
  }

  /** Slots that stop being outstanding had no worker and no client left. */
  lemma ContainedKept(w: World, a: Action)
    requires Inv(w) && Quiet(w) && Enabled(w, a)
    ensures Contained(Apply(w, a))
  {
    var v := Apply(w, a);
    forall key | key in v.clients || key in v.live
      ensures key in v.m.slots && Outstanding(v.m.slots[key].state)
    {
      WorkerBelongs(w, a, key);
      WorkerStaysContained(w, a, key);
    }
  }

  lemma WorkerBelongs(w: World, a: Action, key: SlotKey)
    requires Owned(w) && Contained(w) && Enabled(w, a)
    requires key in Apply(w, a).clients || key in Apply(w, a).live
    ensures key in w.m.slots && Outstanding(w.m.slots[key].state)
  {
    if a.Dispatch? {
      assert OwnsItsSlot(w.m, w.procs[a.p]);
    }
  }

  lemma WorkerStaysContained(w: World, a: Action, key: SlotKey)
    requires Inv(w) && Quiet(w) && Enabled(w, a)
    requires key in w.m.slots && Outstanding(w.m.slots[key].state)
    requires key in Apply(w, a).clients || key in Apply(w, a).live
    ensures key in Apply(w, a).m.slots && Outstanding(Apply(w, a).m.slots[key].state)
  {
    if a.Settle? {
      SettleLeavesOthers(w, a, key);
    } else if a.DoFinalize? {
      FinalizeLeavesOthers(w, a, key);
    } else {
      OutstandingStays(w, a, key);
    }
  }

  lemma SettleLeavesOthers(w: World, a: Action, key: SlotKey)
    requires Inspections(w) && a.Settle? && Enabled(w, a)
    requires key in w.m.slots && (key in w.clients || key in w.live)
    ensures key in Apply(w, a).m.slots && Apply(w, a).m.slots[key] == w.m.slots[key]
  {
    assert InspectedGone(w, w.procs[a.p].pc);
  }

  lemma FinalizeLeavesOthers(w: World, a: Action, key: SlotKey)
    requires Endings(w) && WorkersLaunched(w) && a.DoFinalize? && Enabled(w, a)
    requires key in w.m.slots && (key in w.clients || key in w.live)
    ensures key in Apply(w, a).m.slots && Apply(w, a).m.slots[key] == w.m.slots[key]
  {
  }

  lemma OutstandingStays(w: World, a: Action, key: SlotKey)
    requires Enabled(w, a) && !a.Settle? && !a.DoFinalize?
    requires key in w.m.slots && Outstanding(w.m.slots[key].state)
    ensures key in Apply(w, a).m.slots && Outstanding(Apply(w, a).m.slots[key].state)
  {
    if !OwnerStep(a) && !CampaignStep(a) {
      OtherStepsLeaveTheManifest(w, a);
    } else if a.DoMark? {
      if MarkDead(w.m, a.host).Committed? {
        MarkedStaysOutstanding(w.m, a.host, key);
      }
    }
  }

  lemma MarkedStaysOutstanding(m: Manifest, host: Host, key: SlotKey)
    requires key in m.slots && Outstanding(m.slots[key].state) && MarkDead(m, host).Committed?
    ensures key in MarkDead(m, host).manifest.slots && Outstanding(MarkDead(m, host).manifest.slots[key].state)
  {
  }

  lemma {:induction false} QuietRunKeeps(w: World, actions: seq<Action>)
    requires Inv(w) && Quiet(w) && CanRun(w, actions) && AllSettled(w, actions)
    ensures Inv(After(w, actions)) && Quiet(After(w, actions))
    decreases |actions|
  {
    if actions != [] {
      var a := actions[0];
      StepKeeps(w, a);
      InspectionsKept(w, a);
      EndingsKept(w, a);
      ContainedKept(w, a);
      QuietRunKeeps(Apply(w, a), actions[1..]);
    }
  }

  ghost predicate AllSettled(w: World, actions: seq<Action>)
    requires CanRun(w, actions)
    decreases |actions|
  {
    actions == [] || (Settled(w, actions[0]) && AllSettled(Apply(w, actions[0]), actions[1..]))
  }

  lemma QuietHasOneWorker(w: World)
    requires Inv(w) && Quiet(w)
    ensures |w.live| <= 1
  {
    if key :| key in w.live {
      OutstandingAlone(w.m, key);
      forall other | other in w.live ensures other in {key} {
        assert other in OutstandingKeys(w.m);
      }
      assert w.live == {key};
    }
  }

  /** In every run that inspects only settled slots, at most one worker container is live. */
  lemma OneLiveWorker(campaignId: string, boots: map<string, Option<string>>, actions: seq<Action>)
    requires CanRun(Initial(campaignId, boots), actions) && AllSettled(Initial(campaignId, boots), actions)
    ensures |After(Initial(campaignId, boots), actions).live| <= 1
  {
    QuietRunKeeps(Initial(campaignId, boots), actions);
    QuietHasOneWorker(After(Initial(campaignId, boots), actions));
  }
}
