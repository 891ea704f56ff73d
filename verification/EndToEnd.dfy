/**
 What a verified campaign says about the workers: the campaign protocol, the recovery of interrupted
 slots and the final verification put together.
 */
module EndToEnd {
  import opened Common
  import opened Campaign
  import opened Protocol
  import opened ProtocolSafety
  import CampaignStore
  import Recovery

  /** A slot that ended in its expected success had its worker created. */
  ghost predicate SuccessesWorked(w: World) {
    forall key | key in w.m.slots && Succeeded(w.m.slots[key], key.role) :: key in w.created
  }

  /** What an inspection counted was created. */
  ghost predicate CountsAreReal(w: World) {
    forall p | Alive(w, p) && w.procs[p].pc.Inspecting? && w.procs[p].pc.counted ::
      w.procs[p].pc.gone.Some? && w.procs[p].pc.gone.value in w.created
  }

  ghost predicate Worked(w: World) {
    Endings(w) && CountsAreReal(w) && SuccessesWorked(w)
  }

  lemma StepKeepsCounts(w: World, a: Action)
    requires CountsAreReal(w) && Enabled(w, a)
    ensures CountsAreReal(Apply(w, a))
  {
    var v := Apply(w, a);
    CreatedStays(w, a);
    forall p | Alive(v, p) && v.procs[p].pc.Inspecting? && v.procs[p].pc.counted
      ensures v.procs[p].pc.gone.Some? && v.procs[p].pc.gone.value in v.created
    {
      if p in w.procs && v.procs[p] == w.procs[p] {
        assert Alive(w, p);
      } else {
        InspectionStep(w, a, p);
      }
    }
  }

  lemma FinalizedSuccess(m: Manifest, key: SlotKey, state: SlotState, record: Option<Record>,
                         reconciliation: Option<Reconciliation>, other: SlotKey)
    requires Finalize(m, key, state, record, reconciliation).Committed?
    ensures var n := Finalize(m, key, state, record, reconciliation).manifest;
            && n.slots.Keys == m.slots.Keys
            && (other in m.slots && other != key ==> n.slots[other] == m.slots[other])
  {
  }

  lemma MarkedFails(slot: Slot, role: Role)
    ensures Succeeded(Marked(slot), role) ==> Succeeded(slot, role)
  {
  }

  /** A slot turns into a success only by being finalized or settled. */
  lemma SuccessComesFromAnEnding(w: World, a: Action, key: SlotKey)
    requires Enabled(w, a) && !a.DoFinalize? && !a.Settle?
    requires key in Apply(w, a).m.slots && Succeeded(Apply(w, a).m.slots[key], key.role)
    ensures key in w.m.slots && Succeeded(w.m.slots[key], key.role)
  {
    if a.DoMark? {
      if key in w.m.slots {
        MarkedFails(w.m.slots[key], key.role);
      }
    } else if !OwnerStep(a) && !CampaignStep(a) {
      OtherStepsLeaveTheManifest(w, a);
    }
  }

  lemma SettledSuccess(w: World, a: Action, key: SlotKey)
    requires SuccessesWorked(w) && CountsAreReal(w) && a.Settle? && Enabled(w, a)
    requires key in Apply(w, a).m.slots && Succeeded(Apply(w, a).m.slots[key], key.role)
    ensures key in w.created
  {
    var gone := w.procs[a.p].pc.gone.value;
    if Finalize(w.m, gone, Reconciled, a.record, Some(a.reconciliation)).Committed? {
      FinalizedSuccess(w.m, gone, Reconciled, a.record, Some(a.reconciliation), key);
    }
  }

  lemma FinalizedWorked(w: World, a: Action, key: SlotKey)
    requires SuccessesWorked(w) && Endings(w) && a.DoFinalize? && Enabled(w, a)
    requires key in Apply(w, a).m.slots && Succeeded(Apply(w, a).m.slots[key], key.role)
    ensures key in w.created
  {
    var i := w.procs[a.p];
    if Finalize(w.m, SlotOf(i), ExpectedState(i.pc.role), Some(a.retained), None).Committed? {
      FinalizedSuccess(w.m, SlotOf(i), ExpectedState(i.pc.role), Some(a.retained), None, key);
    }
  }

  lemma CreatedStays(w: World, a: Action)
    requires Enabled(w, a)
    ensures w.created <= Apply(w, a).created
  {
  }

  lemma StepKeepsWorked(w: World, a: Action)
    requires Inv(w) && Worked(w) && Enabled(w, a)
    ensures SuccessesWorked(Apply(w, a))
  {
    var v := Apply(w, a);
    CreatedStays(w, a);
    forall key | key in v.m.slots && Succeeded(v.m.slots[key], key.role) ensures key in v.created {
      if a.Settle? {
        SettledSuccess(w, a, key);
      } else if a.DoFinalize? {
        FinalizedWorked(w, a, key);
      } else {
        SuccessComesFromAnEnding(w, a, key);
      }
    }
  }

  lemma {:induction false} RunKeepsWorked(w: World, actions: seq<Action>)
    requires Inv(w) && Worked(w) && CanRun(w, actions)
    ensures Inv(After(w, actions)) && Worked(After(w, actions))
    decreases |actions|
  {
    if actions != [] {
      StepKeeps(w, actions[0]);
      EndingsKept(w, actions[0]);
      StepKeepsCounts(w, actions[0]);
      StepKeepsWorked(w, actions[0]);
      RunKeepsWorked(Apply(w, actions[0]), actions[1..]);
    }
  }

  function LaunchedKeys(launches: seq<Launch>): set<SlotKey> {
    set i | 0 <= i < |launches| :: launches[i].key
  }

  lemma {:induction false} DistinctLaunches(launches: seq<Launch>)
    requires Once(launches)
    ensures |LaunchedKeys(launches)| == |launches|
  {
    if launches != [] {
      var before, last := launches[..|launches| - 1], launches[|launches| - 1];
      DistinctLaunches(before);
      assert forall i | 0 <= i < |before| :: before[i] == launches[i];
      assert last.key !in LaunchedKeys(before);
      assert LaunchedKeys(launches) == LaunchedKeys(before) + {last.key};
    }
  }

  lemma VerifiedSlotWorked(w: World, bound: Manifest, files: Files, key: SlotKey)
    requires WorkersLaunched(w) && SuccessesWorked(w)
    requires bound.slots == w.m.slots && CampaignStore.SlotVerified(bound, files, key)
    ensures key in w.created && Launched(w.launches, key) && key in w.m.slots && !Outstanding(w.m.slots[key].state)
  {
  }

  lemma LaunchedIsAKey(launches: seq<Launch>, key: SlotKey)
    ensures Launched(launches, key) <==> key in LaunchedKeys(launches)
  {
  }

  lemma WorkersAreOfSlots(w: World, key: SlotKey)
    requires Inv(w) && Launched(w.launches, key)
    ensures key in SLOTS
  {
    var i :| 0 <= i < |w.launches| && w.launches[i].key == key;
    assert Names(w.m, w.launches[i].key, w.launches[i].id);
  }

  lemma FourSlots()
    ensures |SLOTS| == 4
  {
  }

  lemma CreatedAreSlots(w: World)
    requires Inv(w) && forall key | key in SLOTS :: key in w.created
    ensures w.created == SLOTS
  {
    forall key | key in w.created ensures key in SLOTS {
      WorkersAreOfSlots(w, key);
    }
  }

  lemma LaunchedAreSlots(w: World)
    requires Inv(w) && forall key | key in SLOTS :: Launched(w.launches, key)
    ensures LaunchedKeys(w.launches) == SLOTS
  {
    forall key ensures key in LaunchedKeys(w.launches) <==> key in SLOTS {
      LaunchedIsAKey(w.launches, key);
      if Launched(w.launches, key) {
        WorkersAreOfSlots(w, key);
      }
    }
  }

  lemma AllFourWorked(w: World)
    requires Inv(w) && forall key | key in SLOTS :: key in w.created && Launched(w.launches, key)
    ensures w.created == SLOTS && LaunchedKeys(w.launches) == SLOTS && |w.launches| == 4
  {
    CreatedAreSlots(w);
    LaunchedAreSlots(w);
    DistinctLaunches(w.launches);
    FourSlots();
  }

  lemma AllSlotsEnded(m: Manifest)
    requires Valid(m) && forall key | key in SLOTS :: key in m.slots && !Outstanding(m.slots[key].state)
    ensures OutstandingKeys(m) == {}
  {
  }

  /**
   After any run of the protocol, if the campaign verifies - with whatever protocol records were bound
   to it - then every one of the four slots was launched exactly once, under the run and operation the
   manifest names, its worker was created, and nothing is outstanding.
   */
  lemma VerifiedCampaignWorked(
    campaignId: string, boots: map<string, Option<string>>, actions: seq<Action>, bound: Manifest, files: Files)
    requires CanRun(Initial(campaignId, boots), actions)
    requires bound.slots == After(Initial(campaignId, boots), actions).m.slots && CampaignStore.Verified(bound, files)
    ensures var w := After(Initial(campaignId, boots), actions);
            && w.created == SLOTS && LaunchedKeys(w.launches) == SLOTS && |w.launches| == 4
            && (forall i | 0 <= i < |w.launches| :: Names(w.m, w.launches[i].key, w.launches[i].id))
            && OutstandingKeys(w.m) == {}
  {
    var start := Initial(campaignId, boots);
    RunKeepsWorked(start, actions);
    var w := After(start, actions);
    forall key | key in SLOTS
      ensures key in w.created && Launched(w.launches, key) && key in w.m.slots && !Outstanding(w.m.slots[key].state)
    {
      VerifiedSlotWorked(w, bound, files, key);
    }
    AllFourWorked(w);
    AllSlotsEnded(w.m);
  }

  /** What recovery reports may be settled: it reports a success only of a worker it counted. */
  lemma RecoveryIsTruthful(pc: Pc, s: Recovery.Remembered, o: Recovery.Observed)
    requires pc.Inspecting? && pc.gone.Some? && Recovery.Recover(pc.gone.value.role, s, o).Report?
    requires o.count.Counted? ==> pc.counted
    ensures Truthful(pc, Reconciliation(Recovery.Recover(pc.gone.value.role, s, o).terminal))
  {
    Recovery.RecoveredSuccessExactly(pc.gone.value.role, s, o);
  }
}
