/**
 Two more things every run of the campaign protocol keeps: one invocation at a time reconciles, and an
 invocation goes on to its second slot only when its first one is behind it.
 */
module ProtocolOrder {
  import opened Common
  import opened Campaign
  import opened Protocol
  import opened ProtocolSafety

  /** The reconciliation lock has one holder. */
  ghost predicate Exclusive(w: World) {
    forall p, q | Alive(w, p) && Alive(w, q) && w.procs[p].pc.Inspecting? && w.procs[q].pc.Inspecting? :: p == q
  }

  /** The invocation is on its way to a slot it may spend: its first, or its second after a reusable first. */
  predicate InTurn(m: Manifest, i: Invocation) {
    i.pc.Looking? || i.pc.Qualifying? || i.pc.Qualified? ==>
      i.pc.role.CompletedWorkflow? || (i.pc.role.Cancellation? && Reusable(m, Key(i.harness, CompletedWorkflow)))
  }

  predicate KnownHarness(i: Invocation) {
    i.harness.Omp? || i.harness.Claude?
  }

  ghost predicate Orderly(w: World) {
    && Exclusive(w)
    && forall p | Alive(w, p) :: KnownHarness(w.procs[p]) && InTurn(w.m, w.procs[p])
  }

  lemma ReusableStays(m: Manifest, n: Manifest, key: SlotKey)
    requires Extends(m, n) && Reusable(m, key)
    ensures Reusable(n, key)
  {
    assert SlotExtends(m.slots[key], n.slots[key]);
  }

  lemma InTurnStays(m: Manifest, n: Manifest, i: Invocation)
    requires Extends(m, n) && InTurn(m, i)
    ensures InTurn(n, i)
  {
    if (i.pc.Looking? || i.pc.Qualifying? || i.pc.Qualified?) && i.pc.role.Cancellation? {
      ReusableStays(m, n, Key(i.harness, CompletedWorkflow));
    }
  }

  /** What a step may do to an invocation that lives on. */
  lemma StepMoves(w: World, a: Action, p: nat)
    requires Enabled(w, a) && Alive(Apply(w, a), p)
    ensures if Alive(w, p) then Apply(w, a).procs[p] == w.procs[p] || Acts(a, p)
            else a.Spawn? && a.p == p
  {
  }

  predicate Acts(a: Action, p: nat) {
    !a.Reboot? && !a.CreateWorker? && !a.ClientExits? && !a.WorkerExits? && a.p == p
  }

  lemma FinalizedIsReusable(m: Manifest, key: SlotKey, record: Record)
    requires Finalize(m, key, ExpectedState(key.role), Some(record), None).Committed?
    ensures Reusable(Finalize(m, key, ExpectedState(key.role), Some(record), None).manifest, key)
  {
  }

  lemma ActorInTurn(w: World, a: Action)
    requires Enabled(w, a) && !a.Reboot? && !a.CreateWorker? && !a.ClientExits? && !a.WorkerExits?
    requires Alive(w, a.p) && Alive(Apply(w, a), a.p) && KnownHarness(w.procs[a.p]) && InTurn(w.m, w.procs[a.p])
    ensures KnownHarness(Apply(w, a).procs[a.p]) && InTurn(Apply(w, a).m, Apply(w, a).procs[a.p])
  {
    if a.DoFinalize? {
      var i := w.procs[a.p];
      var outcome := Finalize(w.m, SlotOf(i), ExpectedState(i.pc.role), Some(a.retained), None);
      if i.pc.role.CompletedWorkflow? && outcome.Committed? {
        FinalizedIsReusable(w.m, SlotOf(i), a.retained);
      }
    }
  }

  lemma EveryoneInTurn(w: World, a: Action, p: nat)
    requires Inv(w) && Orderly(w) && Enabled(w, a) && Alive(Apply(w, a), p)
    ensures KnownHarness(Apply(w, a).procs[p]) && InTurn(Apply(w, a).m, Apply(w, a).procs[p])
  {
    StepMoves(w, a, p);
    if Alive(w, p) {
      if Apply(w, a).procs[p] == w.procs[p] {
        ManifestOnlyExtends(w, a);
        InTurnStays(w.m, Apply(w, a).m, w.procs[p]);
      } else {
        ActorInTurn(w, a);
      }
    }
  }

  /** Only marking the dead takes the lock, and it does so when nobody holds it. */
  lemma LockIsTakenFree(w: World, a: Action, p: nat)
    requires Enabled(w, a) && Alive(Apply(w, a), p) && Apply(w, a).procs[p].pc.Inspecting?
    ensures (Alive(w, p) && w.procs[p].pc.Inspecting?) || (a.DoMark? && a.p == p && !LockTaken(w))
  {
    if p in w.procs && w.procs[p] == Apply(w, a).procs[p] {
      assert Alive(w, p);
    } else {
      InspectionStep(w, a, p);
    }
  }

  lemma StepKeepsExclusive(w: World, a: Action)
    requires Exclusive(w) && Enabled(w, a)
    ensures Exclusive(Apply(w, a))
  {
    var v := Apply(w, a);
    forall p, q | Alive(v, p) && Alive(v, q) && v.procs[p].pc.Inspecting? && v.procs[q].pc.Inspecting? ensures p == q {
      LockIsTakenFree(w, a, p);
      LockIsTakenFree(w, a, q);
    }
  }

  lemma StepKeepsOrder(w: World, a: Action)
    requires Inv(w) && Orderly(w) && Enabled(w, a)
    ensures Orderly(Apply(w, a))
  {
    StepKeepsExclusive(w, a);
    var v := Apply(w, a);
    forall p | Alive(v, p) ensures KnownHarness(v.procs[p]) && InTurn(v.m, v.procs[p]) {
      EveryoneInTurn(w, a, p);
    }
  }

  lemma {:induction false} RunKeepsOrder(w: World, actions: seq<Action>)
    requires Inv(w) && Orderly(w) && CanRun(w, actions)
    ensures Inv(After(w, actions)) && Orderly(After(w, actions))
    decreases |actions|
  {
    if actions != [] {
      StepKeeps(w, actions[0]);
      StepKeepsOrder(w, actions[0]);
      RunKeepsOrder(Apply(w, actions[0]), actions[1..]);
    }
  }

  /**
   After any run at most one invocation reconciles, and one that is on its way to a slot is on its way
   to its first, or to its second with the first spent well and its evidence bound.
   */
  lemma EveryRunIsOrderly(campaignId: string, boots: map<string, Option<string>>, actions: seq<Action>)
    requires CanRun(Initial(campaignId, boots), actions)
    ensures var w := After(Initial(campaignId, boots), actions);
            && (forall p, q | Alive(w, p) && Alive(w, q) && w.procs[p].pc.Inspecting? && w.procs[q].pc.Inspecting? ::
                  p == q)
            && (forall p | Alive(w, p) ::
                  var i := w.procs[p];
                  && i.harness in {Omp, Claude}
                  && (i.pc.Looking? || i.pc.Qualifying? || i.pc.Qualified? ==>
                        || i.pc.role == CompletedWorkflow
                        || (i.pc.role == Cancellation && SpentWell(w.m, Key(i.harness, CompletedWorkflow)))))
  {
    RunKeepsOrder(Initial(campaignId, boots), actions);
    var w := After(Initial(campaignId, boots), actions);
    forall p | Alive(w, p) ensures KnownHarness(w.procs[p]) && InTurn(w.m, w.procs[p])
      ensures var key := Key(w.procs[p].harness, CompletedWorkflow); Reusable(w.m, key) ==> SpentWell(w.m, key)
    {
      ReusableExactly(w.m, Key(w.procs[p].harness, CompletedWorkflow));
    }
  }
}
