/**
 What becomes of an interrupted slot: the classification of a dead owner's worker
 (`reconcile_interrupted` in `scripts/factory_gate_protocol_live.py`) and the evidence rule of the
 reconciling callback (`_reconcile` in `scripts/factory_gate_protocol.py`).
 */
module Recovery {
  import opened Common
  import opened Campaign
  import Coverage
  import CoverageLog
  import CampaignStore

  datatype Remote = Remote(refs: seq<string>, pullRequests: seq<string>)

  /** What the slot remembers of the invocation that died. */
  datatype Remembered = Remembered(
    identified: bool,               // a run id and a database
    coordinatorKilled: bool,        // exactly one coordinator kill
    started: bool,                  // the worker.started event was seen
    cancelIssued: bool,
    cancelStatus: Option<string>,
    remoteBefore: Option<Remote>,
    workflowPath: bool,
    workflowTerminal: Option<string>)

  /** What the recovering invocation finds. */
  datatype Observed = Observed(
    containersAtFirst: bool,
    prepared: bool,                 // no file or product command it needed failed
    workerAlive: bool,
    lifetimeLeft: bool,
    node: Option<string>,           // the implementation node when recovery starts
    finishes: bool,                 // following the run to its end finds nothing amiss with its result
    goneAtEnd: bool,                // at that end the worker's group and container are gone
    marker: bool,                   // an earlier clean-up cancelled this worker
    nodeAtCancel: Option<string>,
    cancelReply: Option<string>,
    aborts: bool,                   // the clean-up cancellation raises nothing
    containersAfter: bool,
    groupGone: bool,
    terminal: Option<string>,
    remote: Remote,
    published: bool,
    count: Coverage.Result)         // the last worker count, or the one that raised

  datatype Report =
    | Held
    | Report(terminal: Option<string>, gone: bool, launches: Option<seq<CoverageLog.Event>>, workflow: bool)

  const FAILED := Some("failed")

  /** The worker count cannot be proved: clean up and report a failure. */
  function Unproved(o: Observed): Report {
    if !o.aborts || o.containersAfter || !o.groupGone then Held else Report(FAILED, true, None, false)
  }

  predicate Expired(o: Observed) {
    o.workerAlive && !o.lifetimeLeft
  }

  /** The original invocation cancelled a worker it had seen start, and nobody cleaned up since. */
  predicate CancelWasCanonical(role: Role, s: Remembered, o: Observed) {
    !Expired(o) && role == Cancellation && s.started && s.cancelIssued && !o.marker
  }

  function CancelStatus(role: Role, s: Remembered, o: Observed): Option<string> {
    if !CancelWasCanonical(role, s, o) then s.cancelStatus
    else if o.nodeAtCancel == Some("cancelled") then (if s.cancelStatus.Some? then s.cancelStatus else o.nodeAtCancel)
    else o.cancelReply
  }

  function Finish(o: Observed): Report {
    match o.count
    case Unprovable => Unproved(o)
    case Counted(creates) =>
      if o.finishes && o.goneAtEnd then Report(Some("completed"), o.goneAtEnd, Some(creates), true) else Held
    case _ => Held
  }

  function FinishCancellation(o: Observed, before: Remote): Report {
    if o.remote != before || o.remote.refs != [] || o.remote.pullRequests != [] || o.published then Held
    else
      match o.count
      case Unprovable => Unproved(o)
      case Counted(creates) => Report(Some("cancelled"), true, Some(creates), true)
      case _ => Held
  }

  /** `reconcile_interrupted`, branch by branch. */
  function Recover(role: Role, s: Remembered, o: Observed): Report {
    if !s.identified then
      if o.containersAtFirst then Held else Report(FAILED, true, Some([]), false)
    else if !o.prepared then Held
    else if Expired(o) && !o.aborts then Held
    else if !Expired(o) && role == CompletedWorkflow && s.coordinatorKilled
            && (o.node == Some("running") || o.node == Some("passed")) then Finish(o)
    else if !CancelWasCanonical(role, s, o) && !o.aborts then Held
    else if o.containersAfter || !o.groupGone then Held
    else if CancelWasCanonical(role, s, o) && CancelStatus(role, s, o) == Some("cancelled")
            && o.terminal == Some("cancelled") && s.remoteBefore.Some? then FinishCancellation(o, s.remoteBefore.value)
    else Report(FAILED, true, None, false)
  }

  /** The evidence the callback binds: what the dead owner retained, or what recovery observed. */
  function EvidenceFor(role: Role, s: Remembered, r: Report, retained: Option<Record>, observed: Record): Option<Record>
    requires r.Report?
  {
    if r.terminal != Some(ExpectedStatus(role)) then None
    else if s.workflowPath then
      if retained.Some? && s.workflowTerminal == Some(ExpectedStatus(role)) then retained else None
    else if r.workflow then Some(observed) else None
  }

  /** `_reconcile_dead` commits the report; a hold commits nothing. */
  function Reconcile(
    m: Manifest, key: SlotKey, s: Remembered, o: Observed, retained: Option<Record>,
    observed: Record): Manifest {
    var r := Recover(key.role, s, o);
    if r.Held? || !r.gone then m
    else
      match Finalize(m, key, Reconciled, EvidenceFor(key.role, s, r, retained, observed),
        Some(Reconciliation(r.terminal)))
      case Committed(n) => n
      case Refused(_) => m
  }

  // --- What recovery promises ----------------------------------------------------------------

  /** A report is only made of a worker observed gone, and never invents a success. */
  lemma ReportsAreOfGoneWorkers(role: Role, s: Remembered, o: Observed)
    requires Recover(role, s, o).Report?
    ensures if !s.identified then !o.containersAtFirst
            else if Recover(role, s, o).terminal == Some("completed") then o.goneAtEnd
            else !o.containersAfter && o.groupGone
    ensures Recover(role, s, o).gone
    ensures Recover(role, s, o).terminal in
            {Some("failed"), if role == CompletedWorkflow then Some("completed") else Some("cancelled")}
  {
  }

  /** The canonical journey of a completed workflow, found at its end with its worker counted. */
  ghost predicate CompletedJourney(s: Remembered, o: Observed) {
    && s.identified && o.prepared && (o.workerAlive ==> o.lifetimeLeft) && o.count.Counted?
    && s.coordinatorKilled && o.node in {Some("running"), Some("passed")} && o.finishes && o.goneAtEnd
  }

  /** The canonical journey of a cancellation, nothing of it published and its worker counted. */
  ghost predicate CancelledJourney(s: Remembered, o: Observed) {
    && s.identified && o.prepared && (o.workerAlive ==> o.lifetimeLeft) && o.count.Counted?
    && s.started && s.cancelIssued && !o.marker && !o.containersAfter && o.groupGone
    && (if o.nodeAtCancel == Some("cancelled") then s.cancelStatus in {None, Some("cancelled")}
        else o.cancelReply == Some("cancelled"))
    && o.terminal == Some("cancelled")
    && s.remoteBefore == Some(Remote([], [])) && o.remote == Remote([], []) && !o.published
  }

  /** Recovery reports success exactly for a canonical journey whose worker was counted, with that count. */
  lemma RecoveredSuccessExactly(role: Role, s: Remembered, o: Observed)
    ensures var r := Recover(role, s, o);
            && ((r.Report? && r.terminal == Some("completed")) <==> role == CompletedWorkflow && CompletedJourney(s, o))
            && ((r.Report? && r.terminal == Some("cancelled")) <==> role == Cancellation && CancelledJourney(s, o))
            && (r.Report? && r.terminal in {Some("completed"), Some("cancelled")} ==>
                  r.launches == Some(o.count.creates) && r.workflow)
  {
  }

  /** Following the run to its end: the owner killed the coordinator and the implementation goes on. */
  ghost predicate Follows(role: Role, s: Remembered, o: Observed) {
    && role == CompletedWorkflow && s.coordinatorKilled && o.node in {Some("running"), Some("passed")}
    && (o.workerAlive ==> o.lifetimeLeft)
  }

  /** The worker was cleaned up, or needed no cleaning up, and it is gone. */
  ghost predicate CleanedUp(role: Role, s: Remembered, o: Observed) {
    && !o.containersAfter && o.groupGone
    && (o.aborts || (&& role == Cancellation && s.started && s.cancelIssued && !o.marker
                     && (o.workerAlive ==> o.lifetimeLeft)))
  }

  /** A slot that never got a run is failed exactly when no container is there. */
  lemma UnidentifiedExactly(role: Role, s: Remembered, o: Observed)
    requires !s.identified
    ensures Recover(role, s, o) == if o.containersAtFirst then Held else Report(Some("failed"), true, Some([]), false)
  {
  }

  /**
   Away from the followed journeys a prepared recovery reports exactly a worker that is cleaned up, and
   it holds one only where a cancelled journey shows a publication or a wrong count.
   */
  lemma ReportedExactly(role: Role, s: Remembered, o: Observed)
    requires s.identified && o.prepared && !Follows(role, s, o)
    ensures Recover(role, s, o).Report? ==> CleanedUp(role, s, o)
    ensures CleanedUp(role, s, o) && !CancelledJourney(s, o) && Recover(role, s, o).Report? ==>
              Recover(role, s, o) == Report(Some("failed"), true, None, false)
    ensures CleanedUp(role, s, o) && Recover(role, s, o).Held? ==>
              && o.terminal == Some("cancelled") && s.remoteBefore.Some?
              && (|| o.remote != Remote([], []) || s.remoteBefore != Some(o.remote) || o.published
                  || (!o.count.Counted? && !(o.count.Unprovable? && o.aborts)))
  {
  }

  /** A followed run is reported completed, failed for want of a provable count, or held. */
  lemma FollowedExactly(role: Role, s: Remembered, o: Observed)
    requires s.identified && o.prepared && Follows(role, s, o)
    ensures var r := Recover(role, s, o);
            && (r.Report? <==>
                || (o.count.Counted? && o.finishes && o.goneAtEnd)
                || (o.count.Unprovable? && o.aborts && !o.containersAfter && o.groupGone))
            && (r.Report? ==>
                  r == if o.count.Counted? then Report(Some("completed"), true, Some(o.count.creates), true)
                       else Report(Some("failed"), true, None, false))
  {
  }

  /** Without the files and commands it needs, recovery holds. */
  lemma UnpreparedHolds(role: Role, s: Remembered, o: Observed)
    requires s.identified && !o.prepared
    ensures Recover(role, s, o).Held?
  {
  }

  /**
   If a worker cannot be counted, its slot either stays outstanding or is reconciled as failed, and in
   the latter case no later sequence of operations makes the campaign verify.
   */
  lemma UncountedWorkerNeverVerifies(
    decode: CampaignStore.Decoder, m: Manifest, key: SlotKey, s: Remembered, o: Observed,
    retained: Option<Record>, observed: Record, ops: seq<CampaignStore.Op>, files: Files)
    requires Valid(m) && CampaignStore.PassesAreReal(decode, m) && key in m.slots
    requires !o.count.Counted?
    ensures var n := Reconcile(m, key, s, o, retained, observed);
            && Valid(n) && Extends(m, n)
            && (n == m || !CampaignStore.Verified(CampaignStore.Ran(decode, n, ops), files))
  {
    var n := Reconcile(m, key, s, o, retained, observed);
    RecoveredSuccessExactly(key.role, s, o);
    ReportsMatchTheRole(key.role, s, o);
    ReconcileKeeps(m, key, s, o, retained, observed);
    if n != m {
      CampaignStore.UnsuccessfulSlotNeverVerifies(decode, n, key, ops, files);
    }
  }

  lemma ReportsMatchTheRole(role: Role, s: Remembered, o: Observed)
    requires !o.count.Counted?
    ensures Recover(role, s, o).Report? ==> Recover(role, s, o).terminal == Some("failed")
  {
  }

  /**
   Reconciling an interrupted slot: a held report commits nothing; otherwise the slot is reconciled with
   the reported status, and only a success binds evidence, the one the dead owner retained if it left a
   workflow and the observed one if it did not.
   */
  lemma ReconcileExactly(
    m: Manifest, key: SlotKey, s: Remembered, o: Observed, retained: Option<Record>, observed: Record)
    requires Valid(m) && key in m.slots
    ensures var n, r := Reconcile(m, key, s, o, retained, observed), Recover(key.role, s, o);
            var success := if key.role == CompletedWorkflow then Some("completed") else Some("cancelled");
            if m.slots[key].state != Interrupted || r.Held? then n == m
            else
              && n.slots.Keys == m.slots.Keys
              && n.slots[key].state == Reconciled
              && n.slots[key].reconciliation == Some(Reconciliation(r.terminal))
              && (forall other | other in m.slots && other != key :: n.slots[other] == m.slots[other])
              && n.evidence ==
                 if r.terminal != success then m.evidence
                 else if !s.workflowPath then m.evidence[key := observed]
                 else if retained.Some? && s.workflowTerminal == success then m.evidence[key := retained.value]
                 else m.evidence
  {
    var r := Recover(key.role, s, o);
    RecoveredSuccessExactly(key.role, s, o);
    if r.Report? {
      ReportsAreOfGoneWorkers(key.role, s, o);
      FinalizeExactly(m, key, Reconciled, EvidenceFor(key.role, s, r, retained, observed),
        Some(Reconciliation(r.terminal)));
    }
  }

  /** Reconciling keeps the campaign invariant, and what it commits succeeded exactly as reported. */
  lemma ReconcileKeeps(
    m: Manifest, key: SlotKey, s: Remembered, o: Observed, retained: Option<Record>,
    observed: Record)
    requires Valid(m) && key in m.slots
    ensures var n := Reconcile(m, key, s, o, retained, observed);
            && Valid(n) && Extends(m, n) && n.protocol == m.protocol && n.campaignId == m.campaignId
            && (n != m ==>
                  && key in n.slots && n.slots[key].state == Reconciled
                  && (Succeeded(n.slots[key], key.role) <==>
                        Recover(key.role, s, o).terminal == Some(ExpectedStatus(key.role))))
  {
    var r := Recover(key.role, s, o);
    if r.Report? {
      FinalizeKeeps(m, key, Reconciled, EvidenceFor(key.role, s, r, retained, observed),
        Some(Reconciliation(r.terminal)));
    }
    assert forall k | k in m.slots :: SlotExtends(m.slots[k], m.slots[k]);
  }
}
