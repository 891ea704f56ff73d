# Enginery gate scripts: a verified model

Enginery is qualified by a set of gate scripts: they spend a four-slot campaign of live workers, keep
the evidence of it on disk, judge that evidence, and decide whether a wheel may be trusted and
switched to. Most of a script is input and output, but the decisions are protocols that must survive
crashes, retries, several invocations at once and files that were altered in between. This project
models those protocols and proves what they keep.

| file | models |
|---|---|
| `Campaign.dfy` | the campaign manifest, its transition table and every operation on it |
| `CampaignStore.dfy` | the campaign as an object over the manifest file; protocol verdicts; the final verification |
| `Protocol.dfy` | any number of invocations driving one campaign, with crashes, reboots and the container engine |
| `ProtocolSafety.dfy` | safety of whole runs of that machine |
| `ProtocolOrder.dfy` | who reconciles and who is next, after every run |
| `ProtocolRuns.dfy` | building runs: how an invocation arrives, gets its slot and launches |
| `ProtocolCampaign.dfy` | an undisturbed campaign, from the start to four slots spent well |
| `ProtocolOrphans.dfy` | the exact condition under which reconciliation keeps one live worker, and the run that breaks it |
| `Recovery.dfy` | the classification of an interrupted worker and the evidence bound for it |
| `EndToEnd.dfy` | protocol, recovery and verification together: what a verified campaign says about its workers |
| `CoverageLog.dfy`, `Timestamps.dfy` | the engine's event log, what a window of it adds, and the boundaries it is asked from |
| `Coverage.dfy` | the rolling journal of engine events |
| `CoverageRepeats.dfy` | when the journal stays exact on a log that repeats events, and a call that does not |
| `Qualification.dfy` | intent-first qualification of a product run for a completed-workflow slot |
| `CancelQualification.dfy` | the same for a cancellation slot, whose run id, request file and ledger are fixed |
| `Evidence.dfy`, `EvidenceBuilder.dfy`, `Auth.dfy` | the evidence document, the builder, and the authentication outcome rule |
| `Runtime.dfy` | the runtime installer: install, activate, roll back |
| `Records.dfy` | a wheel compared with an installation through their RECORD tables |
| `FrozenIndex.dfy` | create-once publication of the bootstrap index |
| `Receipts.dfy` | the receipt worklist over the artifact store |
| `Boundaries.dfy` | the import-boundary checker |
| `Common.dfy`, `Text.dfy` | digests and files; splitting, joining and numerals |

SHA-256 is idealised as an injective digest. Clocks, process ids, boot ids, the container engine, the
product and everything read from a network are inputs that may take any value. Operations of the
source that raise become refusals that leave the state as it was; the one exception is deliberate in
the source: an invalid protocol record is committed before the problem is raised.

## Properties that are not true as stated

Some of what the scripts set out to guarantee holds only under a condition they do not check. The code
is modelled as it is; each case has a run or an input that shows the failure and the condition.

- **One live worker.** The command that launches a worker is a process of its own and outlives the
  invocation that issued it. Reconciliation looks for the container, not for that command, so the slot
  can be reconciled and the next one launched while the old command can still create its worker.
  `ProtocolOrphans.CrashedOwnerLeavesTwoWorkers` is a run from the start of a campaign to two live
  workers. `ProtocolOrphans.InspectionSafeExactlyWhenSettled`: an inspection is safe if and only if
  that command has ended or no slot can be launched any more.
- **Qualified at most once.** The same holds for the product command of a crashed preflight of a
  completed-workflow slot. `Qualification.CrashedPreflightQualifiesTwice` is a run from the start to two
  committed runs. `Qualification.RetrySafeExactlyWhenCalm`: a retry is safe if and only if no such
  command can still commit, or a record or a run of the issue is already there; a worker create that
  shows is not enough, since the engine may evict it. For a cancellation slot the property holds
  without a condition (`CancelQualification.StartedAtMostOnce`), because its files are fixed beforehand.
- **The installer's state.** The handlers of an install also run for an interrupt, and that may arrive
  after a rename took effect. `Runtime.InterruptedRenameBreaksTheState`: interrupted while the shim is
  being renamed, the install restores the old state, deletes the new runtime and leaves the shim
  pointing at it. `Runtime.InstallKeepsExactly`: an install breaks the state if and only if it stops
  with the new shim and the old state, or with the new state and then deletes the runtime it names.
  `Runtime.FailedInstallChangesNothing` says exactly when a failed install changes nothing.
- **Distinct events.** The journal finds its checkpoint by equality.
  `CoverageRepeats.RepeatedEventsUndercount` is a call that returns a wrong count on a log with a
  repeated event. `CoverageRepeats.ExtensionExactlyWhen`: the count is exact if and only if no create
  lies between where it stood and where the checkpoint was found. Every extension is exact if and only
  if no create of the worker lies between two occurrences of one event
  (`CoverageRepeats.EveryExtensionExactExactly`), and under that condition, which distinct events meet,
  every count of every sequence of calls is exact (`Coverage.EveryCountIsExact`).
- **Receipts.** A capture is marked verified without being followed.
  `Receipts.CapturedReceiptHidesItsInput` is a store whose missing input goes unnoticed;
  `Receipts.AcceptanceExactly` gives the condition, which names the part the walk does not follow;
  `Receipts.WalkIsReachability` is the result under the checkable condition that no reachable capture
  is a receipt.
- **Exit code zero** also needs a non-empty scenario name, which the validation of the document
  demands (`EvidenceBuilder.ExitCodeExactly`).
- **Relative imports beyond the top package** are an error in Python; the checker reads them as
  absolute imports (`Boundaries.OutOfRangeIsAbsolute`).

## Model

| member | source | states |
|---|---|---|
| Campaign.BindKeeps | scripts/factory_gate_campaign.py:303-321 | a bind commits exactly when nothing was bound before or the same binding was; the binding never changes afterwards |
| Campaign.ChangedExactly | scripts/factory_gate_campaign.py:303-321 | the list of changed binding keys is empty exactly for equal bindings |
| Campaign.ReserveKeeps | scripts/factory_gate_campaign.py:323-347 | a committed reservation keeps the manifest invariant and extends the manifest |
| Campaign.ReserveEffect | scripts/factory_gate_campaign.py:323-347 | a committed reservation spends an unspent slot of the table while nothing was outstanding, and is then the one outstanding slot |
| Campaign.ReserveExactly | scripts/factory_gate_campaign.py:323-347 | a reservation commits exactly for an unspent slot of the table while nothing is outstanding, and adds that slot alone, reserved, with the given owner and the operation id of its name and role |
| Campaign.ReservedOperation | scripts/factory_gate_campaign.py:323-347 | the operation id of each of the four slots, written out |
| Campaign.AnnotateKeeps | scripts/factory_gate_campaign.py:349-363 | annotation keeps the invariant, concerns the one outstanding slot and is no state change |
| Campaign.AnnotateExactly | scripts/factory_gate_campaign.py:349-363 | an annotation commits exactly for a reserved, running or interrupted slot and changes nothing but its facts |
| Campaign.TransitionKeeps | scripts/factory_gate_campaign.py:365-371 | a committed transition keeps every history a path of the table and adds exactly one change |
| Campaign.FinalizeKeeps | scripts/factory_gate_campaign.py:373-390 | finalizing keeps the invariant, earlier evidence and ended slots |
| Campaign.FinalizeEffect | scripts/factory_gate_campaign.py:373-390 | finalizing leaves nothing outstanding, and its evidence guard can never be the reason for a refusal |
| Campaign.FinalizeExactly | scripts/factory_gate_campaign.py:373-390 | which ends each state of a slot allows, and the whole effect: state, history, reconciliation and evidence of that slot, all others as they were |
| Campaign.MarkDeadKeeps | scripts/factory_gate_campaign.py:409-441 | marking keeps the invariant and leaves every outstanding slot interrupted |
| Campaign.MarkDeadExactly | scripts/factory_gate_campaign.py:409-441 | marking commits exactly when every outstanding owner is of this machine and of another boot or without a process, and then exactly the reserved and running slots become interrupted |
| Campaign.HistoryIsShort | scripts/factory_gate_campaign.py:23-35 | every path of the transition table has at most four states |
| Campaign.EndedHistoriesExactly | scripts/factory_gate_campaign.py:23-35 | the six histories with which a slot can end, written out |
| Campaign.AtMostSixteenChanges | scripts/factory_gate_campaign.py:23-35 | a valid manifest holds at most sixteen slot-state changes |
| CampaignStore.EverySequenceKeeps | scripts/factory_gate_campaign.py:244-484 | over every sequence of operations, refused or not: histories are paths, binding and evidence are write-once, ended slots never change, a bound pass is real |
| CampaignStore.MovesAreChanges | scripts/factory_gate_campaign.py:323-441 | every committed operation that moves a slot, marking included, uses up one of the possible changes |
| CampaignStore.AtMostSixteenMoves | scripts/factory_gate_campaign.py:323-441 | however long a campaign is driven, at most sixteen operations move a slot, marking included |
| CampaignStore.VerifySlot | scripts/factory_gate_campaign.py:486-519 | no reasons exactly for a completed workflow that ended completed, or a cancellation that ended cancelled, directly or by reconciliation, with all its digests intact; exactly the stale originals are named |
| CampaignStore.VerifyProtocol | scripts/factory_gate_campaign.py:486-519 | no reasons exactly for a bound pass whose file still has the bound bytes |
| CampaignStore.VerifyEvidence | scripts/factory_gate_campaign.py:486-519 | no reasons exactly when all four slots ended as their roles demand with the bound bytes still there, and both harnesses have a bound pass whose file is unchanged |
| CampaignStore.VerifiedExactly | scripts/factory_gate_campaign.py:486-519 | the same of the specification, in the states and statuses themselves |
| CampaignStore.VerdictExactly | scripts/factory_gate_campaign.py:451-484 | protocol evidence is judged a pass exactly when it exits with zero and is configured for this campaign and harness |
| CampaignStore.VerifiedMeansPassed | scripts/factory_gate_campaign.py:451-519 | after any campaign, a verification without reasons means all slots spent, nothing outstanding, and the bytes now at each protocol path are a document with exit code zero that names this campaign and harness |
| CampaignStore.UnsuccessfulSlotNeverVerifies | scripts/factory_gate_campaign.py:486-502 | a slot that ended otherwise than in its expected success keeps every later state of the campaign from verifying |
| CampaignStore.MarkSlots | scripts/factory_gate_campaign.py:412-441 | the marking loop marks exactly the outstanding slots, or marks nothing when some owner is not proved dead |
| CampaignStore.Store.constructor | scripts/factory_gate_campaign.py:244-297 | a new manifest is empty and valid |
| CampaignStore.Store.Bind | scripts/factory_gate_campaign.py:303-321 | the whole new document, or the old one and a refusal |
| CampaignStore.Store.Reserve | scripts/factory_gate_campaign.py:323-347 | the whole new document, or the old one and a refusal |
| CampaignStore.Store.Annotate | scripts/factory_gate_campaign.py:349-363 | the whole new document, or the old one and a refusal |
| CampaignStore.Store.Transition | scripts/factory_gate_campaign.py:365-371 | the whole new document, or the old one and a refusal |
| CampaignStore.Store.Finalize | scripts/factory_gate_campaign.py:373-390 | the whole new document, or the old one and a refusal |
| CampaignStore.Store.MarkDead | scripts/factory_gate_campaign.py:409-441 | the whole new document with its pending slots, or the old one and a refusal |
| CampaignStore.Store.ReconcileOne | scripts/factory_gate_campaign.py:442-449 | a slot is reconciled only with its container gone, and then nothing is outstanding; a hold changes nothing |
| CampaignStore.Store.ReconcileDead | scripts/factory_gate_campaign.py:392-449 | a recovery that ends reconciles exactly what was outstanding, each with its container gone |
| CampaignStore.Store.RecordProtocolEvidence | scripts/factory_gate_campaign.py:451-484 | the record is committed even when invalid, and the problem is reported exactly then |
| Protocol.SoleHolder | scripts/factory_gate_campaign.py:332-338 | two live invocations never hold a slot at the same time |
| Protocol.ProvedDeadIsDead | scripts/factory_gate_campaign.py:409-441 | no live invocation holds a slot whose owner was proved dead |
| Protocol.ReservableIsUntouched | scripts/factory_gate_protocol.py:585-649 | a slot that can be reserved was never launched, and nobody holds another |
| Protocol.LookExactly | scripts/factory_gate_protocol.py:585-609 | an unspent slot is qualified for, a first slot spent well with its evidence leads to the second, any other spent slot ends the invocation; the manifest is unchanged |
| Protocol.TurnedAwayIsFinished | scripts/factory_gate_protocol.py:585-690 | an invocation whose binding, reconciliation, reservation or start is refused ends there, and nothing else changes |
| Protocol.OwnerAnnotates | scripts/factory_gate_protocol_live.py:577-616 | a live owner's annotation always commits and leaves the slot its own |
| Protocol.DispatchKeeps | scripts/factory_gate_protocol_live.py:743-769 | issuing the launching command keeps the protocol invariant |
| Protocol.StepKeeps | scripts/factory_gate_protocol.py:585-690 | every step of every invocation, the engine and the hosts keeps the protocol invariant |
| ProtocolSafety.RunKeeps | scripts/factory_gate_protocol.py:585-690 | the invariant holds after every interleaving |
| ProtocolSafety.LaunchesAreBounded | scripts/factory_gate_protocol.py:585-649 | after any run no slot was launched twice, there were at most four launches, and each is preceded by its reservation, running state and named run and operation |
| ProtocolSafety.OneOutstandingSlot | scripts/factory_gate_campaign.py:332-338 | after any run at most one slot is reserved, running or interrupted, and every worker was launched |
| ProtocolSafety.LiveOwnerIsNeverRefused | scripts/factory_gate_protocol.py:585-649 | no transaction of a live owner on its own slot is ever refused |
| ProtocolSafety.RunOnlyExtends | scripts/factory_gate_campaign.py:244-390 | along any run of the protocol the manifest only extends |
| ProtocolSafety.InspectionsKept | scripts/factory_gate_protocol_live.py:1763-1770 | a slot observed gone stays without worker and client, and inspected slots stay frozen |
| ProtocolSafety.EndingsKept | scripts/factory_gate_protocol_live.py:1334-1337 | a worker observed ended was created and stays gone |
| ProtocolSafety.ContainedKept | scripts/factory_gate_protocol_live.py:1571-1582 | every worker, and every command that may still create one, belongs to the outstanding slot |
| ProtocolSafety.OneLiveWorker | scripts/factory_gate_campaign.py:409-449 | in every run that inspects only settled slots at most one worker is live |
| ProtocolOrphans.OrphanLeadsToTwoWorkers | scripts/factory_gate_protocol_live.py:1674-1770 | from an inspection whose launching command is still running, with a slot left to launch, a run leads to two live workers |
| ProtocolOrphans.InspectionSafeExactlyWhenSettled | scripts/factory_gate_protocol_live.py:743-769 | an inspection keeps every later run at one live worker if and only if the launching command has ended or no slot can be launched any more |
| ProtocolOrphans.CrashedOwnerLeavesTwoWorkers | scripts/factory_gate_protocol_live.py:743-769 | from the start of a campaign, an owner that dies after its dispatch and a recovery by its own harness lead to two live workers |
| ProtocolOrphans.BarrenKept | scripts/factory_gate_protocol.py:585-649 | with nobody holding a slot and none left to launch, no step but the settling of a counted success changes that |
| ProtocolOrder.EveryRunIsOrderly | scripts/factory_gate_protocol.py:585-690 | after any run at most one invocation reconciles, and an invocation is on its way to its second slot only with the first ended completed, directly or by reconciliation, and its evidence bound |
| ProtocolRuns.Arrives | scripts/factory_gate_protocol.py:652-690 | with nothing outstanding and nobody reconciling, a new invocation gets to look for its first slot and changes nothing but the binding |
| ProtocolRuns.Launches | scripts/factory_gate_protocol.py:585-649 | a qualified invocation gets to launch a free slot and changes nothing but its own place and slot |
| ProtocolCampaign.SpendsSlot | scripts/factory_gate_protocol.py:585-649 | between slots, an invocation that looks for an unspent slot gets to launch it, see its worker end, and finalize it with its evidence; then nothing is outstanding and its other slot is next |
| ProtocolCampaign.UndisturbedCampaign | scripts/factory_gate_protocol.py:713-813 | from the start, one invocation of each harness spends all four slots well, each with its own evidence, and leaves no worker |
| EndToEnd.VerifiedCampaignWorked | scripts/factory_gate_campaign.py:486-519 | after any run, a campaign that verifies had each of its four slots launched exactly once, under the named run, with its worker created |
| EndToEnd.RecoveryIsTruthful | scripts/factory_gate_protocol_live.py:1674-1866 | recovery reports a success only of a worker it counted, as the protocol demands of a reconciliation |
| Recovery.ReportsAreOfGoneWorkers | scripts/factory_gate_protocol_live.py:1674-1866 | a report of any kind means that the matching look found neither container nor group, and is a failure or the expected success of the role |
| Recovery.UnidentifiedExactly | scripts/factory_gate_protocol_live.py:1674-1700 | a slot that never got a run is failed, without a launch, exactly when no container is there |
| Recovery.FollowedExactly | scripts/factory_gate_protocol_live.py:1674-1866 | a run that can be followed is reported completed when counted and found at its end, failed when the count cannot be proved and the worker is cleaned up, and otherwise held |
| Recovery.ReportedExactly | scripts/factory_gate_protocol_live.py:1674-1866 | any other worker is reported only when cleaned up, as failed unless it was a cancelled journey, and is then held only for a publication or a wrong count |
| Recovery.RecoveredSuccessExactly | scripts/factory_gate_protocol_live.py:1674-1866 | recovery reports completed, or cancelled, exactly for a canonical journey of that role whose worker was counted, and with that count |
| Recovery.ReconcileKeeps | scripts/factory_gate_protocol.py:652-690 | reconciling keeps the campaign invariant, and the slot succeeded exactly when the report says so |
| Recovery.ReconcileExactly | scripts/factory_gate_protocol.py:652-690 | the whole effect of reconciling: a hold commits nothing, a report ends the interrupted slot with its status, and only a success binds evidence: what the dead owner retained if it left a workflow, what recovery observed if it did not |
| Recovery.UncountedWorkerNeverVerifies | scripts/factory_gate_protocol_live.py:1831-1861 | a worker that cannot be counted leaves its slot outstanding, or reconciled as failed so that the campaign never verifies |
| Timestamps.RenderRoundTrip | scripts/factory_gate_protocol_live.py:848-857 | rendering a stamp and reading it back gives its seconds and nanoseconds |
| Timestamps.RenderKeepsOrder | scripts/factory_gate_protocol_live.py:917-928 | comparing rendered boundaries is comparing the stamps |
| Timestamps.RenderIsInjective | scripts/factory_gate_protocol_live.py:848-857 | equal boundaries come from equal stamps |
| CoverageLog.MatchingParts | scripts/factory_gate_protocol_live.py:871-886 | the creates of two adjoining parts are the creates of the whole |
| CoverageLog.WorkerCreateExactly | scripts/factory_gate_protocol_live.py:871-886 | an event is a create of the worker exactly when it is a container create with the worker's name, or with its operation and neither the relay's nor the store's name |
| CoverageLog.OneMatchIsOnly | scripts/factory_gate_protocol_live.py:871-886 | one matching create means that its position is the only one that creates the worker |
| CoverageLog.OneMatches | scripts/factory_gate_protocol_live.py:871-886 | and the only position that creates the worker is the one matching create |
| CoverageLog.SinceIsSuffix | scripts/factory_gate_protocol_live.py:973-986 | on an ordered log a query returns a suffix of what is retained |
| CoverageLog.WindowAddsExactly | scripts/factory_gate_protocol_live.py:960-964 | a window without its overlap adds exactly the creates between what is covered and its end, where repeated events are harmless |
| CoverageLog.GoingOnElsewhere | scripts/factory_gate_protocol_live.py:960-964 | going on at another position than where a count stopped is exact if and only if no create lies between the two |
| Coverage.ReplayIsExact | scripts/factory_gate_protocol_live.py:953-966 | windows that are accepted yield the creates of the log from the anchor to the checkpoint, no more and no fewer |
| Coverage.ReplayAcceptsExactlyIntact | scripts/factory_gate_protocol_live.py:941-972 | replay accepts exactly the windows as they were retained |
| Coverage.ReplayWindows | scripts/factory_gate_protocol_live.py:945-966 | the replay loop computes the replay of the retained windows |
| Coverage.Resume | scripts/factory_gate_protocol_live.py:938-972 | the first half of a call ends in the replayed creates and checkpoint, a miscount or a refusal |
| CoverageLog.CheckpointSeenExactly | scripts/factory_gate_protocol_live.py:986-996 | a query shows the checkpoint exactly when the engine has not evicted it |
| Coverage.ExtendRefusesExactlyWhenEvicted | scripts/factory_gate_protocol_live.py:986-996 | with an answering engine a call stops for lack of proof exactly when its checkpoint is evicted |
| Coverage.ExtensionIsExact | scripts/factory_gate_protocol_live.py:986-999 | the engine's answer completes the count to the end of the log |
| Coverage.LogGrowthKeepsHonest | scripts/factory_gate_protocol_live.py:930-1017 | an index stays honest while the engine logs more |
| Coverage.CallIsExact | scripts/factory_gate_protocol_live.py:930-1017 | whatever was evicted, altered or interrupted, on a log whose repeated events are harmless: a returned count is the event at the only position from the anchor on whose fields make it a create of the worker, with its identity; a refusal changes nothing, and the index stays honest |
| Coverage.TwoCreatesAreNoCount | scripts/factory_gate_protocol_live.py:888-900 | with two positions that create the worker no call returns a count |
| Coverage.FirstCallCounts | scripts/factory_gate_protocol_live.py:930-1017 | a first call to an engine that still has the anchor counts if and only if exactly one position creates the worker, with an identity |
| Coverage.EveryCountIsExact | scripts/factory_gate_protocol_live.py:930-1017 | over any number of calls with growth, eviction, tampering, failures and crashes, on such a log, every returned count is the one position whose fields create the worker, and all of them are the same event |
| Coverage.ReplayRepeatsTheCount | scripts/factory_gate_protocol_live.py:941-972 | a later replay gives the list an earlier call counted |
| CoverageRepeats.ExtensionExactlyWhen | scripts/factory_gate_protocol_live.py:986-999 | repetition allowed, an extended count is that of the whole log if and only if no create lies between where it stood and where the checkpoint was found |
| CoverageRepeats.CallExactlyWhen | scripts/factory_gate_protocol_live.py:930-1017 | the same of a whole call that resumed with an exact count |
| CoverageRepeats.EveryExtensionExactExactly | scripts/factory_gate_protocol_live.py:986-999 | every extension is exact, whatever was evicted, if and only if no create lies between two occurrences of one event |
| CoverageRepeats.RepeatedEventsUndercount | scripts/factory_gate_protocol_live.py:930-1017 | a call with an honest index that returns a wrong count on a log with a repeated event |
| Coverage.Journal.constructor | scripts/factory_gate_protocol_live.py:902-916 | a journal begins without files |
| Coverage.Journal.Store | scripts/factory_gate_protocol_live.py:999-1015 | the window is written before the index, and a crash leaves what the step reached |
| Coverage.Journal.Advance | scripts/factory_gate_protocol_live.py:930-1017 | a call on the files is the call whose exactness is proved |
| Coverage.WorkerCounter.constructor | scripts/factory_gate_protocol_live.py:888-900 | a session begins with nothing counted |
| Coverage.WorkerCounter.Count | scripts/factory_gate_protocol_live.py:888-900 | exactly one identified create is accepted; a recovering session adds nothing |
| Coverage.CountingTelescopes | scripts/factory_gate_protocol_live.py:888-900 | repeated counting adds in all how far the longest list exceeds the start |
| Qualification.StepKeeps | scripts/factory_gate_protocol_live.py:278-435 | every step of a preflight and of the product, short of a start that overlaps an old command, keeps the qualification invariant |
| Qualification.QualifiedAtMostOnce | scripts/factory_gate_protocol_live.py:278-435 | over any sequence of crashed and retried preflights in which no retry overlaps an old command at most one run is committed, its intent stays durable, and a record names a run the intent did not see, with the request of that run, issue and terms |
| Qualification.RecoverExactly | scripts/factory_gate_protocol_live.py:357-400 | no new run of the issue leads to discarding, a single new run that is ready and repeats the intent leads to saving that run, anything else stops; intent, record and product are unchanged |
| Qualification.RespondExactly | scripts/factory_gate_protocol_live.py:1182-1228 | the answered run is saved exactly when it is ready and repeats the intent; otherwise the preflight stops, and nothing else changes |
| Qualification.SavedIsReady | scripts/factory_gate_protocol_live.py:357-400 | whatever step decides to save a record, its run is ready and repeats the intent at that moment |
| Qualification.RecordWasReady | scripts/factory_gate_protocol_live.py:278-435 | every record a run of preflights saves was adopted at a step at which its run was ready and repeated the intent |
| Qualification.UndisturbedQualifies | scripts/factory_gate_protocol_live.py:278-435 | an undisturbed preflight ends with the record of the run its command committed |
| Qualification.CrashedPreflightIsRecovered | scripts/factory_gate_protocol_live.py:357-400 | a preflight that dies after the commit is recovered with the same record and no second run |
| Qualification.ShownCreateHolds | scripts/factory_gate_protocol_live.py:402-435 | a create that shows keeps the intent from being discarded |
| Qualification.RecordNamesOurRun | scripts/factory_gate_protocol_live.py:1182-1228 | a qualified record names the one run that was committed, if nobody else runs the issue |
| Qualification.DiscardedOnlyWhenNothingCommitted | scripts/factory_gate_protocol_live.py:402-435 | an intent is discarded only when nothing of it was or can be committed and no create shows |
| Qualification.OverlapCommitsTwice | scripts/factory_gate_protocol_live.py:357-400 | a recovery that overlaps an old product command leads to two committed runs |
| Qualification.CrashedPreflightQualifiesTwice | scripts/factory_gate_protocol_live.py:278-435 | from the start, one crash and one retry lead to two committed runs |
| Qualification.EvictedCreateCommitsTwice | scripts/factory_gate_protocol_live.py:402-435 | a create that shows at the start of a retry and is evicted before the discard does not prevent two committed runs |
| Qualification.RetrySafeExactlyWhenCalm | scripts/factory_gate_protocol_live.py:357-435 | a start keeps the product qualified at most once if and only if no old command can still commit, or a record or a run of the issue is there |
| CancelQualification.StepKeeps | scripts/factory_gate_protocol_live.py:1433-1535 | every step of a cancellation preflight and of its commands, overlaps included, keeps the invariant that a start is issued at most once |
| CancelQualification.StartedAtMostOnce | scripts/factory_gate_protocol_live.py:1433-1535 | over any sequence of crashed, retried and overlapping preflights the cancellation run is started at most once, its intent and request stand, and a record describes the request it was started from |
| CancelQualification.GoesOnOnlyWhenChecked | scripts/factory_gate_protocol_live.py:1433-1535 | what a preflight has found when it discards, intends, starts and saves |
| CancelQualification.UndisturbedQualifies | scripts/factory_gate_protocol_live.py:1433-1535 | an undisturbed preflight starts the run once and records the terms of its intent |
| CancelQualification.CrashedPreflightIsRecovered | scripts/factory_gate_protocol_live.py:357-400 | a preflight that dies once its run is started is recovered with the same terms and no second start |
| CancelQualification.UnbuiltIntentIsDiscarded | scripts/factory_gate_protocol_live.py:402-435 | an intent without file and ledger is discarded by a retry, or kept while a create shows |
| Evidence.MissingKeys | scripts/factory_gate_evidence.py:276-344 | no keys are reported missing exactly when all are there |
| Evidence.CheckFrame | scripts/factory_gate_evidence.py:276-344 | no problems exactly for a well-formed frame |
| Evidence.CheckAssertion | scripts/factory_gate_evidence.py:276-344 | no problems exactly for a well-formed assertion entry |
| Evidence.CheckAssertions | scripts/factory_gate_evidence.py:276-344 | no problems exactly for well-formed entries without repeated ids |
| Evidence.CheckControls | scripts/factory_gate_evidence.py:276-344 | no problems exactly for well-formed controls |
| Evidence.Validate | scripts/factory_gate_evidence.py:276-344 | no problems exactly for a well-formed document |
| Evidence.ExitCodeFor | scripts/factory_gate_evidence.py:258-273 | zero exactly for a complete pass, three exactly for a well-formed hold, one otherwise |
| Evidence.ExitOnFields | scripts/factory_gate_evidence.py:258-344 | the same on the fields of the document: which keys and texts it has, that every entry is complete and its id unrepeated, and for zero that every assertion and control passed |
| Evidence.FrameOnFields | scripts/factory_gate_evidence.py:276-344 | the frame is accepted exactly for the schema, keys and texts written out |
| EvidenceBuilder.RecordingKeepsValid | scripts/factory_gate_evidence.py:85-175 | any sequence of recording calls keeps the builder's invariant |
| EvidenceBuilder.AssertExactly | scripts/factory_gate_evidence.py:85-130 | an assertion is recorded exactly when the scenario lists it, it was not recorded before and it was observed; it is then the one new entry, described by the call or else by the list |
| EvidenceBuilder.NotRunExactly | scripts/factory_gate_evidence.py:183-205 | an assertion never recorded contributes an entry that did not run and fails, with the reason that is true |
| EvidenceBuilder.DraftWellFormed | scripts/factory_gate_evidence.py:207-255 | the built document validates exactly when its frame is complete, its reason is not empty and every pass has a command |
| EvidenceBuilder.ReasonIsText | scripts/factory_gate_evidence.py:207-255 | the reason is empty only for an empty hold or abort reason |
| EvidenceBuilder.ReasonExactly | scripts/factory_gate_evidence.py:207-255 | without hold and abort the reason says that all passed exactly when nothing failed, and otherwise names what did |
| EvidenceBuilder.PassingExactly | scripts/factory_gate_evidence.py:183-255 | passing means no hold, no abort, something required, nothing failed and every pass commanded |
| EvidenceBuilder.ExitCodeExactly | scripts/factory_gate_evidence.py:207-273 | for every reachable builder state the exit code is zero exactly when everything required passed with a complete frame, and three exactly for a stated hold |
| EvidenceBuilder.FailureIsForever | scripts/factory_gate_evidence.py:85-175 | no later call undoes a recorded failure or an abort |
| EvidenceBuilder.FailureNeverPasses | scripts/factory_gate_evidence.py:85-273 | once anything failed, whatever is recorded later, the exit code is not zero |
| EvidenceBuilder.ScrubbingNeverPasses | scripts/factory_gate_evidence.py:207-255 | scrubbing that keeps the verdict field cannot turn a hold or failure into a pass |
| EvidenceBuilder.Builder.constructor | scripts/factory_gate_evidence.py:58-81 | a builder begins with nothing recorded |
| EvidenceBuilder.Builder.Assertion | scripts/factory_gate_evidence.py:85-130 | records once, for a required id with an observer and the raw writer's reference where it has none, or rejects and changes nothing |
| EvidenceBuilder.Builder.Fail | scripts/factory_gate_evidence.py:132-146 | records a failure that did not run, and leaves an earlier record alone |
| EvidenceBuilder.Builder.RecordControlResult | scripts/factory_gate_evidence.py:148-169 | appends a control with a new id, or rejects and changes nothing |
| EvidenceBuilder.Builder.HoldFor | scripts/factory_gate_evidence.py:171-175 | sets the hold reason |
| EvidenceBuilder.Builder.AbortFor | scripts/factory_gate_evidence.py:171-175 | keeps the first abort reason that is not empty |
| EvidenceBuilder.Builder.CompleteAssertions | scripts/factory_gate_evidence.py:183-205 | one entry per required assertion, in order, those not recorded failing |
| EvidenceBuilder.Builder.Build | scripts/factory_gate_evidence.py:207-255 | the draft of the recorded state, turned into a failure when it does not validate |
| Auth.GatewayHoldReason | scripts/factory_gate_auth.py:433-458 | the first refused forward is the reason, missing usage only without one, and none exactly when neither occurs |
| Auth.ViolationFailsAnAssertion | scripts/factory_gate_auth.py:882-1141 | every violated security fact fails a recorded assertion |
| Auth.SecurityViolationAlwaysFails | scripts/factory_gate_auth.py:461-485 | a violated security fact never ends with exit code zero, whatever is recorded later, and ends with one unless a later call holds |
| Auth.HoldsExactly | scripts/factory_gate_auth.py:461-485 | the scenario holds exactly on a live cleaned-up deadline or a session the gateway kept from being judged |
| Auth.AuthPassesExactly | scripts/factory_gate_auth.py:461-1141 | the scenario exits with zero exactly for a clean session that can be judged and whose remaining assertions pass, fact by fact |
| Auth.TimeoutFailsBoth | scripts/factory_gate_auth.py:882-1141 | a session that ran into its deadline is recorded as neither completed nor within it |
| Auth.SecurityExactly | scripts/factory_gate_auth.py:882-1141 | which of the facts make each security assertion pass |
| Runtime.RuntimeIdIsValid | scripts/enginery_runtime.py:109-133 | the identifier an install derives is one that loading accepts |
| Runtime.ValidIdExactly | scripts/enginery_runtime.py:56-84 | an identifier is accepted exactly when it is a version, a dash and twelve digits over the alphabets written out |
| Runtime.InstallDoneExactly | scripts/enginery_runtime.py:222-279 | an install goes through exactly when wheel, confirmation, shim and target allow it and nothing fails, and then puts the new runtime in front of the old ones |
| Runtime.InstallRefusesExactly | scripts/enginery_runtime.py:222-279 | on any disk an install is refused exactly for a bad wheel, a missing confirmation, a foreign shim, an unreadable state or a present target, and then changes nothing |
| Runtime.FailedInstallChangesNothing | scripts/enginery_runtime.py:234-279 | a refused install changes nothing; a failed one changes nothing if and only if its directory is removed and state and shim are as they were |
| Runtime.InstallKeepsExactly | scripts/enginery_runtime.py:187-279 | an install keeps the tool's files consistent unless it stops with the new shim and the old state, or with the new state and without its runtime; and then it does not |
| Runtime.InterruptedRenameBreaksTheState | scripts/enginery_runtime.py:187-279 | an interrupt during the rename of the shim leaves the old state and a shim that points at a deleted runtime |
| Runtime.RollbackKeepsValid | scripts/enginery_runtime.py:316-360 | a rollback keeps them consistent whatever fault or crash it meets |
| Runtime.RollbackGuards | scripts/enginery_runtime.py:316-360 | a rollback switches only past ledgers the target can use, and otherwise changes nothing |
| Runtime.RollbackDoneExactly | scripts/enginery_runtime.py:316-360 | on a consistent disk a rollback goes through exactly when there is a current runtime and one before it, the shim is the tool's own and every ledger has at most the supported version; it then exchanges the two |
| Runtime.RollbackIsAnInvolution | scripts/enginery_runtime.py:316-360 | two rollbacks restore state and shim |
| Runtime.ExchangeTwice | scripts/enginery_runtime.py:316-360 | exchanging twice is the identity, and exchanging conserves the retained runtimes |
| Runtime.BlockingExactly | scripts/enginery_runtime.py:316-360 | nothing blocks exactly when every ledger is readable with at most the supported version; a path is listed exactly when some ledger at it is not |
| Runtime.InspectLedgers | scripts/enginery_runtime.py:316-360 | the inspection loop lists exactly the paths of ledgers that are unreadable or of a later version |
| Runtime.EveryRunKeepsValid | scripts/enginery_runtime.py:66-360 | over any run of installs and rollbacks with faults, interrupts and crashes at every step, short of an install that breaks the state, the state loads, its entries are distinct finished runtimes and the shim points at one of them |
| Runtime.Manager.constructor | scripts/enginery_runtime.py:66-84 | the manager works on the disk it is given |
| Runtime.Manager.Switch | scripts/enginery_runtime.py:187-220 | the two replaces and the undo, stopped at any point, leave the disk the activation describes |
| Runtime.Manager.InstallCopy | scripts/enginery_runtime.py:234-279 | the install keeps the files consistent unless it breaks the state, and a failure changes nothing exactly when all of it is undone |
| Runtime.Manager.RollBack | scripts/enginery_runtime.py:316-360 | exactly the paths of unusable ledgers are reported and then nothing is changed; the files stay consistent; without a fault it goes through exactly when nothing is in the way |
| Records.ReadTable | scripts/factory_gate_identity_probe.py:24-30 | a table is read exactly from well-formed rows with distinct names, and holds each row's entry |
| Records.SafeNameExactly | scripts/factory_gate_identity_probe.py:33-41 | a safe name is the current directory or plain components without backslash and NUL |
| Records.SafeNamesAreDistinctPaths | scripts/factory_gate_identity_probe.py:33-41 | two safe names that lead to the same place are equal |
| Records.CountingNames | scripts/factory_gate_identity_probe.py:53-56 | comparing counts finds exactly the repeated names |
| Records.CheckMembers | scripts/factory_gate_identity_probe.py:53-58 | accepts exactly distinct, safe members that are no links |
| Records.CheckPayloads | scripts/factory_gate_identity_probe.py:69-79 | accepts exactly when every payload agrees in both tables, the wheel and the installation |
| Records.CheckExtras | scripts/factory_gate_identity_probe.py:80-100 | accepts exactly when every further installed entry is one installers write |
| Records.GeneratedExactly | scripts/factory_gate_identity_probe.py:80-100 | the four files an installer may leave beside a RECORD, written out |
| Records.BytecodeExactly | scripts/factory_gate_identity_probe.py:80-100 | an entry is bytecode exactly when it is a compiled module in the cache beside a source that the wheel has |
| Records.LauncherExactly | scripts/factory_gate_identity_probe.py:80-100 | a file is the launcher exactly when it is called enginery and resolves to the environment's own script |
| Records.VerifyRecords | scripts/factory_gate_identity_probe.py:50-101 | accepts exactly the installations of the wheel, and returns the digest of its RECORD |
| Records.AcceptedMeansInstalled | scripts/factory_gate_identity_probe.py:69-79 | every payload of an accepted wheel is installed byte for byte inside the root, and the installed RECORD has its digest and size |
| Records.CopyIsAccepted | scripts/factory_gate_identity_probe.py:50-101 | a wheel whose RECORD describes its payloads, copied into place, is accepted |
| Records.RecordIsNotInstallers | scripts/factory_gate_identity_probe.py:80-100 | a RECORD is never taken for something an installer writes |
| Records.AcceptedWheelsShareTheRecord | scripts/factory_gate_identity_probe.py:59-68 | two wheels accepted against one installation have their RECORD under one name |
| Records.AcceptedWheelsAgree | scripts/factory_gate_identity_probe.py:50-101 | they agree on every payload that is not of a kind installers write |
| Records.DigestIdentifiesTheWheel | scripts/factory_gate_identity_probe.py:50-101 | accepted wheels with the same reported digest hold the same members |
| FrozenIndex.StepKeeps | scripts/factory_gate_manual_bootstrap.py:530-557 | every step of every freezer keeps the publication invariant |
| FrozenIndex.IndexNeverChanges | scripts/factory_gate_manual_bootstrap.py:530-557 | once present the index never changes, under any interleaving, failure or crash |
| FrozenIndex.IndexIsAbsentOrComplete | scripts/factory_gate_manual_bootstrap.py:530-557 | the index is absent or holds in full the text of a freezer without reasons against it whose nine prerequisites, written out, had passed |
| FrozenIndex.SuccessesAgree | scripts/factory_gate_manual_bootstrap.py:530-557 | every success reports the digest of its own text, so all successes agree, and leaves no temporary file |
| FrozenIndex.TemporariesAreFollowed | scripts/factory_gate_manual_bootstrap.py:530-557 | after every run a temporary file is named exactly while its freezer writes, stages or settles, unless the freezer stopped |
| FrozenIndex.LosesExactly | scripts/factory_gate_manual_bootstrap.py:530-557 | a freezer fails exactly when it may not publish or finds another text in place, and leaves the index as it is and, if it was beaten, no temporary file |
| FrozenIndex.UndisturbedSucceedsExactly | scripts/factory_gate_manual_bootstrap.py:910-930 | without a fault a freezer succeeds exactly when its nine prerequisites passed without reasons against it, and the index was absent or its own |
| Receipts.ReadArtifact | scripts/factory_gate_bootstrap_probe.py:115-128 | an artifact is read exactly when it is intact and, as a receipt, canonical with all its captures |
| Receipts.CheckCaptures | scripts/factory_gate_bootstrap_probe.py:125-128 | accepts exactly when every capture is readable with its size |
| Receipts.Walk | scripts/factory_gate_bootstrap_probe.py:109-130 | the loop ends on every store, cyclic ones too, with the result of the walk |
| Receipts.WalkEstablishes | scripts/factory_gate_bootstrap_probe.py:111-130 | a walk that ends has followed every receipt it read, unless it was a capture; one that refuses met something unsound |
| Receipts.AcceptanceExactly | scripts/factory_gate_bootstrap_probe.py:103-133 | all that is reachable is sound if and only if the walk accepts and the captured receipts are sound |
| Receipts.WalkIsReachability | scripts/factory_gate_bootstrap_probe.py:103-133 | with plain captures the walk accepts exactly when everything reachable is sound, has read it all, and returns exactly the reachable receipts |
| Receipts.CapturedReceiptHidesItsInput | scripts/factory_gate_bootstrap_probe.py:125-129 | a captured receipt whose missing input goes unnoticed |
| Receipts.Unique | scripts/factory_gate_bootstrap_probe.py:110-110 | the references without repetition, none lost |
| Receipts.CheckStore | scripts/factory_gate_bootstrap_probe.py:131-133 | the sweep accepts exactly an intact store |
| Receipts.CheckBoundStores | scripts/factory_gate_bootstrap_probe.py:134-143 | accepts exactly when every other store is intact and holds the digests bound to it |
| Receipts.Project | scripts/factory_gate_bootstrap_probe.py:103-147 | reports the whole store as verified, and accepts exactly what is sound and intact when captured receipts are sound |
| Boundaries.AllowedGoesInward | scripts/check_import_boundaries.py:25-75 | every allowed import stays in its layer or goes strictly inward |
| Boundaries.AllowedExactly | scripts/check_import_boundaries.py:25-75 | the table read the other way: which layers may import each layer |
| Boundaries.TargetIsSecondPart | scripts/check_import_boundaries.py:134-138 | the target layer is the second component of a name of the package |
| Boundaries.CandidatesCoverEveryLayer | scripts/check_import_boundaries.py:121-131 | whatever layer a from-import can load from, some candidate lies in it |
| Boundaries.RelativeIsAbsolute | scripts/check_import_boundaries.py:107-131 | a relative import in range has the candidates of its absolute form |
| Boundaries.OutOfRangeIsAbsolute | scripts/check_import_boundaries.py:107-118 | one beyond the top package is read as an absolute import |
| Boundaries.FindViolations | scripts/check_import_boundaries.py:141-160 | reports exactly the imports the table does not allow |
| Boundaries.ForbiddenExactly | scripts/check_import_boundaries.py:134-160 | an import is forbidden exactly when it lies in a part of the package that no layer open to the importer is called |
| Boundaries.FilesExactly | scripts/check_import_boundaries.py:141-160 | a violation is listed if and only if a file of the layer has that import and the table forbids it |
| Boundaries.NoChainReturns | scripts/check_import_boundaries.py:25-75 | in a tree without violations no chain of imports returns to a layer it left |

## Left out

- Configuration, environment probing, container, git, GitHub and terminal plumbing: their results are inputs.
- The stand-in (local) mode of the protocol scenario, reuse records and `record_reuse`: they change nothing in the slots.
- Manifests altered outside the tool: the model starts from a new campaign.
- The remote-branch checks of a cancellation preflight: they can only stop it.
- A launching command is taken to create at most one container, as the product promises with its repair limit of zero.
- Power loss: a crash stops a process, and what it wrote stays written; the flushes to disk are not modelled.
- Hashing, base64, zip, CSV and JSON decoding: digests are injective and documents, rows and members are given.
- Floating-point numbers in JSON documents, and the texts and order of validation problems.
- `pr_problems`, `_usage`, `count_created_containers` and `installed_identity`: easy scans that would add only easy members.
- Campaign.TransitionKeeps: the free observations a transition may carry are not modelled; no call passes any, and one that named the history or the owner would overwrite it.
- Campaign.FinalizeKeeps: of the free observations only the reconciliation is modelled, the one that is ever passed.
- CampaignStore.Store.Transition: as Campaign.TransitionKeeps.
- CampaignStore.Store.Finalize: as Campaign.FinalizeKeeps.
- Coverage.Journal.Advance: the secret scrubbing of saved windows is not modelled, and the index is missing, torn or as an earlier call wrote it, since no digest binds it; the windows may be anything.
- EvidenceBuilder.Builder.Build: models documents the scrubber leaves as they are; `EvidenceBuilder.ScrubbingNeverPasses` covers the others.
- CampaignStore.Store.ReconcileDead: inspects the single pending slot that the concurrency of one leaves, where the source loops over a list.
- Recovery.RecoveredSuccessExactly: a failure of any file or product command during recovery is one input, not one per command.
- Records.VerifyRecords: directory entries of the archive are not members, and resolving a path is an input.
- FrozenIndex.UndisturbedSucceedsExactly: the index text is given; how it is assembled is not modelled.
- Receipts.AcceptanceExactly: the condition is about the artifacts a captured receipt leads to; the order of the worklist decides whether such a receipt is followed, so no condition on the captures alone is exact.
