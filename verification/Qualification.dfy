/**
 Intent-first qualification of a completed-workflow slot (`preflight` and its helpers in
 `scripts/factory_gate_protocol_live.py`).

 A preflight writes a durable intent, issues the product command that can commit a run, and at last
 writes the qualified record.  It may crash anywhere, and a later preflight recovers.  The product
 command is a process of its own: it may commit after the preflight that issued it is gone.  Only
 one preflight runs at a time.
 */
module Qualification {
  import opened Common

  type RunId = string

  /** A durable product request; `terms` stands for every other field the intent is compared with. */
  datatype Request = Request(runId: RunId, reference: string, terms: string)

  /** A product run; it is ready when it is not held and its next action is its first worker. */
  datatype Run = Run(reference: string, ready: bool, request: Request)

  datatype Intent = Intent(reference: string, existing: set<RunId>, terms: string)

  datatype Record = Record(runId: RunId, request: Request)

  /** `_match_intent_request`. */
  predicate Matches(intent: Intent, request: Request, runId: RunId) {
    request.runId == runId && request.reference == intent.reference && request.terms == intent.terms
  }

  datatype Pc =
    | Idle
    | Recovering            // an intent without a record was found
    | Discarding            // the product shows nothing that intent could have committed
    | Checking              // about to qualify afresh
    | Intending(seen: set<RunId>)
    | Committing            // the intent is durable
    | Awaiting              // the product command was issued
    | Saving(qualified: Record)

  datatype World = World(
    reference: string,          // the issue the campaign binds to this slot
    intent: Option<Intent>,
    record: Option<Record>,
    runs: map<RunId, Run>,      // the product's ledger
    ours: set<RunId>,           // the runs our commands committed
    commands: seq<Intent>,      // our commands that may still commit
    reply: Option<RunId>,       // what the awaited command answered
    creates: bool,              // the engine still shows a worker create this intent could own
    pc: Pc)

  function Initial(reference: string, runs: map<RunId, Run>): World {
    World(reference, None, None, runs, {}, [], None, false, Idle)
  }

  datatype Action =
    | Start
    | Recover
    | Discard
    | Check
    | WriteIntent(terms: string)
    | Issue
    | Respond
    | Save
    | Stop                                            // a hold is raised, or the process dies
    | Commit(index: nat, runId: RunId, ready: bool, request: Request)
    | CommandEnds(index: nat)
    | OtherRun(runId: RunId, run: Run)                // somebody else uses the product
    | RunMoves(runId: RunId, ready: bool)
    | CreateAppears
    | CreateEvicted

  predicate Enabled(w: World, a: Action) {
    match a
    case Start => w.pc.Idle?
    case Recover => w.pc.Recovering? && w.intent.Some?
    case Discard => w.pc.Discarding?
    case Check => w.pc.Checking?
    case WriteIntent(_) => w.pc.Intending?
    case Issue => w.pc.Committing? && w.intent.Some?
    case Respond => w.pc.Awaiting? && w.intent.Some? && w.commands == []
    case Save => w.pc.Saving?
    case Stop => true
    case Commit(index, runId, _, _) => index < |w.commands| && runId !in w.runs
    case CommandEnds(index) => index < |w.commands|
    case OtherRun(runId, _) => runId !in w.runs
    case RunMoves(runId, _) => runId in w.runs
    case CreateAppears => true
    case CreateEvicted => true
  }

  /** Runs of the intent's issue that did not exist when the intent was written. */
  function NewRuns(w: World, intent: Intent): set<RunId> {
    set id | id in w.runs && w.runs[id].reference == intent.reference && id !in intent.existing
  }

  /** The run can be adopted as the one this intent qualified. */
  predicate Adoptable(w: World, intent: Intent, id: RunId) {
    id in w.runs && w.runs[id].ready && Matches(intent, w.runs[id].request, id)
  }

  predicate Fresh(w: World) {
    forall id | id in w.runs :: w.runs[id].reference != w.reference
  }

  ghost function Apply(w: World, a: Action): World
    requires Enabled(w, a)
  {
    match a
    case Start => w.(pc := if w.record.Some? then Idle else if w.intent.Some? then Recovering else Checking)
    case Recover =>
      var runs := NewRuns(w, w.intent.value);
      if runs == {} then w.(pc := Discarding)
      else if exists id :: runs == {id} && Adoptable(w, w.intent.value, id) then
        var id :| runs == {id} && Adoptable(w, w.intent.value, id);
        w.(pc := Saving(Record(id, w.runs[id].request)))
      else w.(pc := Idle)
    case Discard => if w.creates then w.(pc := Idle) else w.(intent := None, pc := Checking)
    case Check => if Fresh(w) then w.(pc := Intending(w.runs.Keys)) else w.(pc := Idle)
    case WriteIntent(terms) => w.(intent := Some(Intent(w.reference, w.pc.seen, terms)), pc := Committing)
    case Issue => w.(commands := w.commands + [w.intent.value], reply := None, pc := Awaiting)
    case Respond =>
      if w.reply.Some? && Adoptable(w, w.intent.value, w.reply.value) then
        w.(pc := Saving(Record(w.reply.value, w.runs[w.reply.value].request)))
      else w.(pc := Idle)
    case Save => w.(record := Some(w.pc.qualified), pc := Idle)
    case Stop => w.(pc := Idle, reply := None)
    case Commit(index, runId, ready, request) =>
      w.(runs := w.runs[runId := Run(w.commands[index].reference, ready, request)],
         ours := w.ours + {runId},
         commands := w.commands[..index] + w.commands[index + 1..],
         reply := if w.pc.Awaiting? then Some(runId) else None)
    case CommandEnds(index) => w.(commands := w.commands[..index] + w.commands[index + 1..])
    case OtherRun(runId, run) => w.(runs := w.runs[runId := run])
    case RunMoves(runId, ready) => w.(runs := w.runs[runId := w.runs[runId].(ready := ready)])
    case CreateAppears => w.(creates := true)
    case CreateEvicted => w.(creates := false)
  }

  // --- The invariant -------------------------------------------------------------------------

  /** These runs exist and are not of the bound issue. */
  ghost predicate Foreign(w: World, ids: set<RunId>) {
    forall id | id in ids :: id in w.runs && w.runs[id].reference != w.reference
  }

  /** The intent stands behind a command that may still commit, and behind a run it committed. */
  ghost predicate IntentFirst(w: World) {
    && (w.commands != [] || w.ours != {} ==> w.intent.Some?)
    && (forall k | 0 <= k < |w.commands| :: w.commands[k] == w.intent.value)
    && (forall id | id in w.ours :: id !in w.intent.value.existing)
    && (w.commands != [] || w.pc.Committing? ==> w.intent.Some?)
    && (w.intent.Some? ==> w.intent.value.reference == w.reference && Foreign(w, w.intent.value.existing))
    && (w.pc.Intending? ==> Foreign(w, w.pc.seen))
  }

  ghost predicate AtMostOnce(w: World) {
    && |w.commands| + |w.ours| <= 1
    && (forall id | id in w.ours :: id in w.runs && w.runs[id].reference == w.reference)
  }

  /** No command of an earlier preflight is pending while a preflight decides what to do. */
  ghost predicate Deciding(w: World) {
    && (w.pc.Recovering? || w.pc.Discarding? || w.pc.Checking? || w.pc.Intending? || w.pc.Committing? ==>
          w.commands == [])
    && (w.pc.Discarding? || w.pc.Intending? || w.pc.Committing? ==> w.ours == {})
    && (w.pc.Awaiting? && w.reply.Some? ==> w.reply.value in w.ours)
    && (!w.pc.Idle? ==> w.record.None?)
  }

  /** A record names a run of the issue that the standing intent describes. */
  ghost predicate Faithful(w: World, record: Record) {
    && w.intent.Some?
    && record.runId in w.runs && record.runId !in w.intent.value.existing
    && w.runs[record.runId].reference == w.reference
    && w.runs[record.runId].request == record.request
    && Matches(w.intent.value, record.request, record.runId)
  }

  ghost predicate Records(w: World) {
    && (w.record.Some? ==> Faithful(w, w.record.value))
    && (w.pc.Saving? ==> Faithful(w, w.pc.qualified))
  }

  ghost predicate Inv(w: World) {
    IntentFirst(w) && AtMostOnce(w) && Deciding(w) && Records(w)
  }

  /** A preflight starts only when no command of an earlier one can still commit. */
  predicate Calm(w: World, a: Action) {
    a.Start? ==> w.commands == []
  }

  lemma OursIsSingle(w: World, id: RunId)
    requires AtMostOnce(w) && id in w.ours
    ensures w.ours == {id} && w.commands == []
  {
    assert {id} <= w.ours;
    var rest := w.ours - {id};
    assert |rest| == |w.ours| - 1;
  }

  lemma CommitKeeps(w: World, a: Action)
    requires Inv(w) && a.Commit? && Enabled(w, a)
    ensures Inv(Apply(w, a))
  {
    assert |w.commands| == 1 && w.ours == {} && a.index == 0;
    assert w.commands[..0] + w.commands[1..] == [];
    assert w.commands[0] == w.intent.value;
  }

  lemma RecoverKeeps(w: World, a: Action)
    requires Inv(w) && a.Recover? && Enabled(w, a)
    ensures Inv(Apply(w, a))
  {
    var runs := NewRuns(w, w.intent.value);
    assert forall id | id in w.ours :: id in runs;
    forall id | runs == {id} ensures id in runs {
    }
  }

  lemma CommandEndsKeeps(w: World, a: Action)
    requires Inv(w) && a.CommandEnds? && Enabled(w, a)
    ensures Inv(Apply(w, a))
  {
    assert w.commands[..a.index] + w.commands[a.index + 1..] == [];
  }

  /** Steps of the preflight itself, other than looking for what an earlier one committed. */
  lemma PreflightKeeps(w: World, a: Action)
    requires Inv(w) && Enabled(w, a) && Calm(w, a)
    requires a.Start? || a.Discard? || a.Check? || a.WriteIntent?
    ensures Inv(Apply(w, a))
  {
  }

  lemma QualifyingKeeps(w: World, a: Action)
    requires Inv(w) && Enabled(w, a)
    requires a.Issue? || a.Respond? || a.Save? || a.Stop?
    ensures Inv(Apply(w, a))
  {
  }

  /** What others do to the product and the engine. */
  lemma OutsideKeeps(w: World, a: Action)
    requires Inv(w) && Enabled(w, a)
    requires a.OtherRun? || a.RunMoves? || a.CreateAppears? || a.CreateEvicted?
    ensures Inv(Apply(w, a))
  {
  }

  lemma StepKeeps(w: World, a: Action)
    requires Inv(w) && Enabled(w, a) && Calm(w, a)
    ensures Inv(Apply(w, a))
  {
    if a.Commit? {
      CommitKeeps(w, a);
    } else if a.Recover? {
      RecoverKeeps(w, a);
    } else if a.CommandEnds? {
      CommandEndsKeeps(w, a);
    } else if a.Start? || a.Discard? || a.Check? || a.WriteIntent? {
      PreflightKeeps(w, a);
    } else if a.Issue? || a.Respond? || a.Save? || a.Stop? {
      QualifyingKeeps(w, a);
    } else {
      OutsideKeeps(w, a);
    }
  }

  // --- What recovering and responding do, exactly ---------------------------------------------

  /** The product shows a run of the intent's issue that its intent did not see. */
  ghost predicate ShowsNew(w: World, intent: Intent, id: RunId) {
    id in w.runs && w.runs[id].reference == intent.reference && id !in intent.existing
  }

  /** The run waits for its first worker, and its request repeats the intent. */
  ghost predicate ReadyFor(w: World, intent: Intent, id: RunId) {
    && id in w.runs && w.runs[id].ready
    && w.runs[id].request == Request(id, intent.reference, intent.terms)
  }

  lemma AdoptableExactly(w: World, intent: Intent, id: RunId)
    ensures Adoptable(w, intent, id) <==> ReadyFor(w, intent, id)
  {
  }

  lemma OnlyNewRun(w: World, intent: Intent, id: RunId)
    ensures NewRuns(w, intent) == {id} <==>
            ShowsNew(w, intent, id) && forall other | ShowsNew(w, intent, other) :: other == id
  {
    assert forall other :: other in NewRuns(w, intent) <==> ShowsNew(w, intent, other);
    if NewRuns(w, intent) == {id} {
      assert id in NewRuns(w, intent);
    }
  }

  /**
   A recovery that finds no new run goes on to discard the intent; one that finds a single new run,
   ready and repeating the intent, saves that run; any other stops.  It changes nothing else.
   */
  lemma RecoverExactly(w: World)
    requires w.pc.Recovering? && w.intent.Some?
    ensures var v, intent := Apply(w, Recover), w.intent.value;
            && v == w.(pc := v.pc) && (v.pc.Discarding? || v.pc.Saving? || v.pc.Idle?)
            && (v.pc.Discarding? <==> forall id :: !ShowsNew(w, intent, id))
            && (v.pc.Saving? <==>
                exists id :: && ShowsNew(w, intent, id) && ReadyFor(w, intent, id)
                             && forall other | ShowsNew(w, intent, other) :: other == id)
            && (v.pc.Saving? ==>
                  && ShowsNew(w, intent, v.pc.qualified.runId) && ReadyFor(w, intent, v.pc.qualified.runId)
                  && v.pc.qualified.request == w.runs[v.pc.qualified.runId].request)
  {
    var runs, intent := NewRuns(w, w.intent.value), w.intent.value;
    assert forall id :: id in runs <==> ShowsNew(w, intent, id);
    forall id
      ensures runs == {id} <==> ShowsNew(w, intent, id) && forall other | ShowsNew(w, intent, other) :: other == id
      ensures Adoptable(w, intent, id) <==> ReadyFor(w, intent, id)
    {
      OnlyNewRun(w, intent, id);
      AdoptableExactly(w, intent, id);
    }
  }

  /** The answer of the awaited command is saved when it names a ready run that repeats the intent. */
  lemma RespondExactly(w: World)
    requires Enabled(w, Respond)
    ensures var v, intent := Apply(w, Respond), w.intent.value;
            v == if w.reply.Some? && ReadyFor(w, intent, w.reply.value)
                 then w.(pc := Saving(Record(w.reply.value, Request(w.reply.value, intent.reference, intent.terms))))
                 else w.(pc := Idle)
  {
  }

  /** Whatever step decides to save a record, its run is ready and repeats the intent at that moment. */
  lemma SavedIsReady(w: World, a: Action)
    requires Enabled(w, a) && Apply(w, a).pc.Saving? && !w.pc.Saving?
    ensures w.intent.Some? && ReadyFor(w, w.intent.value, Apply(w, a).pc.qualified.runId)
    ensures var r := Apply(w, a).pc.qualified; r.request == w.runs[r.runId].request
  {
    if a.Recover? {
      RecoverExactly(w);
    }
  }

  /** What makes a preflight stop: a record, a run of the issue, a create that shows. */
  ghost predicate Halts(w: World, a: Action) {
    || (a.Start? && w.record.Some?)
    || (a.Check? && exists id | id in w.runs :: w.runs[id].reference == w.reference)
    || (a.Discard? && w.creates)
  }

  lemma HaltedChangesNothing(w: World, a: Action)
    requires Enabled(w, a) && Halts(w, a)
    ensures Apply(w, a) == w.(pc := Idle)
  {
  }

  /** Discarding removes the intent and nothing else; dying removes the pending answer and nothing else. */
  lemma DiscardAndStop(w: World)
    ensures w.pc.Discarding? && !w.creates ==> Apply(w, Discard) == w.(intent := None, pc := Checking)
    ensures Apply(w, Stop) == w.(reply := None, pc := Idle)
  {
  }

  /** What the product and others do to its ledger and to our commands. */
  lemma ProductMoves(w: World, a: Action)
    requires Enabled(w, a) && (a.Commit? || a.CommandEnds? || a.OtherRun? || a.RunMoves?)
    ensures var v := Apply(w, a);
            && v == w.(runs := v.runs, ours := v.ours, commands := v.commands, reply := v.reply)
            && |v.commands| == |w.commands| - (if a.Commit? || a.CommandEnds? then 1 else 0)
            && v.runs.Keys == w.runs.Keys + (if a.Commit? || a.OtherRun? then {a.runId} else {})
            && (a.OtherRun? ==> v.runs[a.runId] == a.run)
            && (a.RunMoves? ==> v.runs[a.runId] == w.runs[a.runId].(ready := a.ready))
            && (forall id | id in w.runs && !(a.RunMoves? && id == a.runId) :: v.runs[id] == w.runs[id])
            && v.ours == w.ours + (if a.Commit? then {a.runId} else {})
  {
  }

  // --- Runs ----------------------------------------------------------------------------------

  ghost predicate CanRun(w: World, actions: seq<Action>)
    decreases |actions|
  {
    actions == [] ||
    (Enabled(w, actions[0]) && CanRun(Apply(w, actions[0]), actions[1..]))
  }

  ghost function After(w: World, actions: seq<Action>): World
    requires CanRun(w, actions)
    decreases |actions|
  {
    if actions == [] then w else After(Apply(w, actions[0]), actions[1..])
  }

  /** No preflight of the run starts while a command of an earlier one can still commit. */
  ghost predicate AllCalm(w: World, actions: seq<Action>)
    requires CanRun(w, actions)
    decreases |actions|
  {
    actions == [] || (Calm(w, actions[0]) && AllCalm(Apply(w, actions[0]), actions[1..]))
  }

  lemma {:induction false} RunKeeps(w: World, actions: seq<Action>)
    requires Inv(w) && CanRun(w, actions) && AllCalm(w, actions)
    ensures Inv(After(w, actions)) && After(w, actions).reference == w.reference
    decreases |actions|
  {
    if actions != [] {
      StepKeeps(w, actions[0]);
      RunKeeps(Apply(w, actions[0]), actions[1..]);
    }
  }

  /**
   Over any sequence of crashed and retried preflights in which no retry overlaps a command of an
   earlier preflight, and whatever else happens to the product: our commands commit at most one run,
   the intent that describes it stays durable, and a qualified record describes a run of the bound
   issue that did not exist before its intent.
   */
  lemma QualifiedAtMostOnce(reference: string, runs: map<RunId, Run>, actions: seq<Action>)
    requires CanRun(Initial(reference, runs), actions) && AllCalm(Initial(reference, runs), actions)
    ensures var w := After(Initial(reference, runs), actions);
            && |w.ours| <= 1
            && (w.ours != {} ==> w.intent.Some? && w.ours !! w.intent.value.existing)
            && (w.record.Some? ==>
                  && w.intent.Some?
                  && w.record.value.runId in w.runs
                  && w.runs[w.record.value.runId].reference == reference
                  && w.record.value.runId !in w.intent.value.existing
                  && w.record.value.request == Request(w.record.value.runId, reference, w.intent.value.terms))
  {
    RunKeeps(Initial(reference, runs), actions);
  }

  /** Step `k` of the run adopted the record: its run was ready then and repeated the intent of then. */
  ghost predicate AdoptedAt(w: World, actions: seq<Action>, k: nat, record: Record) {
    && k < |actions| && CanRun(w, actions[..k])
    && var v := After(w, actions[..k]);
       && v.intent.Some? && ReadyFor(v, v.intent.value, record.runId)
       && v.runs[record.runId].request == record.request
  }

  lemma {:induction false} RunsSplit(w: World, actions: seq<Action>, k: nat)
    requires CanRun(w, actions) && k <= |actions|
    ensures CanRun(w, actions[..k]) && CanRun(After(w, actions[..k]), actions[k..])
    ensures After(w, actions) == After(After(w, actions[..k]), actions[k..])
    decreases k
  {
    if k == 0 {
      assert actions[..0] == [] && actions[0..] == actions;
    } else {
      RunsSplit(Apply(w, actions[0]), actions[1..], k - 1);
      assert actions[..k][1..] == actions[1..][..k - 1] && actions[1..][k - 1..] == actions[k..];
    }
  }

  lemma LastStep(w: World, actions: seq<Action>)
    requires CanRun(w, actions) && actions != []
    ensures var n := |actions| - 1;
            && CanRun(w, actions[..n]) && Enabled(After(w, actions[..n]), actions[n])
            && After(w, actions) == Apply(After(w, actions[..n]), actions[n])
  {
    var n := |actions| - 1;
    RunsSplit(w, actions, n);
    assert actions[n..] == [actions[n]] && actions[n..][1..] == [];
  }

  lemma AdoptedEarlier(w: World, actions: seq<Action>, n: nat, k: nat, record: Record)
    requires n <= |actions| && AdoptedAt(w, actions[..n], k, record)
    ensures AdoptedAt(w, actions, k, record)
  {
    assert actions[..n][..k] == actions[..k];
  }

  /** Every record that a run saves, or is about to save, was adopted from a run that was ready then. */
  lemma {:induction false} RecordWasReady(w: World, actions: seq<Action>, record: Record) returns (k: nat)
    requires CanRun(w, actions) && w.record.None? && !w.pc.Saving?
    requires After(w, actions).record == Some(record) || After(w, actions).pc == Saving(record)
    ensures AdoptedAt(w, actions, k, record)
    decreases |actions|
  {
    var n := |actions| - 1;
    LastStep(w, actions);
    var v := After(w, actions[..n]);
    if v.record == Some(record) || v.pc == Saving(record) {
      k := RecordWasReady(w, actions[..n], record);
      AdoptedEarlier(w, actions, n, k, record);
    } else {
      SavedIsReady(v, actions[n]);
      k := n;
    }
  }

  /** If nobody else runs the bound issue, the record names exactly the one run we committed. */
  lemma RecordNamesOurRun(w: World)
    requires Inv(w) && w.record.Some?
    requires forall id | id in w.runs && w.runs[id].reference == w.reference :: id in w.ours
    ensures w.ours == {w.record.value.runId}
  {
    OursIsSingle(w, w.record.value.runId);
  }

  /** An intent is discarded only when nothing of it was committed or can be, and no create shows. */
  lemma DiscardedOnlyWhenNothingCommitted(w: World, a: Action)
    requires Inv(w) && Enabled(w, a) && Calm(w, a)
    requires w.intent.Some? && Apply(w, a).intent.None?
    ensures w.ours == {} && w.commands == [] && !w.creates
  {
  }

  // --- What an undisturbed preflight reaches -----------------------------------------------

  /** Up to the commit: the intent names the issue and what existed, and the command has run. */
  lemma CommandCommits(reference: string, runs: map<RunId, Run>, id: RunId, terms: string)
    returns (w: World, actions: seq<Action>)
    requires (forall other | other in runs :: runs[other].reference != reference) && id !in runs
    ensures CanRun(Initial(reference, runs), actions) && w == After(Initial(reference, runs), actions)
    ensures var request := Request(id, reference, terms);
            w == World(reference, Some(Intent(reference, runs.Keys, terms)), None,
                       runs[id := Run(reference, true, request)], {id}, [], Some(id), false, Awaiting)
  {
    var w0 := Initial(reference, runs);
    var commit := Commit(0, id, true, Request(id, reference, terms));
    var w1 := Apply(w0, Start);
    var w2 := Apply(w1, Check);
    var w3 := Apply(w2, WriteIntent(terms));
    var w4 := Apply(w3, Issue);
    w := Apply(w4, commit);
    Then(w4, commit, []);
    Then(w3, Issue, [commit] + []);
    Then(w2, WriteIntent(terms), [Issue] + ([commit] + []));
    Then(w1, Check, [WriteIntent(terms)] + ([Issue] + ([commit] + [])));
    Then(w0, Start, [Check] + ([WriteIntent(terms)] + ([Issue] + ([commit] + []))));
    actions := [Start] + ([Check] + ([WriteIntent(terms)] + ([Issue] + ([commit] + []))));
  }

  /** An undisturbed preflight ends with the record of the run its command committed. */
  lemma UndisturbedQualifies(reference: string, runs: map<RunId, Run>, id: RunId, terms: string)
    returns (actions: seq<Action>)
    requires (forall other | other in runs :: runs[other].reference != reference) && id !in runs
    ensures CanRun(Initial(reference, runs), actions)
    ensures After(Initial(reference, runs), actions).record == Some(Record(id, Request(id, reference, terms)))
  {
    var w, first := CommandCommits(reference, runs, id, terms);
    Then(Apply(w, Respond), Save, []);
    Then(w, Respond, [Save] + []);
    RunsCompose(Initial(reference, runs), first, [Respond] + ([Save] + []));
    actions := first + ([Respond] + ([Save] + []));
  }

  /** A preflight that dies after its command committed is recovered: the retry saves the same record. */
  lemma CrashedPreflightIsRecovered(reference: string, runs: map<RunId, Run>, id: RunId, terms: string)
    returns (actions: seq<Action>)
    requires (forall other | other in runs :: runs[other].reference != reference) && id !in runs
    ensures CanRun(Initial(reference, runs), actions)
    ensures After(Initial(reference, runs), actions).record == Some(Record(id, Request(id, reference, terms)))
    ensures After(Initial(reference, runs), actions).ours == {id}
  {
    var w, first := CommandCommits(reference, runs, id, terms);
    var w1 := Apply(w, Stop);
    var w2 := Apply(w1, Start);
    RecoverExactly(w2);
    assert ShowsNew(w2, w2.intent.value, id) && ReadyFor(w2, w2.intent.value, id);
    var w3 := Apply(w2, Recover);
    Then(w3, Save, []);
    Then(w2, Recover, [Save] + []);
    Then(w1, Start, [Recover] + ([Save] + []));
    Then(w, Stop, [Start] + ([Recover] + ([Save] + [])));
    RunsCompose(Initial(reference, runs), first, [Stop] + ([Start] + ([Recover] + ([Save] + []))));
    actions := first + ([Stop] + ([Start] + ([Recover] + ([Save] + []))));
  }

  /** A worker create that shows keeps the intent from being discarded: the preflight stops with it. */
  lemma ShownCreateHolds(w: World)
    requires w.pc.Discarding?
    ensures Apply(Apply(w, CreateAppears), Discard) == w.(creates := true, pc := Idle)
  {
  }

  // --- The exact condition -------------------------------------------------------------------

  lemma {:induction false} LongerThanAll(ids: set<RunId>) returns (id: RunId)
    ensures forall other | other in ids :: |other| < |id|
  {
    if ids == {} {
      id := "";
    } else {
      var one :| one in ids;
      var rest := LongerThanAll(ids - {one});
      id := rest + one + "x";
      forall other | other in ids ensures |other| < |id| {
        assert other != one ==> other in ids - {one};
      }
    }
  }

  lemma Then(w: World, a: Action, rest: seq<Action>)
    requires Enabled(w, a) && CanRun(Apply(w, a), rest)
    ensures CanRun(w, [a] + rest) && After(w, [a] + rest) == After(Apply(w, a), rest)
    ensures Calm(w, a) && AllCalm(Apply(w, a), rest) ==> AllCalm(w, [a] + rest)
  {
    assert ([a] + rest)[1..] == rest;
  }

  /** Two commands of different preflights can both commit. */
  lemma BothCommit(w: World) returns (actions: seq<Action>)
    requires |w.commands| == 2 && w.ours == {}
    ensures CanRun(w, actions) && AllCalm(w, actions) && |After(w, actions).ours| == 2
  {
    var one := LongerThanAll(w.runs.Keys);
    var two := one + "x";
    var request := Request(one, "", "");
    var a, b := Commit(0, one, true, request), Commit(0, two, true, request);
    assert one !in w.runs && two !in w.runs;
    var v := Apply(w, a);
    assert |v.commands| == 1;
    var u := Apply(v, b);
    assert u.ours == {one, two};
    Then(v, b, []);
    Then(w, a, [b] + []);
    actions := [a] + ([b] + []);
  }

  /** A preflight that recovers while an old command is pending finds nothing and qualifies afresh. */
  lemma OverlapCommitsTwice(w: World) returns (actions: seq<Action>)
    requires w.pc.Recovering? && w.intent.Some? && w.intent.value.reference == w.reference
    requires |w.commands| == 1 && w.ours == {} && Fresh(w) && !w.creates
    ensures CanRun(w, actions) && AllCalm(w, actions) && |After(w, actions).ours| == 2
  {
    assert NewRuns(w, w.intent.value) == {};
    var w1 := Apply(w, Recover);
    var w2 := Apply(w1, Discard);
    var w3 := Apply(w2, Check);
    var w4 := Apply(w3, WriteIntent(""));
    var w5 := Apply(w4, Issue);
    actions := BothCommit(w5);
    Then(w4, Issue, actions);
    Then(w3, WriteIntent(""), [Issue] + actions);
    Then(w2, Check, [WriteIntent("")] + ([Issue] + actions));
    Then(w1, Discard, [Check] + ([WriteIntent("")] + ([Issue] + actions)));
    Then(w, Recover, [Discard] + ([Check] + ([WriteIntent("")] + ([Issue] + actions))));
    actions := [Recover] + ([Discard] + ([Check] + ([WriteIntent("")] + ([Issue] + actions))));
  }

  /** A preflight died after issuing its command, and the command has not committed yet. */
  lemma CommandIsLeftPending(reference: string, runs: map<RunId, Run>) returns (w: World, actions: seq<Action>)
    requires Fresh(Initial(reference, runs))
    ensures CanRun(Initial(reference, runs), actions) && AllCalm(Initial(reference, runs), actions)
    ensures w == After(Initial(reference, runs), actions)
    ensures Inv(w) && w.pc.Idle? && w.record.None? && w.intent.Some? && w.ours == {} && Fresh(w) && !w.creates
    ensures w.commands == [w.intent.value]
  {
    var w0 := Initial(reference, runs);
    var w1 := Apply(w0, Start);
    var w2 := Apply(w1, Check);
    var w3 := Apply(w2, WriteIntent("terms"));
    var w4 := Apply(w3, Issue);
    w := Apply(w4, Stop);
    Then(w4, Stop, []);
    Then(w3, Issue, [Stop] + []);
    Then(w2, WriteIntent("terms"), [Issue] + ([Stop] + []));
    Then(w1, Check, [WriteIntent("terms")] + ([Issue] + ([Stop] + [])));
    Then(w0, Start, [Check] + ([WriteIntent("terms")] + ([Issue] + ([Stop] + []))));
    actions := [Start] + ([Check] + ([WriteIntent("terms")] + ([Issue] + ([Stop] + []))));
    RunKeeps(w0, actions);
  }

  lemma {:induction false} RunsCompose(w: World, first: seq<Action>, second: seq<Action>)
    requires CanRun(w, first) && CanRun(After(w, first), second)
    ensures CanRun(w, first + second) && After(w, first + second) == After(After(w, first), second)
    decreases |first|
  {
    if first == [] {
      assert first + second == second;
    } else {
      assert (first + second)[1..] == first[1..] + second;
      RunsCompose(Apply(w, first[0]), first[1..], second);
    }
  }

  /** At most once is false: from the start, one crash and one retry lead to two committed runs. */
  lemma CrashedPreflightQualifiesTwice(reference: string, runs: map<RunId, Run>) returns (actions: seq<Action>)
    requires Fresh(Initial(reference, runs))
    ensures CanRun(Initial(reference, runs), actions) && |After(Initial(reference, runs), actions).ours| == 2
  {
    var w, first := CommandIsLeftPending(reference, runs);
    var rest := OverlapCommitsTwice(Apply(w, Start));
    Then(w, Start, rest);
    RunsCompose(Initial(reference, runs), first, [Start] + rest);
    actions := first + ([Start] + rest);
  }

  // --- What makes a retry harmless although a command is pending ------------------------------

  /** A record or a run of the issue stops every preflight before it could qualify afresh. */
  predicate Visible(w: World) {
    w.record.Some? || !Fresh(w)
  }

  ghost predicate Stopped(w: World) {
    && Visible(w) && w.intent.Some?
    && w.intent.value.reference == w.reference && Foreign(w, w.intent.value.existing)
    && |w.commands| + |w.ours| <= 1
    && (w.pc.Idle? || w.pc.Recovering? || w.pc.Saving?)
    && (w.pc.Recovering? ==> !Fresh(w))
  }

  lemma RemovedIsShorter(commands: seq<Intent>, index: nat)
    requires index < |commands|
    ensures |commands[..index] + commands[index + 1..]| == |commands| - 1
  {
  }

  lemma RunsOnlyGrow(w: World, a: Action)
    requires Enabled(w, a)
    ensures var v := Apply(w, a);
            && v.reference == w.reference && (w.record.Some? ==> v.record.Some?)
            && forall id | id in w.runs :: id in v.runs && v.runs[id].reference == w.runs[id].reference
  {
  }

  lemma StaysVisible(w: World, a: Action)
    requires Enabled(w, a)
    ensures !Fresh(w) ==> !Fresh(Apply(w, a))
    ensures Visible(w) ==> Visible(Apply(w, a))
  {
    RunsOnlyGrow(w, a);
    if !Fresh(w) {
      var id :| id in w.runs && w.runs[id].reference == w.reference;
      assert id in Apply(w, a).runs && Apply(w, a).runs[id].reference == w.reference;
    }
  }

  lemma ForeignKept(w: World, a: Action, ids: set<RunId>)
    requires Enabled(w, a) && Foreign(w, ids)
    ensures Foreign(Apply(w, a), ids)
  {
    RunsOnlyGrow(w, a);
  }

  lemma StoppedPlace(w: World, a: Action)
    requires Stopped(w) && Enabled(w, a)
    ensures var v := Apply(w, a);
            && v.intent == w.intent
            && (v.pc.Idle? || v.pc.Recovering? || v.pc.Saving?)
            && (v.pc.Recovering? ==> !Fresh(w))
  {
    if a.Recover? && !Fresh(w) {
      var id :| id in w.runs && w.runs[id].reference == w.reference;
      assert id in NewRuns(w, w.intent.value);
    }
  }

  lemma StoppedCommits(w: World, a: Action)
    requires Stopped(w) && Enabled(w, a)
    ensures |Apply(w, a).commands| + |Apply(w, a).ours| <= 1
  {
    if a.Commit? || a.CommandEnds? {
      RemovedIsShorter(w.commands, a.index);
    } else {
      StoppedPlace(w, a);
    }
  }

  lemma StoppedKept(w: World, a: Action)
    requires Stopped(w) && Enabled(w, a)
    ensures Stopped(Apply(w, a))
  {
    StoppedPlace(w, a);
    StoppedCommits(w, a);
    StaysVisible(w, a);
    RunsOnlyGrow(w, a);
    ForeignKept(w, a, w.intent.value.existing);
  }

  lemma {:induction false} StoppedRunKeeps(w: World, actions: seq<Action>)
    requires Stopped(w) && CanRun(w, actions)
    ensures |After(w, actions).ours| <= 1
    decreases |actions|
  {
    if actions != [] {
      StoppedKept(w, actions[0]);
      StoppedRunKeeps(Apply(w, actions[0]), actions[1..]);
    }
  }

  /** Whatever happens after this start, short of another overlap, one run at most is committed. */
  ghost predicate RetryIsSafe(w: World)
    requires w.pc.Idle?
  {
    forall actions | CanRun(Apply(w, Start), actions) && AllCalm(Apply(w, Start), actions) ::
      |After(Apply(w, Start), actions).ours| <= 1
  }

  /** A create that shows does not help: the engine may evict it before the intent is discarded. */
  lemma EvictedCreateCommitsTwice(w: World) returns (actions: seq<Action>)
    requires w.pc.Recovering? && w.intent.Some? && w.intent.value.reference == w.reference
    requires |w.commands| == 1 && w.ours == {} && Fresh(w)
    ensures CanRun(w, actions) && AllCalm(w, actions) && |After(w, actions).ours| == 2
  {
    var rest := OverlapCommitsTwice(Apply(w, CreateEvicted));
    Then(w, CreateEvicted, rest);
    actions := [CreateEvicted] + rest;
  }

  /**
   Starting a preflight keeps the product qualified at most once exactly when no command of an earlier
   one can still commit, or a record or a run of the issue is already there.  The source looks for
   these and for a worker create, not for whether the command of a crashed preflight has ended.
   */
  lemma RetrySafeExactlyWhenCalm(w: World)
    requires Inv(w) && w.pc.Idle?
    ensures RetryIsSafe(w) <==> Calm(w, Start) || Visible(w)
  {
    var v := Apply(w, Start);
    if Calm(w, Start) {
      StepKeeps(w, Start);
      forall actions | CanRun(v, actions) && AllCalm(v, actions) ensures |After(v, actions).ours| <= 1 {
        RunKeeps(v, actions);
      }
    } else if Visible(w) {
      forall actions | CanRun(v, actions) ensures |After(v, actions).ours| <= 1 {
        StoppedRunKeeps(v, actions);
      }
    } else {
      var actions := EvictedCreateCommitsTwice(v);
      assert CanRun(v, actions) && AllCalm(v, actions) && !(|After(v, actions).ours| <= 1);
    }
  }
}
