/**
 Create-once publication of the frozen bootstrap index (`scripts/factory_gate_manual_bootstrap.py`):
 any number of freezers share one directory and may stop at any step.
 */
module FrozenIndex {
  import opened Common
  import EvidenceBuilder

  // --- The machine ---------------------------------------------------------------------------

  datatype Phase =
    | Idle
    | Comparing              // the index was there at first look
    | Writing                // the temporary file exists and holds a prefix of the text
    | Staged                 // the temporary file is complete and flushed
    | Beaten                 // the link found the index in place
    | Settled                // the index holds the text; the temporary file is still named
    | Reporting              // about to hash the index for the report
    | Succeeded(digest: Digest)
    | Failed
    | Crashed

  /** The gate state a freezer starts from. */
  datatype Gate = Gate(reasons: seq<string>, assertions: map<string, EvidenceBuilder.Entry>)

  /** A freezer, with the index text it wants to publish. */
  datatype Freezer = Freezer(text: Bytes, gate: Gate, phase: Phase)

  /**
   `drafts` are file contents by the freezer that created them; a name, temporary or the index itself,
   refers to one of them, as a hard link does.
   */
  datatype World = World(index: Option<nat>, drafts: map<nat, Bytes>, temporaries: set<nat>, freezers: seq<Freezer>)

  datatype Action =
    | Look(p: nat)
    | Compare(p: nat)
    | Append(p: nat, count: nat)
    | Flush(p: nat)
    | Link(p: nat)
    | Recompare(p: nat)
    | Unlink(p: nat)
    | Report(p: nat)
    | Fail(p: nat, unlinked: bool)   // a file operation raises; the handler may fail to unlink too
    | Crash(p: nat)

  const REQUIRED: set<string> := {
    "campaign-evidence-reused", "current-head-open-pr", "human-action-decision", "observed-changed-behavior",
    "raw-and-product-recovery", "external-operator-recovery", "installed-wheel-identity",
    "known-defect-calibration", "frozen-bootstrap-index", "zero-worker-containers"}

  const PREREQUISITES: set<string> := REQUIRED - {"frozen-bootstrap-index"}

  /** `freeze` goes ahead: nothing has failed and every prerequisite ran and passed. */
  predicate Ready(gate: Gate) {
    gate.reasons == [] &&
    forall id | id in PREREQUISITES :: id in gate.assertions && gate.assertions[id].ran && gate.assertions[id].passed
  }

  predicate Passed(gate: Gate, id: string) {
    id in gate.assertions && gate.assertions[id].ran && gate.assertions[id].passed
  }

  /** What `Ready` comes to, assertion by assertion. */
  ghost predicate Prepared(gate: Gate) {
    && gate.reasons == []
    && Passed(gate, "campaign-evidence-reused") && Passed(gate, "current-head-open-pr")
    && Passed(gate, "human-action-decision") && Passed(gate, "observed-changed-behavior")
    && Passed(gate, "raw-and-product-recovery") && Passed(gate, "external-operator-recovery")
    && Passed(gate, "installed-wheel-identity") && Passed(gate, "known-defect-calibration")
    && Passed(gate, "zero-worker-containers")
  }

  lemma ReadyExactly(gate: Gate)
    ensures Ready(gate) <==> Prepared(gate)
  {
    forall id | id in PREREQUISITES ensures Ready(gate) ==> Passed(gate, id) {
    }
    if Ready(gate) {
      var nine := ["campaign-evidence-reused", "current-head-open-pr", "human-action-decision",
        "observed-changed-behavior", "raw-and-product-recovery", "external-operator-recovery",
        "installed-wheel-identity", "known-defect-calibration", "zero-worker-containers"];
      assert forall i | 0 <= i < 9 :: nine[i] in PREREQUISITES;
    }
  }

  /** What a reader of the index sees. */
  function Index(w: World): Option<Bytes> {
    if w.index.Some? && w.index.value in w.drafts then Some(w.drafts[w.index.value]) else None
  }

  function With(w: World, p: nat, phase: Phase): World
    requires p < |w.freezers|
  {
    w.(freezers := w.freezers[p := w.freezers[p].(phase := phase)])
  }

  predicate Live(phase: Phase) {
    !phase.Succeeded? && !phase.Failed? && !phase.Crashed?
  }

  predicate Enabled(w: World, a: Action) {
    && a.p < |w.freezers|
    && var phase := w.freezers[a.p].phase;
       match a
       case Look(_) => phase.Idle?
       case Compare(_) => phase.Comparing?
       case Append(_, _) => phase.Writing?
       case Flush(p) => phase.Writing? && p in w.drafts && w.drafts[p] == w.freezers[p].text
       case Link(_) => phase.Staged?
       case Recompare(_) => phase.Beaten?
       case Unlink(_) => phase.Settled?
       case Report(_) => phase.Reporting?
       case Fail(_, _) => Live(phase)
       case Crash(_) => Live(phase)
  }

  function Apply(w: World, a: Action): World
    requires Enabled(w, a)
  {
    var f := w.freezers[a.p];
    match a
    case Look(p) =>
      if !Ready(f.gate) then With(w, p, Failed)
      else if w.index.Some? then With(w, p, Comparing)
      else With(w.(drafts := w.drafts[p := []], temporaries := w.temporaries + {p}), p, Writing)
    case Compare(p) => With(w, p, if Index(w) == Some(f.text) then Reporting else Failed)
    case Append(p, count) =>
      if p in w.drafts && |w.drafts[p]| + count <= |f.text| then
        w.(drafts := w.drafts[p := f.text[..|w.drafts[p]| + count]])
      else w
    case Flush(p) => With(w, p, Staged)
    case Link(p) => if w.index.Some? then With(w, p, Beaten) else With(w.(index := Some(p)), p, Settled)
    case Recompare(p) =>
      if Index(w) == Some(f.text) then With(w, p, Settled)
      else With(w.(temporaries := w.temporaries - {p}), p, Failed)
    case Unlink(p) => With(w.(temporaries := w.temporaries - {p}), p, Reporting)
    case Report(p) => With(w, p, if Index(w).Some? then Succeeded(Sha256(Index(w).value)) else Failed)
    case Fail(p, unlinked) =>
      With(if unlinked then w.(temporaries := w.temporaries - {p}) else w, p, Failed)
    case Crash(p) => With(w, p, Crashed)
  }

  // --- The invariant -------------------------------------------------------------------------

  function DraftOf(w: World, p: nat): Option<Bytes> {
    if p in w.drafts then Some(w.drafts[p]) else None
  }

  /** A draft is a prefix of its freezer's text, and the whole of it once flushed. */
  ghost predicate Honest(f: Freezer, draft: Option<Bytes>) {
    && (f.phase.Idle? ==> draft.None?)
    && (f.phase.Writing? || f.phase.Staged? ==> Ready(f.gate) && draft.Some?)
    && (draft.Some? ==> draft.value <= f.text)
    && (f.phase.Staged? ==> draft.value == f.text)
  }

  ghost predicate DraftsAreHonest(w: World) {
    forall p | 0 <= p < |w.freezers| :: Honest(w.freezers[p], DraftOf(w, p))
  }

  /** The index, once there, is the finished draft of a freezer that was ready. */
  ghost predicate IndexIsComplete(w: World) {
    w.index.Some? ==>
      var q := w.index.value;
      && q < |w.freezers| && q in w.drafts && w.drafts[q] == w.freezers[q].text
      && Ready(w.freezers[q].gate) && !w.freezers[q].phase.Idle? && !w.freezers[q].phase.Writing?
  }

  /** Whoever got past the comparison holds exactly the text of the index. */
  ghost predicate WinnersMatch(w: World) {
    forall p | 0 <= p < |w.freezers| ::
      var f := w.freezers[p];
      && (f.phase.Settled? || f.phase.Reporting? ==> Index(w) == Some(f.text))
      && (f.phase.Succeeded? ==> Index(w) == Some(f.text) && f.phase.digest == Sha256(f.text))
  }

  /** A temporary name belongs to a freezer at work on it, or to one that died or could not clean up. */
  ghost predicate TemporariesAreOwned(w: World) {
    forall p | p in w.temporaries :: p < |w.freezers| &&
      !(w.freezers[p].phase.Idle? || w.freezers[p].phase.Comparing? || w.freezers[p].phase.Reporting?
        || w.freezers[p].phase.Succeeded?)
  }

  ghost predicate Inv(w: World) {
    DraftsAreHonest(w) && IndexIsComplete(w) && WinnersMatch(w) && TemporariesAreOwned(w)
  }

  ghost predicate Initial(w: World) {
    && w.index.None? && w.drafts == map[] && w.temporaries == {}
    && forall p | 0 <= p < |w.freezers| :: w.freezers[p].phase.Idle?
  }

  lemma InitialIsFine(w: World)
    requires Initial(w)
    ensures Inv(w)
  {
  }

  /** A step concerns its own freezer and that freezer's file only. */
  lemma StepLeavesOthers(w: World, a: Action)
    requires Enabled(w, a)
    ensures |Apply(w, a).freezers| == |w.freezers|
    ensures forall p | 0 <= p < |w.freezers| && p != a.p ::
              Apply(w, a).freezers[p] == w.freezers[p] && DraftOf(Apply(w, a), p) == DraftOf(w, p)
    ensures Apply(w, a).freezers[a.p].(phase := w.freezers[a.p].phase) == w.freezers[a.p]
  {
  }

  lemma StepKeepsOwnDraft(w: World, a: Action)
    requires Enabled(w, a) && Honest(w.freezers[a.p], DraftOf(w, a.p))
    ensures Honest(Apply(w, a).freezers[a.p], DraftOf(Apply(w, a), a.p))
  {
  }

  lemma StepKeepsDrafts(w: World, a: Action)
    requires Inv(w) && Enabled(w, a)
    ensures DraftsAreHonest(Apply(w, a))
  {
    StepLeavesOthers(w, a);
    StepKeepsOwnDraft(w, a);
    var next := Apply(w, a);
    forall p | 0 <= p < |next.freezers| ensures Honest(next.freezers[p], DraftOf(next, p)) {
      assert Honest(w.freezers[p], DraftOf(w, p));
    }
  }

  lemma StepKeepsCompletion(w: World, a: Action)
    requires Inv(w) && Enabled(w, a)
    ensures IndexIsComplete(Apply(w, a))
  {
    assert Honest(w.freezers[a.p], DraftOf(w, a.p));
    StepLeavesOthers(w, a);
  }

  /** What the index holds does not change once it is there. */
  lemma StepKeepsIndex(w: World, a: Action)
    requires Inv(w) && Enabled(w, a)
    ensures Index(w).Some? ==> Index(Apply(w, a)) == Index(w)
    ensures Apply(w, a).index.Some? <==> Index(Apply(w, a)).Some?
  {
    StepLeavesOthers(w, a);
    StepKeepsCompletion(w, a);
  }

  lemma StepKeepsWinners(w: World, a: Action)
    requires Inv(w) && Enabled(w, a)
    ensures WinnersMatch(Apply(w, a)) && TemporariesAreOwned(Apply(w, a))
  {
    StepLeavesOthers(w, a);
    StepKeepsIndex(w, a);
    assert Honest(w.freezers[a.p], DraftOf(w, a.p));
  }

  lemma StepKeeps(w: World, a: Action)
    requires Inv(w) && Enabled(w, a)
    ensures Inv(Apply(w, a))
  {
    StepKeepsDrafts(w, a);
    StepKeepsCompletion(w, a);
    StepKeepsWinners(w, a);
  }

  // --- Whole runs ----------------------------------------------------------------------------

  ghost predicate CanRun(w: World, actions: seq<Action>)
    decreases |actions|
  {
    actions == [] || (Enabled(w, actions[0]) && CanRun(Apply(w, actions[0]), actions[1..]))
  }

  ghost function {:tailrecursion false} After(w: World, actions: seq<Action>): World
    requires CanRun(w, actions)
    decreases |actions|
  {
    if actions == [] then w else After(Apply(w, actions[0]), actions[1..])
  }

  /** Once present the index never changes, under any interleaving, failure or crash. */
  lemma {:induction false} IndexNeverChanges(w: World, actions: seq<Action>)
    requires Inv(w) && CanRun(w, actions)
    ensures Inv(After(w, actions))
    ensures Index(w).Some? ==> Index(After(w, actions)) == Index(w)
    decreases |actions|
  {
    if actions != [] {
      StepKeeps(w, actions[0]);
      StepKeepsIndex(w, actions[0]);
      IndexNeverChanges(Apply(w, actions[0]), actions[1..]);
    }
  }

  /** At every moment the index is absent or holds, in full, the text of a freezer that was ready. */
  lemma IndexIsAbsentOrComplete(start: World, actions: seq<Action>)
    requires Initial(start) && CanRun(start, actions)
    ensures var w := After(start, actions);
            && (w.index.Some? <==> Index(w).Some?)
            && (Index(w).Some? ==> exists q | 0 <= q < |w.freezers| ::
              Prepared(w.freezers[q].gate) && Index(w) == Some(w.freezers[q].text))
  {
    InitialIsFine(start);
    IndexNeverChanges(start, actions);
    var w := After(start, actions);
    if w.index.Some? {
      ReadyExactly(w.freezers[w.index.value].gate);
      assert Prepared(w.freezers[w.index.value].gate);
    }
  }

  /** Every freezer that succeeds reports the digest of its own text, so all that succeed agree. */
  lemma SuccessesAgree(start: World, actions: seq<Action>, p: nat, q: nat)
    requires Initial(start) && CanRun(start, actions)
    requires p < |After(start, actions).freezers| && q < |After(start, actions).freezers|
    requires After(start, actions).freezers[p].phase.Succeeded? && After(start, actions).freezers[q].phase.Succeeded?
    ensures var w := After(start, actions);
            && Index(w) == Some(w.freezers[p].text)
            && w.freezers[p].text == w.freezers[q].text
            && w.freezers[p].phase == Succeeded(Sha256(w.freezers[p].text))
            && w.freezers[q].phase == w.freezers[p].phase
            && p !in w.temporaries
  {
    InitialIsFine(start);
    IndexNeverChanges(start, actions);
  }

  // --- Temporary files -----------------------------------------------------------------------

  /** A temporary file is named exactly while its freezer writes, stages or settles; a stop may leave it. */
  ghost predicate TemporariesFollow(w: World) {
    forall p | 0 <= p < |w.freezers| ::
      && (w.freezers[p].phase in {Writing, Staged, Beaten, Settled} ==> p in w.temporaries)
      && (w.freezers[p].phase in {Idle, Comparing, Reporting} || w.freezers[p].phase.Succeeded? ==>
            p !in w.temporaries)
  }

  lemma StepKeepsTemporaries(w: World, a: Action)
    requires TemporariesFollow(w) && Enabled(w, a)
    ensures TemporariesFollow(Apply(w, a))
  {
    StepLeavesOthers(w, a);
  }

  lemma {:induction false} RunKeepsTemporaries(w: World, actions: seq<Action>)
    requires TemporariesFollow(w) && CanRun(w, actions)
    ensures TemporariesFollow(After(w, actions))
    decreases |actions|
  {
    if actions != [] {
      StepKeepsTemporaries(w, actions[0]);
      RunKeepsTemporaries(Apply(w, actions[0]), actions[1..]);
    }
  }

  /** After every run a temporary file is named exactly while it is needed, unless its freezer stopped. */
  lemma TemporariesAreFollowed(start: World, actions: seq<Action>)
    requires Initial(start) && CanRun(start, actions)
    ensures TemporariesFollow(After(start, actions))
  {
    RunKeepsTemporaries(start, actions);
  }

  /**
   A freezer that may not publish, or finds another text in place, fails and leaves the index alone; one
   that was beaten by another text unlinks its temporary file first.
   */
  lemma LosesExactly(w: World, a: Action)
    requires Enabled(w, a) && (a.Look? || a.Compare? || a.Recompare?)
    ensures var f, v := w.freezers[a.p], Apply(w, a);
            var lost := if a.Look? then !Prepared(f.gate) else Index(w) != Some(f.text);
            && (v.freezers[a.p].phase == Failed <==> lost)
            && (lost ==> v == w.(freezers := v.freezers,
                                 temporaries := if a.Recompare? then w.temporaries - {a.p} else w.temporaries))
  {
    ReadyExactly(w.freezers[a.p].gate);
  }

  /** A file operation that raises fails the freezer, and its handler unlinks the temporary file if it can. */
  lemma RaisingFails(w: World, p: nat, unlinked: bool)
    requires Enabled(w, Fail(p, unlinked))
    ensures var v := Apply(w, Fail(p, unlinked));
            && v.freezers[p].phase == Failed
            && v.temporaries == (if unlinked then w.temporaries - {p} else w.temporaries)
            && v.index == w.index && v.drafts == w.drafts
  {
  }

  // --- What a freezer achieves on its own ----------------------------------------------------

  function Undisturbed(w: World, p: nat): seq<Action>
    requires p < |w.freezers|
  {
    if !Ready(w.freezers[p].gate) then [Look(p)]
    else if w.index.Some? then
      [Look(p), Compare(p)] + (if Index(w) == Some(w.freezers[p].text) then [Report(p)] else [])
    else [Look(p), Append(p, |w.freezers[p].text|), Flush(p), Link(p), Unlink(p), Report(p)]
  }

  lemma RunCons(w: World, a: Action, rest: seq<Action>)
    requires Enabled(w, a) && CanRun(Apply(w, a), rest)
    ensures CanRun(w, [a] + rest) && After(w, [a] + rest) == After(Apply(w, a), rest)
  {
    assert ([a] + rest)[1..] == rest;
  }

  /**
   Run to the end without a fault, a freezer succeeds exactly when its gate passed and the index was
   absent or already its own text; its index is then in place and no temporary file is left.
   */
  lemma UndisturbedSucceedsExactly(w: World, p: nat)
    requires Inv(w) && p < |w.freezers| && w.freezers[p].phase.Idle?
    ensures CanRun(w, Undisturbed(w, p))
    ensures var f, end := w.freezers[p], After(w, Undisturbed(w, p));
            && |end.freezers| == |w.freezers| && !Live(end.freezers[p].phase)
            && (end.freezers[p].phase.Succeeded? <==>
                Prepared(f.gate) && (Index(w).None? || Index(w) == Some(f.text)))
            && (end.freezers[p].phase.Succeeded? ==> Index(end) == Some(f.text))
            && end.temporaries == w.temporaries
  {
    var f := w.freezers[p];
    ReadyExactly(f.gate);
    if !Ready(f.gate) {
      RunCons(w, Look(p), []);
    } else if w.index.Some? {
      var w1 := Apply(w, Look(p));
      var w2 := Apply(w1, Compare(p));
      if Index(w) == Some(f.text) {
        RunCons(w2, Report(p), []);
        RunCons(w1, Compare(p), [Report(p)]);
        RunCons(w, Look(p), [Compare(p), Report(p)]);
        assert Undisturbed(w, p) == [Look(p)] + [Compare(p), Report(p)];
      } else {
        RunCons(w1, Compare(p), []);
        RunCons(w, Look(p), [Compare(p)]);
        assert Undisturbed(w, p) == [Look(p)] + [Compare(p)];
      }
    } else {
      PublishesAlone(w, p);
    }
  }

  lemma PublishesAlone(w: World, p: nat)
    requires Inv(w) && p < |w.freezers| && w.freezers[p].phase.Idle? && Ready(w.freezers[p].gate) && w.index.None?
    ensures CanRun(w, Undisturbed(w, p))
    ensures var end := After(w, Undisturbed(w, p));
            && |end.freezers| == |w.freezers| && end.freezers[p].phase.Succeeded?
            && Index(end) == Some(w.freezers[p].text) && end.temporaries == w.temporaries
  {
    var f := w.freezers[p];
    var append := Append(p, |f.text|);
    var w1 := Apply(w, Look(p));
    var w2 := Apply(w1, append);
    assert w2.drafts[p] == f.text;
    var w3 := Apply(w2, Flush(p));
    var w4 := Apply(w3, Link(p));
    var w5 := Apply(w4, Unlink(p));
    RunCons(w5, Report(p), []);
    RunCons(w4, Unlink(p), [Report(p)]);
    RunCons(w3, Link(p), [Unlink(p), Report(p)]);
    RunCons(w2, Flush(p), [Link(p), Unlink(p), Report(p)]);
    RunCons(w1, append, [Flush(p), Link(p), Unlink(p), Report(p)]);
    RunCons(w, Look(p), [append, Flush(p), Link(p), Unlink(p), Report(p)]);
    assert Undisturbed(w, p) == [Look(p)] + [append, Flush(p), Link(p), Unlink(p), Report(p)];
  }
}
