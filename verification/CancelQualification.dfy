/**
 Intent-first qualification of a cancellation slot (`preflight` with `qualify_cancellation` in
 `scripts/factory_gate_protocol_live.py`).

 Its run id, request file and ledger are fixed beforehand, and two product commands follow each other:
 one builds the request file, one starts the run that the file describes.  Each is a process of its own
 and may take effect after the preflight that issued it is gone.  Only one preflight runs at a time,
 and nothing removes the request file or the ledger.
 */
module CancelQualification {
  import opened Common

  /** What the intent fixes and the request file must repeat. */
  type Terms = string

  datatype Pc =
    | Idle
    | Recovering           // an intent without a record was found
    | Discarding           // neither the request file nor the ledger was there
    | Checking             // about to qualify afresh
    | Intending            // neither was there
    | Building             // the intent is durable
    | Built                // the building command was issued
    | Matched              // the request file is there and repeats the intent
    | Starting             // the starting command was issued
    | Saving(qualified: Terms)

  datatype World = World(
    intent: Option<Terms>,
    record: Option<Terms>,
    request: Option<Terms>,     // the request file
    ledger: Option<Terms>,      // the run in the ledger, by the request it was started from
    builds: seq<Terms>,         // building commands that may still write the file
    starts: nat,                // starting commands that may still start the run
    issued: nat,                // starting commands ever issued
    started: nat,               // how often a run was started
    creates: bool,              // the engine shows a create of this operation
    pc: Pc)

  function Initial(): World {
    World(None, None, None, None, [], 0, 0, 0, false, Idle)
  }

  datatype Action =
    | Start
    | Recover
    | Discard
    | Check
    | WriteIntent(terms: Terms)
    | IssueBuild
    | ReadRequest
    | IssueStart
    | ReadLedger
    | Save
    | Stop                                  // a hold is raised, or the process dies
    | BuildWrites(index: nat)
    | BuildEnds(index: nat)
    | StartCommits
    | StartEnds
    | EngineShows(creates: bool)

  predicate Enabled(w: World, a: Action) {
    match a
    case Start => w.pc.Idle?
    case Recover => w.pc.Recovering? && w.intent.Some?
    case Discard => w.pc.Discarding?
    case Check => w.pc.Checking?
    case WriteIntent(_) => w.pc.Intending?
    case IssueBuild => w.pc.Building? && w.intent.Some?
    case ReadRequest => w.pc.Built? && w.intent.Some?
    case IssueStart => w.pc.Matched?
    case ReadLedger => w.pc.Starting? && w.intent.Some?
    case Save => w.pc.Saving?
    case Stop => true
    case BuildWrites(index) => index < |w.builds|
    case BuildEnds(index) => index < |w.builds|
    case StartCommits => w.starts > 0 && w.request.Some?
    case StartEnds => w.starts > 0
    case EngineShows(_) => true
  }

  function Without(builds: seq<Terms>, index: nat): seq<Terms>
    requires index < |builds|
  {
    builds[..index] + builds[index + 1..]
  }

  /** `_load_qualified`: the request file is the one the run in the ledger was started from. */
  predicate Loadable(w: World) {
    w.request.Some? && w.ledger == w.request
  }

  function Apply(w: World, a: Action): World
    requires Enabled(w, a)
  {
    match a
    case Start => w.(pc := if w.record.Some? then Idle else if w.intent.Some? then Recovering else Checking)
    case Recover =>
      if w.request.None? && w.ledger.None? then w.(pc := Discarding)
      else if Loadable(w) && w.request == w.intent then w.(pc := Saving(w.request.value))
      else w.(pc := Idle)
    case Discard => if w.creates then w.(pc := Idle) else w.(intent := None, pc := Checking)
    case Check => w.(pc := if w.request.None? && w.ledger.None? then Intending else Idle)
    case WriteIntent(terms) => w.(intent := Some(terms), pc := Building)
    case IssueBuild => w.(builds := w.builds + [w.intent.value], pc := Built)
    case ReadRequest => w.(pc := if w.request == w.intent then Matched else Idle)
    case IssueStart => w.(starts := w.starts + 1, issued := w.issued + 1, pc := Starting)
    case ReadLedger => w.(pc := if Loadable(w) then Saving(w.request.value) else Idle)
    case Save => w.(record := Some(w.pc.qualified), pc := Idle)
    case Stop => w.(pc := Idle)
    case BuildWrites(index) => w.(request := Some(w.builds[index]), builds := Without(w.builds, index))
    case BuildEnds(index) => w.(builds := Without(w.builds, index))
    case StartCommits => w.(ledger := w.request, starts := w.starts - 1, started := w.started + 1)
    case StartEnds => w.(starts := w.starts - 1)
    case EngineShows(creates) => w.(creates := creates)
  }

  /** The preflight is on its way to a start of its own. */
  predicate QualifiesAfresh(pc: Pc) {
    pc.Discarding? || pc.Checking? || pc.Intending? || pc.Building? || pc.Built? || pc.Matched?
  }

  /** A start was issued at most once, and then the request file and the intent stand for good. */
  ghost predicate Inv(w: World) {
    && w.issued <= 1
    && w.starts + w.started <= w.issued
    && (w.issued == 1 ==> w.request.Some? && w.intent.Some?)
    && (QualifiesAfresh(w.pc) ==> w.issued == 0)
    && (w.pc.Matched? ==> w.request.Some? && w.intent.Some?)
    && (w.ledger.Some? ==> w.started > 0)
    && (w.pc.Saving? ==> w.started == 1 && w.ledger == Some(w.pc.qualified))
    && (w.record.Some? ==> w.started == 1 && w.ledger == w.record)
  }

  lemma StepKeeps(w: World, a: Action)
    requires Inv(w) && Enabled(w, a)
    ensures Inv(Apply(w, a))
  {
  }

  /**
   What a preflight has checked when it goes on: nothing was there before it discards or intends, the
   request file repeats the intent before it starts the run, and the run was started from that file
   before it saves; a recovery saves nothing but what the intent says.
   */
  lemma GoesOnOnlyWhenChecked(w: World, a: Action)
    requires Enabled(w, a) && Apply(w, a).pc != w.pc
    ensures var v := Apply(w, a);
            && (v.pc.Discarding? ==> w.pc.Recovering? && w.request.None? && w.ledger.None?)
            && (v.pc.Intending? ==> w.pc.Checking? && w.request.None? && w.ledger.None?)
            && (v.pc.Matched? ==> w.pc.Built? && w.request == w.intent)
            && (v.pc.Starting? ==> w.pc.Matched?)
            && (v.pc.Saving? ==>
                  && w.request == Some(v.pc.qualified) && w.ledger == Some(v.pc.qualified)
                  && (w.pc.Starting? || (w.pc.Recovering? && w.intent == Some(v.pc.qualified))))
  {
  }

  /** What makes a preflight stop. */
  ghost predicate Halts(w: World, a: Action) {
    || (a.Start? && w.record.Some?)
    || (a.Discard? && w.creates)
    || (a.Check? && (w.request.Some? || w.ledger.Some?))
    || (a.ReadRequest? && w.request != w.intent)
    || (a.ReadLedger? && (w.request.None? || w.ledger != w.request))
    || a.Stop?
  }

  lemma HaltedChangesNothing(w: World, a: Action)
    requires Enabled(w, a) && Halts(w, a)
    ensures Apply(w, a) == w.(pc := Idle)
  {
  }

  lemma SaveExactly(w: World)
    requires w.pc.Saving?
    ensures Apply(w, Save) == w.(record := Some(w.pc.qualified), pc := Idle)
  {
  }

  /** A command takes effect or ends once. */
  lemma CommandsAreUsedUp(w: World, a: Action)
    requires Enabled(w, a)
    ensures a.BuildWrites? || a.BuildEnds? ==> |Apply(w, a).builds| == |w.builds| - 1
    ensures a.StartCommits? || a.StartEnds? ==> Apply(w, a).starts == w.starts - 1
  {
  }

  /** A recovery discards, saves or stops, by what is on disk, and it changes nothing else. */
  lemma RecoverExactly(w: World)
    requires w.pc.Recovering? && w.intent.Some?
    ensures var v := Apply(w, Recover);
            v == if w.request.None? && w.ledger.None? then w.(pc := Discarding)
                 else if w.intent == w.request == w.ledger then w.(pc := Saving(w.intent.value))
                 else w.(pc := Idle)
  {
  }

  ghost predicate CanRun(w: World, actions: seq<Action>)
    decreases |actions|
  {
    actions == [] || (Enabled(w, actions[0]) && CanRun(Apply(w, actions[0]), actions[1..]))
  }

  ghost function After(w: World, actions: seq<Action>): World
    requires CanRun(w, actions)
    decreases |actions|
  {
    if actions == [] then w else After(Apply(w, actions[0]), actions[1..])
  }

  lemma {:induction false} RunKeeps(w: World, actions: seq<Action>)
    requires Inv(w) && CanRun(w, actions)
    ensures Inv(After(w, actions))
    decreases |actions|
  {
    if actions != [] {
      StepKeeps(w, actions[0]);
      RunKeeps(Apply(w, actions[0]), actions[1..]);
    }
  }

  /**
   Over any sequence of crashed and retried preflights, overlapping commands of earlier ones included:
   the run is started at most once, its intent and request file then stand for good, and a record
   describes the very request the one run was started from.
   */
  lemma StartedAtMostOnce(actions: seq<Action>)
    requires CanRun(Initial(), actions)
    ensures var w := After(Initial(), actions);
            && w.issued <= 1 && w.started <= 1
            && (w.started == 1 ==> w.intent.Some? && w.request.Some?)
            && (w.record.Some? ==> w.started == 1 && w.ledger == w.record)
  {
    RunKeeps(Initial(), actions);
  }

  lemma Then(w: World, a: Action, rest: seq<Action>)
    requires Enabled(w, a) && CanRun(Apply(w, a), rest)
    ensures CanRun(w, [a] + rest) && After(w, [a] + rest) == After(Apply(w, a), rest)
  {
    assert ([a] + rest)[1..] == rest;
  }

  /** Once the file is built: the run is started from it, and the record repeats the intent. */
  lemma BuiltIsQualified(w: World, terms: Terms) returns (actions: seq<Action>)
    requires w.pc.Built? && w.intent == Some(terms) && w.request == Some(terms) && w.starts == 0
    ensures CanRun(w, actions) && After(w, actions).record == Some(terms) && After(w, actions).ledger == Some(terms)
    ensures After(w, actions).started == w.started + 1
  {
    var w1 := Apply(w, ReadRequest);
    var w2 := Apply(w1, IssueStart);
    var w3 := Apply(w2, StartCommits);
    var w4 := Apply(w3, ReadLedger);
    Then(w4, Save, []);
    Then(w3, ReadLedger, [Save] + []);
    Then(w2, StartCommits, [ReadLedger] + ([Save] + []));
    Then(w1, IssueStart, [StartCommits] + ([ReadLedger] + ([Save] + [])));
    Then(w, ReadRequest, [IssueStart] + ([StartCommits] + ([ReadLedger] + ([Save] + []))));
    actions := [ReadRequest] + ([IssueStart] + ([StartCommits] + ([ReadLedger] + ([Save] + []))));
  }

  /** An undisturbed preflight starts the run once and records the terms of its intent. */
  lemma UndisturbedQualifies(terms: Terms) returns (actions: seq<Action>)
    ensures CanRun(Initial(), actions) && After(Initial(), actions).started == 1
    ensures After(Initial(), actions).record == Some(terms)
  {
    var w1 := Apply(Initial(), Start);
    var w2 := Apply(w1, Check);
    var w3 := Apply(w2, WriteIntent(terms));
    var w4 := Apply(w3, IssueBuild);
    var w5 := Apply(w4, BuildWrites(0));
    actions := BuiltIsQualified(w5, terms);
    Then(w4, BuildWrites(0), actions);
    Then(w3, IssueBuild, [BuildWrites(0)] + actions);
    Then(w2, WriteIntent(terms), [IssueBuild] + ([BuildWrites(0)] + actions));
    Then(w1, Check, [WriteIntent(terms)] + ([IssueBuild] + ([BuildWrites(0)] + actions)));
    Then(Initial(), Start, [Check] + ([WriteIntent(terms)] + ([IssueBuild] + ([BuildWrites(0)] + actions))));
    actions := [Start] + ([Check] + ([WriteIntent(terms)] + ([IssueBuild] + ([BuildWrites(0)] + actions))));
  }

  /** A preflight that dies once its run is started is recovered: the retry records the same terms. */
  lemma CrashedPreflightIsRecovered(w: World, terms: Terms) returns (actions: seq<Action>)
    requires w.intent == Some(terms) && w.request == Some(terms) && w.record.None? && w.starts > 0
    ensures CanRun(w, actions) && After(w, actions).record == Some(terms) && After(w, actions).started == w.started + 1
  {
    var w1 := Apply(w, StartCommits);
    var w2 := Apply(w1, Stop);
    var w3 := Apply(w2, Start);
    var w4 := Apply(w3, Recover);
    Then(w4, Save, []);
    Then(w3, Recover, [Save] + []);
    Then(w2, Start, [Recover] + ([Save] + []));
    Then(w1, Stop, [Start] + ([Recover] + ([Save] + [])));
    Then(w, StartCommits, [Stop] + ([Start] + ([Recover] + ([Save] + []))));
    actions := [StartCommits] + ([Stop] + ([Start] + ([Recover] + ([Save] + []))));
  }

  /**
   A preflight that dies before its file is built leaves an intent; a retry discards it and qualifies
   afresh, unless a create shows, in which case it stops and keeps the intent until the create is gone.
   */
  lemma UnbuiltIntentIsDiscarded(terms: Terms, creates: bool) returns (w: World, actions: seq<Action>)
    ensures CanRun(Initial(), actions) && w == After(Initial(), actions)
    ensures w == if creates then Initial().(intent := Some(terms), creates := true)
                 else Initial().(pc := Checking)
  {
    var w1 := Apply(Initial(), Start);
    var w2 := Apply(w1, Check);
    var w3 := Apply(w2, WriteIntent(terms));
    var w4 := Apply(w3, Stop);
    var w5 := Apply(w4, Start);
    var w6 := Apply(w5, Recover);
    var shows := EngineShows(creates);
    var w7 := Apply(w6, shows);
    w := Apply(w7, Discard);
    Then(w7, Discard, []);
    Then(w6, shows, [Discard] + []);
    Then(w5, Recover, [shows] + ([Discard] + []));
    Then(w4, Start, [Recover] + ([shows] + ([Discard] + [])));
    Then(w3, Stop, [Start] + ([Recover] + ([shows] + ([Discard] + []))));
    Then(w2, WriteIntent(terms), [Stop] + ([Start] + ([Recover] + ([shows] + ([Discard] + [])))));
    actions := [WriteIntent(terms)] + ([Stop] + ([Start] + ([Recover] + ([shows] + ([Discard] + [])))));
    Then(w1, Check, actions);
    Then(Initial(), Start, [Check] + actions);
    actions := [Start] + ([Check] + actions);
  }
}
