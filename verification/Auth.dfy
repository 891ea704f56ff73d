/**
 The outcome rule of the authentication scenario (`scripts/factory_gate_auth.py`): which of its
 observations may be downgraded to a hold, and which always fail.
 */
module Auth {
  import opened Common
  import opened Evidence
  import opened EvidenceBuilder

  /** One relay log line; `status` is what `int()` makes of its last word, when it is a number. */
  datatype LogEntry = LogEntry(verb: string, path: string, decision: string, status: Option<int>)

  datatype Receipt = Receipt(unconditionalBypass: bool)

  /** Everything the scenario observes about its one session. */
  datatype Session = Session(
    live: bool,
    omp: bool,
    route: string,
    custodyConforms: bool,
    container: string,
    created: Option<seq<string>>,   // harness containers created, when engine events were readable
    exitCode: int,
    timedOut: bool,
    succeeded: bool,                // a result with terminal status "succeeded" exists
    replied: bool,
    collected: bool,
    log: seq<LogEntry>,
    authorized: bool,               // every upstream request carried the gateway's authorization
    identityMatches: bool,
    withinDeadline: bool,           // the deadline is allowed and the session ended before it
    groupGone: bool,
    containerGone: bool,
    receipt: Option<Receipt>,
    violations: seq<string>,
    leaks: seq<string>,
    hits: seq<string>,
    missingSources: seq<string>,
    usage: bool)                    // the harness reported usage figures

  predicate StartsWith(text: string, prefix: string) {
    prefix <= text
  }

  predicate Forwarded(e: LogEntry) {
    StartsWith(e.decision, "forward")
  }

  predicate RefusedDiscovery(s: Session, e: LogEntry) {
    s.omp && e.verb == "GET" && (e.path == "/models" || e.path == "/codex/models")
  }

  predicate UnexpectedlyDenied(s: Session, e: LogEntry) {
    !Forwarded(e) && e.decision != "health" && !RefusedDiscovery(s, e)
  }

  predicate OnWrongRoute(s: Session, e: LogEntry) {
    Forwarded(e) && e.verb == "POST" && e.path != s.route
  }

  predicate NothingDenied(s: Session) {
    forall i | 0 <= i < |s.log| :: !UnexpectedlyDenied(s, s.log[i])
  }

  predicate RoutesKept(s: Session) {
    forall i | 0 <= i < |s.log| :: !OnWrongRoute(s, s.log[i])
  }

  predicate Posted(s: Session) {
    exists i | 0 <= i < |s.log| :: Forwarded(s.log[i]) && s.log[i].verb == "POST"
  }

  /** The facts whose violation must never become a hold. */
  predicate SecurityOk(s: Session) {
    && s.leaks == [] && s.hits == [] && s.missingSources == []
    && s.created.Some? && |s.created.value| == 1
    && s.violations == [] && s.receipt.Some?
    && NothingDenied(s) && RoutesKept(s)
  }

  // --- The gateway's answers -----------------------------------------------------------------

  predicate GatewayRefusal(e: LogEntry) {
    Forwarded(e) && e.status.Some? && e.status.value in {401, 403, 429}
  }

  datatype HoldReason = Answered(entry: LogEntry) | NoUsage

  /** Why the session cannot be judged: the first refused forward, or else missing usage figures. */
  method GatewayHoldReason(log: seq<LogEntry>, live: bool, usage: bool) returns (reason: Option<HoldReason>)
    ensures reason.Some? <==> (exists i | 0 <= i < |log| :: GatewayRefusal(log[i])) || (live && !usage)
    ensures reason.Some? <==>
            || (exists i | 0 <= i < |log| ::
                  "forward" <= log[i].decision && log[i].status in {Some(401), Some(403), Some(429)})
            || (live && !usage)
    ensures forall i | 0 <= i < |log| && GatewayRefusal(log[i]) && (forall j | 0 <= j < i :: !GatewayRefusal(log[j])) ::
              reason == Some(Answered(log[i]))
    ensures reason == Some(NoUsage) ==> live && !usage && forall i | 0 <= i < |log| :: !GatewayRefusal(log[i])
  {
    for i := 0 to |log|
      invariant forall j | 0 <= j < i :: !GatewayRefusal(log[j])
    {
      if GatewayRefusal(log[i]) {
        return Some(Answered(log[i]));
      }
    }
    return if live && !usage then Some(NoUsage) else None;
  }

  predicate GatewayHeld(s: Session) {
    (exists i | 0 <= i < |s.log| :: GatewayRefusal(s.log[i])) || (s.live && !s.usage)
  }

  datatype Decision = NoDecision | HoldIt | FailIt

  /** `decide_outcome`. */
  function Decide(live: bool, securityOk: bool, timedOut: bool, cleanedUp: bool, gatewayHeld: bool): Decision {
    if !securityOk then NoDecision
    else if timedOut then
      if !cleanedUp then FailIt else if live then HoldIt else FailIt
    else if gatewayHeld then HoldIt
    else NoDecision
  }

  function Outcome(s: Session): Decision {
    Decide(s.live, SecurityOk(s), s.timedOut, s.groupGone && s.containerGone, GatewayHeld(s))
  }

  // --- What the scenario records -------------------------------------------------------------

  const AUTH_IDS: seq<string> :=
    ["auth-custody-receipt", "auth-harness-container-count", "auth-session-completed", "auth-relay-request-log",
     "auth-harness-identity", "auth-usage-recorded", "auth-deadline-enforced", "auth-profile-violations-none",
     "auth-no-token-in-artifacts"]

  const COUNT := 1
  const RELAY_LOG := 3
  const PROFILE := 7
  const NO_TOKEN := 8

  /** Whether each assertion passes, in the order the scenario records them. */
  function Passes(s: Session, n: nat): bool
    requires n < |AUTH_IDS|
  {
    match n
    case 0 => s.custodyConforms
    case 1 => s.created.Some? && |s.created.value| == 1 && s.created.value[0] == s.container
    case 2 => s.exitCode == 0 && !s.timedOut && s.succeeded && s.replied && s.collected
    case 3 => Posted(s) && NothingDenied(s) && RoutesKept(s) && s.authorized
    case 4 => s.identityMatches
    case 5 => s.exitCode == 0
    case 6 => s.withinDeadline && !s.timedOut && s.groupGone && s.containerGone
    case 7 => s.receipt.Some? && s.violations == [] && !s.receipt.value.unconditionalBypass
    case 8 => s.leaks == [] && s.hits == [] && s.missingSources == []
  }

  const OBSERVED := Obj(map["observed" := Bool(true)])

  function AuthCall(s: Session, n: nat): Call
    requires n < |AUTH_IDS|
  {
    Assert(AUTH_IDS[n], Passes(s, n), ["session command"], OBSERVED, "expected", OBSERVED, [], "")
  }

  function AuthCalls(s: Session): seq<Call> {
    seq(|AUTH_IDS|, n requires 0 <= n < |AUTH_IDS| => AuthCall(s, n))
    + match Outcome(s)
      case NoDecision => []
      case HoldIt => [SetHold("the session cannot be judged")]
      case FailIt => [SetAbort("the session deadline was reached")]
  }

  /** A builder about to record the session: its ids are required and not recorded yet. */
  ghost predicate Ready(b: State) {
    && Valid(b)
    && (forall n | 0 <= n < |AUTH_IDS| :: IsRequired(b, AUTH_IDS[n]) && AUTH_IDS[n] !in b.assertions)
  }

  /** Every violated security fact fails one of the recorded assertions. */
  lemma ViolationFailsAnAssertion(s: Session) returns (n: nat)
    requires !SecurityOk(s)
    ensures n < |AUTH_IDS| && !Passes(s, n)
  {
    if !(s.created.Some? && |s.created.value| == 1) {
      n := COUNT;
    } else if !(NothingDenied(s) && RoutesKept(s)) {
      n := RELAY_LOG;
    } else if !(s.receipt.Some? && s.violations == []) {
      n := PROFILE;
    } else {
      n := NO_TOKEN;
    }
  }

  lemma AuthIdsDistinct(m: nat, n: nat)
    requires m < n < |AUTH_IDS|
    ensures AUTH_IDS[m] != AUTH_IDS[n]
  {
    var marks := seq(|AUTH_IDS|, i requires 0 <= i < |AUTH_IDS| => (|AUTH_IDS[i]|, AUTH_IDS[i][5]));
    assert marks == [(20, 'c'), (28, 'h'), (22, 's'), (22, 'r'), (21, 'h'), (19, 'u'), (22, 'd'), (28, 'p'), (26, 'n')];
    assert marks[m] != marks[n];
  }

  lemma {:induction false} OthersStayUnrecorded(b: State, calls: seq<Call>, id: string)
    requires Valid(b) && IsRequired(b, id) && id !in b.assertions
    requires forall i | 0 <= i < |calls| :: calls[i].Assert? && calls[i].id != id
    ensures var c := RecordedAll(b, calls); Valid(c) && IsRequired(c, id) && id !in c.assertions
    decreases |calls|
  {
    if calls != [] {
      RecordingKeepsValid(b, [calls[0]]);
      OthersStayUnrecorded(Recorded(b, calls[0]), calls[1..], id);
    }
  }

  lemma {:induction false} RecordedInParts(b: State, first: seq<Call>, rest: seq<Call>)
    ensures RecordedAll(b, first + rest) == RecordedAll(RecordedAll(b, first), rest)
    decreases |first|
  {
    if first == [] {
      assert first + rest == rest;
    } else {
      assert (first + rest)[1..] == first[1..] + rest;
      RecordedInParts(Recorded(b, first[0]), first[1..], rest);
    }
  }

  lemma FailedAssertionIsRecorded(b: State, s: Session, n: nat)
    requires Ready(b) && n < |AUTH_IDS| && !Passes(s, n)
    ensures Failing(RecordedAll(b, AuthCalls(s)))
  {
    var calls := AuthCalls(s);
    var first, rest := calls[..n], calls[n + 1..];
    assert calls == first + [calls[n]] + rest;
    forall i | 0 <= i < n ensures first[i].Assert? && first[i].id != AUTH_IDS[n] {
      AuthIdsDistinct(i, n);
    }
    OthersStayUnrecorded(b, first, AUTH_IDS[n]);
    var c := RecordedAll(b, first);
    RecordedInParts(b, first + [calls[n]], rest);
    RecordedInParts(b, first, [calls[n]]);
    assert RecordedAll(c, [calls[n]]) == Recorded(c, calls[n]);
    var d := Recorded(c, calls[n]);
    assert AUTH_IDS[n] in d.assertions && !d.assertions[AUTH_IDS[n]].passed;
    RecordingKeepsValid(c, [calls[n]]);
    FailureIsForever(d, rest);
  }

  lemma {:induction false} HoldNeedsAHold(b: State, calls: seq<Call>)
    requires b.hold.None? && forall i | 0 <= i < |calls| :: !calls[i].SetHold?
    ensures RecordedAll(b, calls).hold.None?
    decreases |calls|
  {
    if calls != [] {
      HoldNeedsAHold(Recorded(b, calls[0]), calls[1..]);
    }
  }

  /**
   A violated security fact always ends as a failure: whatever is recorded later the exit code is not
   zero, and unless a later call holds for a reason of its own it is one, never the three of a hold.
   */
  lemma SecurityViolationAlwaysFails(b: State, s: Session, later: seq<Call>, f: Frame)
    requires Ready(b) && b.hold.None? && f.endedAt != ""
    requires !SecurityOk(s)
    ensures var d := Draft(RecordedAll(b, AuthCalls(s) + later), f);
            && Readable(d) && Readable(Sealed(d)) && ExitCode(Sealed(d)) != 0
            && ((forall i | 0 <= i < |later| :: !later[i].SetHold?) ==> ExitCode(Sealed(d)) == 1)
  {
    RecordedInParts(b, AuthCalls(s), later);
    ViolationStays(b, s, later);
    FailingExit(RecordedAll(RecordedAll(b, AuthCalls(s)), later), f);
  }

  lemma ViolationStays(b: State, s: Session, later: seq<Call>)
    requires Ready(b) && b.hold.None? && !SecurityOk(s)
    ensures var c := RecordedAll(RecordedAll(b, AuthCalls(s)), later);
            Valid(c) && Failing(c) && ((forall i | 0 <= i < |later| :: !later[i].SetHold?) ==> c.hold.None?)
  {
    var c := RecordedAll(b, AuthCalls(s));
    ViolationIsRecorded(b, s);
    FailureIsForever(c, later);
    RecordingKeepsValid(c, later);
    if forall i | 0 <= i < |later| :: !later[i].SetHold? {
      HoldNeedsAHold(c, later);
    }
  }

  lemma ViolationIsRecorded(b: State, s: Session)
    requires Ready(b) && b.hold.None? && !SecurityOk(s)
    ensures var c := RecordedAll(b, AuthCalls(s)); Valid(c) && Failing(c) && c.hold.None?
  {
    var n := ViolationFailsAnAssertion(s);
    FailedAssertionIsRecorded(b, s, n);
    RecordingKeepsValid(b, AuthCalls(s));
    HoldNeedsAHold(b, AuthCalls(s));
  }

  // --- What a passing session is --------------------------------------------------------------

  /** Forwarded posts kept to the harness's route, and nothing was refused but health and omp's discovery. */
  predicate TolerableLog(s: Session) {
    forall i | 0 <= i < |s.log| ::
      var e := s.log[i];
      if "forward" <= e.decision then e.verb == "POST" ==> e.path == s.route
      else e.decision == "health" || (s.omp && e.verb == "GET" && e.path in {"/models", "/codex/models"})
  }

  /** The relay log also shows at least one forwarded post. */
  predicate CleanLog(s: Session) {
    TolerableLog(s) && exists i | 0 <= i < |s.log| :: "forward" <= s.log[i].decision && s.log[i].verb == "POST"
  }

  /** Every observation the scenario demands of its session. */
  predicate GoodSession(s: Session) {
    && s.custodyConforms && s.identityMatches && s.authorized
    && s.created == Some([s.container])
    && s.exitCode == 0 && !s.timedOut && s.succeeded && s.replied && s.collected
    && CleanLog(s)
    && s.withinDeadline && s.groupGone && s.containerGone
    && s.receipt == Some(Receipt(false)) && s.violations == []
    && s.leaks == [] && s.hits == [] && s.missingSources == []
  }

  /** The gateway's own refusals, and missing usage figures in a live run, keep a session from being judged. */
  predicate Unjudgeable(s: Session) {
    || (exists i | 0 <= i < |s.log| ::
          "forward" <= s.log[i].decision && s.log[i].status in {Some(401), Some(403), Some(429)})
    || (s.live && !s.usage)
  }

  lemma CleanLogExactly(s: Session)
    ensures TolerableLog(s) <==> NothingDenied(s) && RoutesKept(s)
    ensures CleanLog(s) <==> Posted(s) && NothingDenied(s) && RoutesKept(s)
  {
    forall i | 0 <= i < |s.log|
      ensures (if "forward" <= s.log[i].decision then s.log[i].verb == "POST" ==> s.log[i].path == s.route
               else s.log[i].decision == "health"
                    || (s.omp && s.log[i].verb == "GET" && s.log[i].path in {"/models", "/codex/models"})) <==>
              !UnexpectedlyDenied(s, s.log[i]) && !OnWrongRoute(s, s.log[i])
    {
    }
  }

  lemma GoodSessionExactly(s: Session)
    ensures GoodSession(s) <==> forall n | 0 <= n < |AUTH_IDS| :: Passes(s, n)
  {
    CleanLogExactly(s);
    if forall n | 0 <= n < |AUTH_IDS| :: Passes(s, n) {
      assert Passes(s, 0) && Passes(s, 1) && Passes(s, 2) && Passes(s, 3) && Passes(s, 4);
      assert Passes(s, 5) && Passes(s, 6) && Passes(s, 7) && Passes(s, 8);
      assert s.created.value == [s.container];
    }
  }

  lemma {:induction false} RecordedStays(b: State, calls: seq<Call>, id: string)
    requires id in b.assertions
    ensures var c := RecordedAll(b, calls); id in c.assertions && c.assertions[id] == b.assertions[id]
    decreases |calls|
  {
    if calls != [] {
      RecordedStays(Recorded(b, calls[0]), calls[1..], id);
    }
  }

  /** Each assertion is recorded as the session decided it. */
  lemma AssertionIsRecorded(b: State, s: Session, n: nat)
    requires Ready(b) && n < |AUTH_IDS|
    ensures var c := RecordedAll(b, AuthCalls(s));
            && AUTH_IDS[n] in c.assertions
            && c.assertions[AUTH_IDS[n]].passed == Passes(s, n) && c.assertions[AUTH_IDS[n]].commands != []
  {
    var calls := AuthCalls(s);
    var first, rest := calls[..n], calls[n + 1..];
    assert calls == first + [calls[n]] + rest;
    forall i | 0 <= i < n ensures first[i].Assert? && first[i].id != AUTH_IDS[n] {
      AuthIdsDistinct(i, n);
    }
    OthersStayUnrecorded(b, first, AUTH_IDS[n]);
    var c := RecordedAll(b, first);
    RecordedInParts(b, first + [calls[n]], rest);
    RecordedInParts(b, first, [calls[n]]);
    assert [calls[n]][1..] == [];
    RecordedStays(Recorded(c, calls[n]), rest, AUTH_IDS[n]);
  }

  /** A session that ran into its deadline is recorded as neither completed nor within it. */
  lemma TimeoutFailsBoth(b: State, s: Session)
    requires Ready(b) && s.timedOut
    ensures var c := RecordedAll(b, AuthCalls(s));
            && "auth-session-completed" in c.assertions && !c.assertions["auth-session-completed"].passed
            && "auth-deadline-enforced" in c.assertions && !c.assertions["auth-deadline-enforced"].passed
  {
    AssertionIsRecorded(b, s, 2);
    AssertionIsRecorded(b, s, 6);
  }

  /** What else is recorded, the scenario leaves alone. */
  lemma {:induction false} OtherRecordsStay(b: State, calls: seq<Call>, id: string)
    requires forall i | 0 <= i < |calls| :: calls[i].Assert? ==> calls[i].id != id
    requires forall i | 0 <= i < |calls| :: calls[i].Assert? || calls[i].SetHold? || calls[i].SetAbort?
    ensures var c := RecordedAll(b, calls);
            && (id in c.assertions <==> id in b.assertions)
            && (id in b.assertions ==> c.assertions[id] == b.assertions[id])
            && c.controls == b.controls && c.required == b.required && c.scenario == b.scenario
    decreases |calls|
  {
    if calls != [] {
      OtherRecordsStay(Recorded(b, calls[0]), calls[1..], id);
    }
  }

  /** The hold and the abort that the scenario itself leaves behind. */
  lemma {:induction false} AssertsSetNothing(b: State, calls: seq<Call>)
    requires forall i | 0 <= i < |calls| :: calls[i].Assert?
    ensures RecordedAll(b, calls).hold == b.hold && RecordedAll(b, calls).abort == b.abort
    decreases |calls|
  {
    if calls != [] {
      AssertsSetNothing(Recorded(b, calls[0]), calls[1..]);
    }
  }

  lemma OutcomeIsSet(b: State, s: Session)
    requires b.hold.None? && b.abort.None?
    ensures var c := RecordedAll(b, AuthCalls(s));
            (c.hold.Some? <==> Outcome(s) == HoldIt) && (c.abort.Some? <==> Outcome(s) == FailIt)
  {
    var asserts := seq(|AUTH_IDS|, n requires 0 <= n < |AUTH_IDS| => AuthCall(s, n));
    var last := AuthCalls(s)[|AUTH_IDS|..];
    assert AuthCalls(s) == asserts + last;
    RecordedInParts(b, asserts, last);
    AssertsSetNothing(b, asserts);
    if last != [] {
      assert last[1..] == [];
    }
  }

  /** The other required assertions were recorded passing with a command, and every control passed. */
  ghost predicate RestPasses(b: State) {
    && (forall i | 0 <= i < |b.required| && b.required[i].id !in AUTH_IDS ::
          && b.required[i].id in b.assertions && b.assertions[b.required[i].id].passed
          && b.assertions[b.required[i].id].commands != [])
    && forall i | 0 <= i < |b.controls| :: b.controls[i].passed
  }

  lemma SessionOutcome(s: Session)
    requires GoodSession(s)
    ensures Outcome(s) == (if Unjudgeable(s) then HoldIt else NoDecision)
  {
    CleanLogExactly(s);
  }

  /**
   The scenario exits with zero exactly for a good session that the gateway let be judged, provided
   what was recorded before it passes: no other session does, whatever it looks like.
   */
  lemma AuthPassesExactly(b: State, s: Session, f: Frame)
    requires Ready(b) && b.hold.None? && b.abort.None? && f.endedAt != "" && FrameComplete(b, f)
    ensures var d := Draft(RecordedAll(b, AuthCalls(s)), f);
            && Readable(d) && Readable(Sealed(d))
            && (ExitCode(Sealed(d)) == 0 <==> GoodSession(s) && !Unjudgeable(s) && RestPasses(b))
  {
    var c := RecordedAll(b, AuthCalls(s));
    RecordingKeepsValid(b, AuthCalls(s));
    ExitCodeExactly(c, f);
    SessionPasses(b, s);
  }

  ghost predicate RecordedPassing(c: State, id: string) {
    id in c.assertions && c.assertions[id].passed && c.assertions[id].commands != []
  }

  ghost predicate AllRequiredPass(c: State) {
    forall i | 0 <= i < |c.required| :: RecordedPassing(c, c.required[i].id)
  }

  lemma RequiredPass(b: State, c: State, s: Session)
    requires Ready(b) && c.required == b.required
    requires forall n | 0 <= n < |AUTH_IDS| :: RecordedPassing(c, AUTH_IDS[n]) <==> Passes(s, n)
    requires forall id | id !in AUTH_IDS :: RecordedPassing(c, id) <==> RecordedPassing(b, id)
    ensures AllRequiredPass(c) <==>
            && (forall n | 0 <= n < |AUTH_IDS| :: Passes(s, n))
            && forall i | 0 <= i < |b.required| && b.required[i].id !in AUTH_IDS :: RecordedPassing(b, b.required[i].id)
  {
    if AllRequiredPass(c) {
      forall n | 0 <= n < |AUTH_IDS| ensures Passes(s, n) {
        assert IsRequired(b, AUTH_IDS[n]);
        var i :| 0 <= i < |b.required| && b.required[i].id == AUTH_IDS[n];
        assert RecordedPassing(c, c.required[i].id);
      }
    }
    forall i | 0 <= i < |b.required| && b.required[i].id in AUTH_IDS
      ensures exists n | 0 <= n < |AUTH_IDS| :: AUTH_IDS[n] == b.required[i].id
    {
    }
  }

  lemma SessionRequired(b: State, s: Session)
    requires Ready(b)
    ensures var c := RecordedAll(b, AuthCalls(s));
            && c.required == b.required
            && (AllRequiredPass(c) <==>
                  && GoodSession(s)
                  && forall i | 0 <= i < |b.required| && b.required[i].id !in AUTH_IDS ::
                       RecordedPassing(b, b.required[i].id))
  {
    RecordingKeepsValid(b, AuthCalls(s));
    GoodSessionExactly(s);
    AllRecorded(b, s);
    RestStays(b, s);
    RequiredPass(b, RecordedAll(b, AuthCalls(s)), s);
  }

  lemma SessionPasses(b: State, s: Session)
    requires Ready(b) && b.hold.None? && b.abort.None?
    ensures Passing(RecordedAll(b, AuthCalls(s))) <==> GoodSession(s) && !Unjudgeable(s) && RestPasses(b)
  {
    var c := RecordedAll(b, AuthCalls(s));
    ControlsStay(b, s);
    OutcomeIsSet(b, s);
    SessionRequired(b, s);
    if GoodSession(s) {
      SessionOutcome(s);
    }
    PassingMeans(c);
    assert RestPasses(b) <==>
        && (forall i | 0 <= i < |b.required| && b.required[i].id !in AUTH_IDS :: RecordedPassing(b, b.required[i].id))
        && forall i | 0 <= i < |b.controls| :: b.controls[i].passed;
    assert IsRequired(b, AUTH_IDS[0]);
  }

  lemma PassingMeans(c: State)
    ensures Passing(c) <==>
            && c.hold.None? && c.abort.None? && c.required != [] && AllRequiredPass(c)
            && forall i | 0 <= i < |c.controls| :: c.controls[i].passed
  {
    forall i | 0 <= i < |c.required|
      ensures RecordedPassing(c, c.required[i].id) <==>
              && c.required[i].id in c.assertions && c.assertions[c.required[i].id].passed
              && c.assertions[c.required[i].id].commands != []
    {
    }
  }

  lemma ControlsStay(b: State, s: Session)
    ensures RecordedAll(b, AuthCalls(s)).controls == b.controls
  {
    OtherRecordsStay(b, AuthCalls(s), "");
  }

  lemma AllRecorded(b: State, s: Session)
    requires Ready(b)
    ensures var c := RecordedAll(b, AuthCalls(s));
            (forall n | 0 <= n < |AUTH_IDS| :: AUTH_IDS[n] in c.assertions && c.assertions[AUTH_IDS[n]].commands != []
               && (c.assertions[AUTH_IDS[n]].passed <==> Passes(s, n)))
  {
    forall n | 0 <= n < |AUTH_IDS|
      ensures var c := RecordedAll(b, AuthCalls(s));
              && AUTH_IDS[n] in c.assertions && c.assertions[AUTH_IDS[n]].commands != []
              && (c.assertions[AUTH_IDS[n]].passed <==> Passes(s, n))
    {
      AssertionIsRecorded(b, s, n);
    }
  }

  lemma RestStays(b: State, s: Session)
    ensures var c := RecordedAll(b, AuthCalls(s));
            forall id | id !in AUTH_IDS ::
              && (id in c.assertions <==> id in b.assertions)
              && (id in b.assertions ==> c.assertions[id] == b.assertions[id])
  {
    var calls := AuthCalls(s);
    forall id | id !in AUTH_IDS
      ensures var c := RecordedAll(b, calls);
              && (id in c.assertions <==> id in b.assertions)
              && (id in b.assertions ==> c.assertions[id] == b.assertions[id])
    {
      forall i | 0 <= i < |calls| && calls[i].Assert? ensures calls[i].id != id {
        assert calls[i].id == AUTH_IDS[i];
      }
      OtherRecordsStay(b, calls, id);
    }
  }

  /** The facts no hold may cover, one by one. */
  lemma SecurityExactly(s: Session)
    ensures SecurityOk(s) <==>
            && s.leaks == [] && s.hits == [] && s.missingSources == [] && s.violations == []
            && s.receipt.Some? && s.created.Some? && |s.created.value| == 1 && TolerableLog(s)
  {
    CleanLogExactly(s);
  }

  /** The scenario itself holds exactly on a live, cleaned-up deadline or an unjudgeable session. */
  lemma HoldsExactly(s: Session)
    ensures Outcome(s) == HoldIt <==>
            && s.leaks == [] && s.hits == [] && s.missingSources == [] && s.violations == []
            && s.receipt.Some? && s.created.Some? && |s.created.value| == 1 && TolerableLog(s)
            && (if s.timedOut then s.live && s.groupGone && s.containerGone else Unjudgeable(s))
    ensures Outcome(s) == FailIt <==> SecurityOk(s) && s.timedOut && !(s.live && s.groupGone && s.containerGone)
    ensures Outcome(s) == HoldIt <==> SetHold("the session cannot be judged") in AuthCalls(s)
  {
    SecurityExactly(s);
    var calls := AuthCalls(s);
    assert forall n | 0 <= n < |AUTH_IDS| :: calls[n].Assert?;
    if Outcome(s) == HoldIt {
      assert calls[|AUTH_IDS|] == SetHold("the session cannot be judged");
    }
  }
}
