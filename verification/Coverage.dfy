/**
 The rolling coverage journal of engine events
 (`_advance_worker_event_coverage` in `scripts/factory_gate_protocol_live.py`).

 The engine keeps an append-only event log and evicts its oldest part.  The journal retains windows
 of it, each overlapping the previous one at a checkpoint event and bound by digest, so that the
 worker creates since the anchor are counted exactly although no single query can still see them all.
 */
module Coverage {
  import opened Common
  import opened Timestamps
  import opened CoverageLog

  // --- The retained journal ------------------------------------------------------------------

  /** What a retained file holds: an event window, or text that does not decode to one. */
  datatype Content = Window(events: seq<Event>) | Garbled(text: string)

  /** The digest of a retained file; injective, like every digest in this model. */
  datatype Seal = SealOf(content: Content)

  /** One line of the index: which numbered window, its digest, and where it was asked to start. */
  datatype WindowRef = WindowRef(number: nat, seal: Seal, since: Stamp)

  /** The index file; writing it is not atomic, so a crash can leave it torn. */
  datatype IndexFile = NoIndex | TornIndex | Index(operation: string, checkpoint: Event, refs: seq<WindowRef>)

  /** A retained window can be used after `checkpoint`. */
  predicate Continues(files: map<nat, Content>, ref: WindowRef, n: nat, checkpoint: Event) {
    && ref.number == n
    && checkpoint.stamp == Some(ref.since)
    && n in files && SealOf(files[n]) == ref.seal
    && files[n].Window? && Proper(files[n].events)
    && checkpoint in files[n].events
  }

  datatype Replay = Broken | Replayed(creates: seq<Event>, checkpoint: Event)

  /** Replaying the retained windows from number `n` on. */
  function ReplayFrom(
    w: Watch, files: map<nat, Content>, refs: seq<WindowRef>, n: nat, creates: seq<Event>, checkpoint: Event): Replay
    requires n <= |refs|
    decreases |refs| - n
  {
    if n == |refs| then Replayed(creates, checkpoint)
    else if !Continues(files, refs[n], n, checkpoint) then Broken
    else
      var events := files[n].events;
      ReplayFrom(w, files, refs, n + 1, creates + Matching(w, Added(events, checkpoint, n == 0)), events[|events| - 1])
  }

  // --- What an honest index says about the log -----------------------------------------------

  /** The part of the log each retained window was, from its first position to one past its last. */
  type Spans = seq<(nat, nat)>

  /** Where in the log the checkpoint of window `n` stands. */
  function CheckpointAt(anchor: nat, spans: Spans, n: nat): int
    requires n <= |spans|
  {
    if n == 0 then anchor as int else spans[n - 1].1 as int - 1
  }

  /** Window `n` was the log from `spans[n].0` to `spans[n].1`, and it overlapped its checkpoint. */
  ghost predicate HonestRef(refs: seq<WindowRef>, log: seq<Event>, anchor: nat, spans: Spans, n: nat)
    requires |refs| == |spans| && n < |spans|
  {
    && 0 <= CheckpointAt(anchor, spans, n) < spans[n].1 <= |log| && spans[n].0 <= spans[n].1
    && log[CheckpointAt(anchor, spans, n)] in log[spans[n].0..spans[n].1]
    && refs[n].number == n
    && refs[n].seal == SealOf(Window(log[spans[n].0..spans[n].1]))
    && log[CheckpointAt(anchor, spans, n)].stamp == Some(refs[n].since)
  }

  ghost predicate Honest(refs: seq<WindowRef>, log: seq<Event>, anchor: nat, spans: Spans) {
    |refs| == |spans| && forall n | 0 <= n < |refs| :: HonestRef(refs, log, anchor, spans, n)
  }

  /** The journal's last checkpoint is the event where its windows end. */
  ghost predicate EndsAt(index: IndexFile, log: seq<Event>, anchor: nat, spans: Spans)
    requires index.Index?
  {
    && Honest(index.refs, log, anchor, spans)
    && var c := CheckpointAt(anchor, spans, |spans|);
       0 <= c < |log| && index.checkpoint == log[c]
  }

  /** The index is missing, torn, or exactly as some earlier call wrote it; windows may be anything. */
  ghost predicate HonestIndex(index: IndexFile, log: seq<Event>, anchor: nat) {
    index.Index? ==> index.refs != [] && exists spans: Spans :: EndsAt(index, log, anchor, spans)
  }

  /** Replay from window `n`, the log being covered from the anchor on and the checkpoint at `c`. */
  ghost function ReplayAt(
    w: Watch, files: map<nat, Content>, refs: seq<WindowRef>, log: seq<Event>, anchor: nat, covered: nat, c: nat,
    n: nat)
    : Replay
    requires anchor <= covered <= |log| && c < |log| && n <= |refs|
  {
    ReplayFrom(w, files, refs, n, Matching(w, log[anchor..covered]), log[c])
  }

  /** Where the windows before number `n` leave off. */
  ghost predicate Reached(log: seq<Event>, anchor: nat, spans: Spans, n: nat, covered: nat, c: nat) {
    && n <= |spans| && anchor <= c < |log|
    && c == CheckpointAt(anchor, spans, n) && covered == Beyond(c, n == 0)
  }

  lemma RetainedWindowContinues(
    files: map<nat, Content>, refs: seq<WindowRef>, log: seq<Event>, anchor: nat, spans: Spans, n: nat)
    requires |refs| == |spans| && n < |refs| && HonestRef(refs, log, anchor, spans, n)
    requires n in files && files[n] == Window(log[spans[n].0..spans[n].1]) && Proper(log[spans[n].0..spans[n].1])
    ensures Continues(files, refs[n], n, log[CheckpointAt(anchor, spans, n)])
  {
  }

  lemma KeptWindowContinues(
    files: map<nat, Content>, refs: seq<WindowRef>, log: seq<Event>, anchor: nat, spans: Spans, n: nat)
    requires Stamped(log) && InOrder(log) && |refs| == |spans| && n < |refs| && HonestRef(refs, log, anchor, spans, n)
    requires n in files && files[n] == Window(log[spans[n].0..spans[n].1])
    ensures Continues(files, refs[n], n, log[CheckpointAt(anchor, spans, n)])
  {
    WindowIsProper(log, spans[n].0, spans[n].1);
    RetainedWindowContinues(files, refs, log, anchor, spans, n);
  }

  lemma ReplayUnfolds(
    w: Watch, files: map<nat, Content>, refs: seq<WindowRef>, n: nat,
    creates: seq<Event>, checkpoint: Event, events: seq<Event>, more: seq<Event>, last: Event)
    requires n < |refs| && Continues(files, refs[n], n, checkpoint) && files[n].events == events
    requires more == creates + Matching(w, Added(events, checkpoint, n == 0))
    requires last == events[|events| - 1]
    ensures ReplayFrom(w, files, refs, n, creates, checkpoint) == ReplayFrom(w, files, refs, n + 1, more, last)
  {
  }

  lemma ReplayStep(
    w: Watch, files: map<nat, Content>, refs: seq<WindowRef>, log: seq<Event>, anchor: nat,
    lo: nat, hi: nat, covered: nat, c: nat, n: nat)
    requires HarmlessRepeats(w, log) && n < |refs| && anchor <= c < hi <= |log| && lo <= hi
    requires covered == Beyond(c, n == 0)
    requires Continues(files, refs[n], n, log[c]) && files[n] == Window(log[lo..hi])
    ensures ReplayAt(w, files, refs, log, anchor, covered, c, n) ==
            ReplayAt(w, files, refs, log, anchor, hi, hi - 1, n + 1)
  {
    var events := log[lo..hi];
    assert events[|events| - 1] == log[hi - 1];
    WindowAddsExactly(w, log, anchor, lo, hi, c, n == 0);
    var before, after := Matching(w, log[anchor..covered]), Matching(w, log[anchor..hi]);
    ReplayUnfolds(w, files, refs, n, before, log[c], events, after, log[hi - 1]);
  }

  /** Only the very window that was retained continues the replay: any other content breaks the seal. */
  lemma ContinuingWindowIsRetained(
    files: map<nat, Content>, refs: seq<WindowRef>, log: seq<Event>, anchor: nat, spans: Spans, n: nat)
    requires |refs| == |spans| && n < |refs| && HonestRef(refs, log, anchor, spans, n)
    requires Continues(files, refs[n], n, log[CheckpointAt(anchor, spans, n)])
    ensures files[n] == Window(log[spans[n].0..spans[n].1])
  {
  }

  lemma AcceptedContinues(
    w: Watch, files: map<nat, Content>, refs: seq<WindowRef>, n: nat, creates: seq<Event>, checkpoint: Event)
    requires n < |refs| && ReplayFrom(w, files, refs, n, creates, checkpoint).Replayed?
    ensures Continues(files, refs[n], n, checkpoint)
  {
  }

  lemma NextIsReached(refs: seq<WindowRef>, log: seq<Event>, anchor: nat, spans: Spans, n: nat, covered: nat, c: nat)
    requires Honest(refs, log, anchor, spans) && n < |refs| && Reached(log, anchor, spans, n, covered, c)
    ensures HonestRef(refs, log, anchor, spans, n)
    ensures c < spans[n].1 <= |log| && spans[n].0 <= spans[n].1
    ensures Reached(log, anchor, spans, n + 1, spans[n].1, spans[n].1 - 1)
  {
    assert HonestRef(refs, log, anchor, spans, n);
  }

  lemma AcceptedWindowAdvances(
    w: Watch, files: map<nat, Content>, refs: seq<WindowRef>, log: seq<Event>, anchor: nat, spans: Spans,
    n: nat, covered: nat, c: nat)
    requires HarmlessRepeats(w, log) && Honest(refs, log, anchor, spans)
    requires n < |refs| && Reached(log, anchor, spans, n, covered, c)
    requires ReplayAt(w, files, refs, log, anchor, covered, c, n).Replayed?
    ensures c < spans[n].1 <= |log| && Reached(log, anchor, spans, n + 1, spans[n].1, spans[n].1 - 1)
    ensures ReplayAt(w, files, refs, log, anchor, covered, c, n) ==
            ReplayAt(w, files, refs, log, anchor, spans[n].1, spans[n].1 - 1, n + 1)
  {
    NextIsReached(refs, log, anchor, spans, n, covered, c);
    AcceptedContinues(w, files, refs, n, Matching(w, log[anchor..covered]), log[c]);
    ContinuingWindowIsRetained(files, refs, log, anchor, spans, n);
    ReplayStep(w, files, refs, log, anchor, spans[n].0, spans[n].1, covered, c, n);
  }

  /**
   Replay is exact: if the retained windows are accepted at all, the creates they yield are the
   worker creates of the log from the anchor to the checkpoint, no more and no fewer.
   */
  lemma {:induction false} ReplayIsExact(
    w: Watch, files: map<nat, Content>, refs: seq<WindowRef>, log: seq<Event>, anchor: nat, spans: Spans,
    n: nat, covered: nat, c: nat) returns (covered': nat, c': nat)
    requires HarmlessRepeats(w, log) && Honest(refs, log, anchor, spans) && Reached(log, anchor, spans, n, covered, c)
    requires ReplayAt(w, files, refs, log, anchor, covered, c, n).Replayed?
    ensures Reached(log, anchor, spans, |refs|, covered', c')
    ensures ReplayAt(w, files, refs, log, anchor, covered, c, n) ==
            Replayed(Matching(w, log[anchor..covered']), log[c'])
    decreases |refs| - n
  {
    if n == |refs| {
      covered', c' := covered, c;
    } else {
      AcceptedWindowAdvances(w, files, refs, log, anchor, spans, n, covered, c);
      covered', c' := ReplayIsExact(w, files, refs, log, anchor, spans, n + 1, spans[n].1, spans[n].1 - 1);
    }
  }

  /** The retained files are the windows the honest index was written for. */
  ghost predicate IntactFrom(files: map<nat, Content>, log: seq<Event>, spans: Spans, n: nat) {
    forall k | n <= k < |spans| ::
      spans[k].0 <= spans[k].1 <= |log| && k in files && files[k] == Window(log[spans[k].0..spans[k].1])
  }

  lemma IntactUnfolds(files: map<nat, Content>, log: seq<Event>, spans: Spans, n: nat)
    requires n < |spans| && spans[n].0 <= spans[n].1 <= |log|
    ensures IntactFrom(files, log, spans, n) <==>
            n in files && files[n] == Window(log[spans[n].0..spans[n].1]) && IntactFrom(files, log, spans, n + 1)
  {
  }

  lemma OtherWindowStops(
    w: Watch, files: map<nat, Content>, refs: seq<WindowRef>, log: seq<Event>, anchor: nat, spans: Spans,
    n: nat, covered: nat, c: nat)
    requires |refs| == |spans| && n < |refs| && HonestRef(refs, log, anchor, spans, n)
    requires anchor <= covered <= |log| && c < |log|
    requires !(n in files && files[n] == Window(log[spans[n].0..spans[n].1]))
    ensures ReplayAt(w, files, refs, log, anchor, covered, c, n) == Broken
  {
    assert !Continues(files, refs[n], n, log[c]);
  }

  /** A window as it was retained carries the replay on. */
  lemma KeptWindowAdvances(
    w: Watch, files: map<nat, Content>, refs: seq<WindowRef>, log: seq<Event>, anchor: nat, spans: Spans,
    n: nat, covered: nat, c: nat)
    requires Countable(w, log) && |refs| == |spans| && n < |refs| && HonestRef(refs, log, anchor, spans, n)
    requires Reached(log, anchor, spans, n, covered, c) && n in files && files[n] == Window(log[spans[n].0..spans[n].1])
    ensures ReplayAt(w, files, refs, log, anchor, covered, c, n) ==
            ReplayAt(w, files, refs, log, anchor, spans[n].1, spans[n].1 - 1, n + 1)
  {
    KeptWindowContinues(files, refs, log, anchor, spans, n);
    ReplayStep(w, files, refs, log, anchor, spans[n].0, spans[n].1, covered, c, n);
  }

  /** Fails closed, and only then: replay accepts exactly the windows that were retained. */
  lemma {:induction false} ReplayAcceptsExactlyIntact(
    w: Watch, files: map<nat, Content>, refs: seq<WindowRef>, log: seq<Event>, anchor: nat, spans: Spans,
    n: nat, covered: nat, c: nat)
    requires Countable(w, log) && Honest(refs, log, anchor, spans) && Reached(log, anchor, spans, n, covered, c)
    ensures ReplayAt(w, files, refs, log, anchor, covered, c, n).Replayed? <==> IntactFrom(files, log, spans, n)
    decreases |refs| - n
  {
    if n < |refs| {
      NextIsReached(refs, log, anchor, spans, n, covered, c);
      IntactUnfolds(files, log, spans, n);
      if n in files && files[n] == Window(log[spans[n].0..spans[n].1]) {
        KeptWindowAdvances(w, files, refs, log, anchor, spans, n, covered, c);
        ReplayAcceptsExactlyIntact(w, files, refs, log, anchor, spans, n + 1, spans[n].1, spans[n].1 - 1);
      } else {
        OtherWindowStops(w, files, refs, log, anchor, spans, n, covered, c);
      }
    }
  }

  // --- The environment -----------------------------------------------------------------------

  /** The engine may log more; an honest index stays honest. */
  lemma LogGrowthKeepsHonest(index: IndexFile, log: seq<Event>, more: seq<Event>, anchor: nat)
    requires HonestIndex(index, log, anchor)
    ensures HonestIndex(index, log + more, anchor)
  {
    if index.Index? {
      var spans: Spans :| EndsAt(index, log, anchor, spans);
      forall n | 0 <= n < |spans| ensures HonestRef(index.refs, log + more, anchor, spans, n) {
        assert HonestRef(index.refs, log, anchor, spans, n);
        assert (log + more)[spans[n].0..spans[n].1] == log[spans[n].0..spans[n].1];
      }
      assert EndsAt(index, log + more, anchor, spans);
    }
  }

  // --- Advancing the journal -----------------------------------------------------------------

  datatype Reply = NoClock | CommandFailed | Malformed | Answer(engine: Engine)

  datatype Crash = NoCrash | WhileWritingWindow(torn: Content) | BetweenWrites | WhileWritingIndex | AfterWritingIndex

  datatype Result =
    | Unprovable                          // WorkerCountUnprovableError
    | WrongCount(creates: seq<Event>)     // not exactly one identified worker create
    | Counted(creates: seq<Event>)
    | Crashed

  /** `_count_worker_events` accepts exactly one create, and only with its container id. */
  predicate OneWorker(creates: seq<Event>) {
    |creates| == 1 && creates[0].identity != ""
  }

  /** What the retained journal yields before the engine is asked again. */
  function Resumed(index: IndexFile, files: map<nat, Content>, w: Watch, anchor: Event): Replay {
    if !index.Index? || index.operation != w.operation || index.refs == [] then Broken
    else
      var r := ReplayFrom(w, files, index.refs, 0, [], anchor);
      if r.Replayed? && r.checkpoint == index.checkpoint then r else Broken
  }

  /** The replay loop over the retained windows. */
  method ReplayWindows(index: IndexFile, files: map<nat, Content>, w: Watch, anchor: Event) returns (r: Replay)
    ensures r == Resumed(index, files, w, anchor)
  {
    if !index.Index? || index.operation != w.operation || index.refs == [] {
      return Broken;
    }
    var creates: seq<Event> := [];
    var checkpoint := anchor;
    var n := 0;
    while n < |index.refs|
      invariant n <= |index.refs|
      invariant ReplayFrom(w, files, index.refs, n, creates, checkpoint) ==
                ReplayFrom(w, files, index.refs, 0, [], anchor)
    {
      if !Continues(files, index.refs[n], n, checkpoint) {
        return Broken;
      }
      var events := files[n].events;
      var more, last := creates + Matching(w, Added(events, checkpoint, n == 0)), events[|events| - 1];
      ReplayUnfolds(w, files, index.refs, n, creates, checkpoint, events, more, last);
      creates, checkpoint, n := more, last, n + 1;
    }
    return if checkpoint == index.checkpoint then Replayed(creates, checkpoint) else Broken;
  }

  /** The line of the index for a window that reaches from `lo` to the end of the log. */
  function RestRef(number: nat, log: seq<Event>, lo: nat, since: Stamp): WindowRef
    requires lo <= |log|
  {
    WindowRef(number, SealOf(Window(log[lo..|log|])), since)
  }

  /** One more window is honest when it starts no later than the checkpoint and ends with the log. */
  lemma AppendKeepsHonest(
    refs: seq<WindowRef>, log: seq<Event>, anchor: nat, spans: Spans, lo: nat, since: Stamp)
    requires Honest(refs, log, anchor, spans) && anchor < |log|
    requires 0 <= CheckpointAt(anchor, spans, |spans|) < |log| && lo <= |log|
    requires log[CheckpointAt(anchor, spans, |spans|)] in log[lo..]
    requires log[CheckpointAt(anchor, spans, |spans|)].stamp == Some(since)
    ensures Honest(refs + [RestRef(|refs|, log, lo, since)], log, anchor, spans + [(lo, |log|)])
  {
    var refs', spans' := refs + [RestRef(|refs|, log, lo, since)], spans + [(lo, |log|)];
    forall n | 0 <= n < |refs'| ensures HonestRef(refs', log, anchor, spans', n) {
      assert n < |refs| ==> HonestRef(refs, log, anchor, spans, n);
      assert CheckpointAt(anchor, spans', n) == CheckpointAt(anchor, spans, n);
    }
  }

  /** Where a call stands once the retained journal is read, or why it stops there. */
  datatype Resumption =
    | Refuse
    | Miscounted(creates: seq<Event>)
    | From(creates: seq<Event>, checkpoint: Event, refs: seq<WindowRef>)

  function ResumeFrom(index: IndexFile, files: map<nat, Content>, w: Watch, initial: bool, create: Event): Resumption {
    if initial then
      if index == NoIndex then From([], create, []) else Resumption.Refuse
    else
      match Resumed(index, files, w, create)
      case Broken => Resumption.Refuse
      case Replayed(creates, checkpoint) =>
        if OneWorker(creates) then From(creates, checkpoint, index.refs) else Resumption.Miscounted(creates)
  }

  method Resume(index: IndexFile, files: map<nat, Content>, w: Watch, initial: bool, create: Event)
    returns (r: Resumption)
    ensures r == ResumeFrom(index, files, w, initial, create)
  {
    if initial {
      return if index == NoIndex then From([], create, []) else Resumption.Refuse;
    }
    var replay := ReplayWindows(index, files, w, create);
    if replay.Broken? {
      return Resumption.Refuse;
    }
    return if OneWorker(replay.creates) then From(replay.creates, replay.checkpoint, index.refs)
      else Resumption.Miscounted(replay.creates);
  }

  /** Windows that end at log position `c`: everything up to there is counted. */
  ghost predicate Counts(
    w: Watch, creates: seq<Event>, refs: seq<WindowRef>, log: seq<Event>, anchor: nat,
    spans: Spans, c: nat)
  {
    && Honest(refs, log, anchor, spans)
    && anchor <= c < |log| && c == CheckpointAt(anchor, spans, |spans|)
    && creates == Matching(w, log[anchor..if refs == [] then c else c + 1])
  }

  lemma ResumptionIsExact(
    index: IndexFile, files: map<nat, Content>, w: Watch, initial: bool, log: seq<Event>,
    anchor: nat)
    returns (c: nat, spans: Spans)
    requires Countable(w, log) && anchor < |log| && HonestIndex(index, log, anchor)
    ensures var r := ResumeFrom(index, files, w, initial, log[anchor]);
            && (r.From? ==>
                  && c < |log| && r.checkpoint == log[c] && Counts(w, r.creates, r.refs, log, anchor, spans, c)
                  && (r.refs == [] <==> initial))
            && (r.Miscounted? ==> r.creates <= Matching(w, log[anchor..|log|]) && !OneWorker(r.creates))
  {
    c, spans := anchor, [];
    assert log[anchor..anchor] == [];
    if !initial && Resumed(index, files, w, log[anchor]).Replayed? {
      c, spans := ResumedInSpans(index, files, w, log, anchor);
      PrefixMatches(w, log, anchor, c + 1);
    }
  }

  /** The engine's answer after a checkpoint, or why it proves nothing. */
  datatype Extension =
    | Refuse
    | Miscounted(creates: seq<Event>)
    | Extended(creates: seq<Event>, events: seq<Event>, since: Stamp)

  function Extend(w: Watch, reply: Reply, creates: seq<Event>, checkpoint: Event, first: bool): (e: Extension)
    requires reply.Answer? ==> reply.engine.evicted <= |reply.engine.log|
    ensures e.Extended? ==> e.events != []
  {
    if !reply.Answer? || checkpoint.stamp.None? then Extension.Refuse
    else
      var events := Query(reply.engine, checkpoint.stamp.value);
      if !Proper(events) || checkpoint !in events then Extension.Refuse
      else
        var all := creates + Matching(w, Added(events, checkpoint, first));
        if OneWorker(all) then Extended(all, events, checkpoint.stamp.value) else Extension.Miscounted(all)
  }

  /** The extension completes the count to the end of the log. */
  lemma ExtensionIsExact(w: Watch, reply: Reply, log: seq<Event>, anchor: nat, c: nat, first: bool) returns (lo: nat)
    requires Countable(w, log) && reply.Answer? && reply.engine.log == log && reply.engine.evicted <= |log|
    requires anchor <= c < |log|
    requires !Extend(w, reply, Matching(w, log[anchor..if first then c else c + 1]), log[c], first).Refuse?
    ensures lo < |log| && log[c] in log[lo..|log|] && log[c].stamp.Some?
    ensures Query(reply.engine, log[c].stamp.value) == log[lo..|log|]
    ensures var e := Extend(w, reply, Matching(w, log[anchor..if first then c else c + 1]), log[c], first);
            && e.creates == Matching(w, log[anchor..|log|])
            && (e.Extended? ==> e.events == log[lo..|log|] && e.since == log[c].stamp.value && OneWorker(e.creates))
            && (e.Miscounted? ==> !OneWorker(e.creates))
  {
    lo := QueryIsSuffix(reply.engine, log[c].stamp.value);
    WindowAddsExactly(w, log, anchor, lo, |log|, c, first);
  }

  /** The retained files of one operation. */
  datatype Retained = Retained(index: IndexFile, windows: map<nat, Content>)

  datatype Save = Save(kept: Retained, finished: bool)

  /** The end of a call: the new window is saved first, then the index that refers to it. */
  function Saved(s: Retained, w: Watch, refs: seq<WindowRef>, events: seq<Event>, since: Stamp, crash: Crash): Save
    requires events != []
  {
    var n, whole := |refs|, Window(events);
    match crash
    case WhileWritingWindow(torn) => Save(s.(windows := s.windows[n := torn]), false)
    case BetweenWrites => Save(s.(windows := s.windows[n := whole]), false)
    case WhileWritingIndex => Save(Retained(TornIndex, s.windows[n := whole]), false)
    case _ =>
      Save(Retained(Index(w.operation, events[|events| - 1], refs + [WindowRef(n, SealOf(whole), since)]),
                    s.windows[n := whole]), crash.NoCrash?)
  }

  datatype Called = Called(kept: Retained, result: Result)

  /** The second half of a call: ask the engine, count, and save what is new. */
  function Continue(
    s: Retained, w: Watch, reply: Reply, crash: Crash, creates: seq<Event>, checkpoint: Event, refs: seq<WindowRef>,
    first: bool)
    : Called
    requires reply.Answer? ==> reply.engine.evicted <= |reply.engine.log|
  {
    match Extend(w, reply, creates, checkpoint, first)
    case Refuse => Called(s, Unprovable)
    case Miscounted(all) => Called(s, WrongCount(all))
    case Extended(all, events, since) =>
      if refs != [] && events[|events| - 1] == checkpoint then Called(s, Counted(all))
      else
        var save := Saved(s, w, refs, events, since, crash);
        Called(save.kept, if save.finished then Counted(all) else Crashed)
  }

  /** One call: replay the retained windows, then go on from the last checkpoint. */
  function Call(s: Retained, w: Watch, initial: bool, reply: Reply, crash: Crash, create: Event): Called
    requires reply.Answer? ==> reply.engine.evicted <= |reply.engine.log|
  {
    match ResumeFrom(s.index, s.windows, w, initial, create)
    case Refuse => Called(s, Unprovable)
    case Miscounted(creates) => Called(s, WrongCount(creates))
    case From(creates, checkpoint, refs) => Continue(s, w, reply, crash, creates, checkpoint, refs, initial)
  }

  /** What a call owes: an honest index, an exact count or a list that is no count, and nothing on refusal. */
  ghost predicate Owed(c: Called, s: Retained, w: Watch, log: seq<Event>, anchor: nat)
    requires anchor < |log|
  {
    && HonestIndex(c.kept.index, log, anchor)
    && (c.result.Counted? ==>
          c.result.creates == Matching(w, log[anchor..|log|]) && ExactCount(w, log, anchor, c.result.creates))
    && (c.result.WrongCount? ==>
          && c.result.creates <= Matching(w, log[anchor..|log|])
          && (|c.result.creates| != 1 || c.result.creates[0].identity == ""))
    && (c.result.Unprovable? || c.result.WrongCount? ==> c.kept == s)
  }

  lemma OneWorkerIsExact(w: Watch, log: seq<Event>, anchor: nat)
    requires anchor < |log|
    ensures OneWorker(Matching(w, log[anchor..|log|])) <==>
            ExactCount(w, log, anchor, Matching(w, log[anchor..|log|]))
  {
    if OneWorker(Matching(w, log[anchor..|log|])) {
      var k := OneMatchIsOnly(w, log, anchor);
      assert OnlyCreateAt(w, log, anchor, k);
    }
  }

  lemma SaveIsHonest(
    s: Retained, w: Watch, refs: seq<WindowRef>, log: seq<Event>, anchor: nat, spans: Spans, lo: nat, since: Stamp,
    crash: Crash)
    requires anchor < |log| && lo < |log| && HonestIndex(s.index, log, anchor) && Honest(refs, log, anchor, spans)
    requires 0 <= CheckpointAt(anchor, spans, |spans|) < |log| && log[CheckpointAt(anchor, spans, |spans|)] in log[lo..]
    requires log[CheckpointAt(anchor, spans, |spans|)].stamp == Some(since)
    ensures HonestIndex(Saved(s, w, refs, log[lo..|log|], since, crash).kept.index, log, anchor)
  {
    AppendKeepsHonest(refs, log, anchor, spans, lo, since);
    assert log[lo..|log|][|log| - lo - 1] == log[|log| - 1];
    var saved := Saved(s, w, refs, log[lo..|log|], since, crash).kept.index;
    SavedIndexIsHonest(saved, s.index, w, refs, log, anchor, spans, lo, since);
  }

  lemma ContinueIsExact(
    s: Retained, w: Watch, reply: Reply, crash: Crash, log: seq<Event>, anchor: nat, spans: Spans, c: nat,
    creates: seq<Event>, refs: seq<WindowRef>, first: bool)
    requires Countable(w, log) && anchor < |log| && HonestIndex(s.index, log, anchor)
    requires reply.Answer? ==> reply.engine.log == log && reply.engine.evicted <= |log|
    requires Counts(w, creates, refs, log, anchor, spans, c) && (first <==> refs == [])
    ensures Owed(Continue(s, w, reply, crash, creates, log[c], refs, first), s, w, log, anchor)
  {
    if !Extend(w, reply, creates, log[c], first).Refuse? {
      var lo := ExtensionIsExact(w, reply, log, anchor, c, first);
      SaveIsHonest(s, w, refs, log, anchor, spans, lo, log[c].stamp.value, crash);
      OneWorkerIsExact(w, log, anchor);
    }
  }

  /**
   Whatever was evicted, whatever happened to the retained windows and wherever earlier calls
   crashed: a count that is returned is the count of the whole log from the anchor on, a refusal
   changes nothing, and the index stays one that an honest call wrote.
   */
  lemma CallIsExact(s: Retained, w: Watch, initial: bool, reply: Reply, crash: Crash, log: seq<Event>, anchor: nat)
    requires Countable(w, log) && anchor < |log| && HonestIndex(s.index, log, anchor)
    requires reply.Answer? ==> reply.engine.log == log && reply.engine.evicted <= |log|
    ensures Owed(Call(s, w, initial, reply, crash, log[anchor]), s, w, log, anchor)
  {
    var start := ResumeFrom(s.index, s.windows, w, initial, log[anchor]);
    var c, spans := ResumptionIsExact(s.index, s.windows, w, initial, log, anchor);
    if start.From? {
      ContinueIsExact(s, w, reply, crash, log, anchor, spans, c, start.creates, start.refs, initial);
    }
  }

  /** Two creates of the worker from the anchor on are never counted, wherever they came from. */
  lemma TwoCreatesAreNoCount(
    s: Retained, w: Watch, initial: bool, reply: Reply, crash: Crash, log: seq<Event>, anchor: nat, i: nat, j: nat)
    requires Countable(w, log) && anchor < |log| && HonestIndex(s.index, log, anchor)
    requires reply.Answer? ==> reply.engine.log == log && reply.engine.evicted <= |log|
    requires anchor <= i < j < |log| && CreatedAt(w, log, i) && CreatedAt(w, log, j)
    ensures !Call(s, w, initial, reply, crash, log[anchor]).result.Counted?
  {
    CallIsExact(s, w, initial, reply, crash, log, anchor);
  }

  /** An engine that still has the checkpoint lets the call go on. */
  lemma RetainedIsNotRefused(w: Watch, engine: Engine, creates: seq<Event>, c: nat, first: bool)
    requires Stamped(engine.log) && InOrder(engine.log) && engine.evicted <= c < |engine.log|
    ensures !Extend(w, Answer(engine), creates, engine.log[c], first).Refuse?
  {
    RetainedIsSeen(engine, c);
    var lo := QueryIsSuffix(engine, engine.log[c].stamp.value);
    WindowIsProper(engine.log, lo, |engine.log|);
  }

  /**
   A first call that gets an answer from an engine that still has the anchor counts exactly when one
   position from the anchor on creates the worker, with an identity, and it returns that event.
   */
  lemma FirstCallCounts(s: Retained, w: Watch, engine: Engine, anchor: nat)
    requires Countable(w, engine.log) && s.index == NoIndex && engine.evicted <= anchor < |engine.log|
    ensures var r := Call(s, w, true, Answer(engine), NoCrash, engine.log[anchor]).result;
            && (r.Counted? || r.WrongCount?)
            && (r.Counted? <==>
                exists k: int :: OnlyCreateAt(w, engine.log, anchor, k) && engine.log[k].identity != "")
            && (r.Counted? ==> ExactCount(w, engine.log, anchor, r.creates))
  {
    var log := engine.log;
    CallIsExact(s, w, true, Answer(engine), NoCrash, log, anchor);
    assert log[anchor..anchor] == [];
    RetainedIsNotRefused(w, engine, [], anchor, true);
    var _ := ExtensionIsExact(w, Answer(engine), log, anchor, anchor, true);
    if k: int :| OnlyCreateAt(w, log, anchor, k) && log[k].identity != "" {
      OneMatches(w, log, anchor, k);
    }
  }

  // --- Any number of calls -------------------------------------------------------------------

  /**
   What happens before and during one call: the engine logs more and evicts, the retained windows
   become anything at all, and the call may get no answer or crash.
   */
  datatype Round = Round(
    more: seq<Event>, evicted: nat, windows: map<nat, Content>, initial: bool, answers: bool, crash: Crash)

  function ReplyIn(r: Round, log: seq<Event>): Reply {
    if r.answers && r.evicted <= |log| then Answer(Engine(log, r.evicted)) else CommandFailed
  }

  function CallIn(index: IndexFile, w: Watch, log: seq<Event>, create: Event, r: Round): Called {
    Call(Retained(index, r.windows), w, r.initial, ReplyIn(r, log + r.more), r.crash, create)
  }

  function {:tailrecursion false} Logged(log: seq<Event>, rounds: seq<Round>): seq<Event>
    decreases |rounds|
  {
    if rounds == [] then log else Logged(log + rounds[0].more, rounds[1..])
  }

  /** Every count returned along the rounds is the count of the whole log at that moment. */
  ghost predicate EachIsExact(index: IndexFile, w: Watch, log: seq<Event>, anchor: nat, rounds: seq<Round>)
    requires anchor < |log|
    decreases |rounds|
  {
    rounds == [] ||
    var now, c := log + rounds[0].more, CallIn(index, w, log, log[anchor], rounds[0]);
    && (c.result.Counted? ==> ExactCount(w, now, anchor, c.result.creates))
    && EachIsExact(c.kept.index, w, now, anchor, rounds[1..])
  }

  /** Every count returned along the rounds is the same list. */
  ghost predicate EachIs(
    index: IndexFile, w: Watch, log: seq<Event>, create: Event, rounds: seq<Round>,
    creates: seq<Event>)
    decreases |rounds|
  {
    rounds == [] ||
    var c := CallIn(index, w, log, create, rounds[0]);
    && (c.result.Counted? ==> c.result.creates == creates)
    && EachIs(c.kept.index, w, log + rounds[0].more, create, rounds[1..], creates)
  }

  lemma {:induction false} LoggedExtends(log: seq<Event>, rounds: seq<Round>) returns (more: seq<Event>)
    ensures Logged(log, rounds) == log + more
    decreases |rounds|
  {
    if rounds == [] {
      more := [];
    } else {
      var rest := LoggedExtends(log + rounds[0].more, rounds[1..]);
      more := rounds[0].more + rest;
    }
  }

  lemma SliceOfPrefix(log: seq<Event>, more: seq<Event>, from: nat)
    requires from <= |log|
    ensures (log + more)[from..|log|] == log[from..|log|]
  {
    var whole := log + more;
    assert forall i | from <= i < |log| :: whole[i] == log[i];
  }

  lemma CountedOnce(w: Watch, log: seq<Event>, more: seq<Event>, anchor: nat)
    requires anchor < |log| && |Matching(w, log[anchor..|log|])| == 1
    ensures Matching(w, (log + more)[anchor..|log + more|]) != []
    ensures Matching(w, log[anchor..|log|]) == Matching(w, (log + more)[anchor..|log + more|])[..1]
  {
    SliceOfPrefix(log, more, anchor);
    PrefixMatches(w, log + more, anchor, |log|);
  }

  /**
   For any number of calls, with any growth, eviction, tampering, failure and crash between and in
   them: every count that is returned is exact, and all of them are the same single create.
   */
  lemma {:induction false} EveryCountIsExact(
    index: IndexFile, w: Watch, log: seq<Event>, anchor: nat,
    rounds: seq<Round>)
    requires Countable(w, Logged(log, rounds)) && anchor < |log| && HonestIndex(index, log, anchor)
    ensures EachIsExact(index, w, log, anchor, rounds)
    ensures var whole := Logged(log, rounds);
            anchor < |whole| && EachIs(index, w, log, log[anchor], rounds, First(Matching(w, whole[anchor..|whole|])))
    decreases |rounds|
  {
    var more := LoggedExtends(log, rounds);
    if rounds != [] {
      var r := rounds[0];
      var now := log + r.more;
      var later := LoggedExtends(now, rounds[1..]);
      CountablePrefix(w, now, later);
      LogGrowthKeepsHonest(index, log, r.more, anchor);
      CallIsExact(Retained(index, r.windows), w, r.initial, ReplyIn(r, now), r.crash, now, anchor);
      var c := CallIn(index, w, log, log[anchor], r);
      if c.result.Counted? {
        CountedOnce(w, now, later, anchor);
      }
      EveryCountIsExact(c.kept.index, w, now, anchor, rounds[1..]);
    }
  }

  function First(events: seq<Event>): seq<Event> {
    if events == [] then [] else events[..1]
  }

  /** The journal as files that the calls change in place. */
  class Journal {
    var index: IndexFile
    var windows: map<nat, Content>

    constructor ()
      ensures index == NoIndex && windows == map[]
    {
      index, windows := NoIndex, map[];
    }

    method Store(w: Watch, refs: seq<WindowRef>, events: seq<Event>, since: Stamp, crash: Crash)
      returns (finished: bool)
      requires events != []
      modifies this
      ensures Save(Retained(index, windows), finished) ==
              Saved(old(Retained(index, windows)), w, refs, events, since, crash)
    {
      if crash.WhileWritingWindow? {
        windows := windows[|refs| := crash.torn];
        return false;
      }
      windows := windows[|refs| := Window(events)];
      if crash.BetweenWrites? {
        return false;
      }
      if crash.WhileWritingIndex? {
        index := TornIndex;
        return false;
      }
      index := Index(w.operation, events[|events| - 1], refs + [WindowRef(|refs|, SealOf(windows[|refs|]), since)]);
      return crash.NoCrash?;
    }

    /** `_advance_worker_event_coverage`. */
    method Advance(w: Watch, initial: bool, reply: Reply, crash: Crash, create: Event) returns (r: Result)
      requires reply.Answer? ==> reply.engine.evicted <= |reply.engine.log|
      modifies this
      ensures Called(Retained(index, windows), r) ==
              Call(old(Retained(index, windows)), w, initial, reply, crash, create)
    {
      var start := Resume(index, windows, w, initial, create);
      if start.Refuse? {
        return Unprovable;
      }
      if start.Miscounted? {
        return WrongCount(start.creates);
      }
      var extension := Extend(w, reply, start.creates, start.checkpoint, initial);
      if extension.Refuse? {
        return Unprovable;
      }
      if extension.Miscounted? {
        return WrongCount(extension.creates);
      }
      if start.refs == [] || extension.events[|extension.events| - 1] != start.checkpoint {
        var finished := Store(w, start.refs, extension.events, extension.since, crash);
        if !finished {
          return Crashed;
        }
      }
      return Counted(extension.creates);
    }
  }

  lemma PrefixMatches(w: Watch, log: seq<Event>, anchor: nat, end: nat)
    requires anchor <= end <= |log|
    ensures Matching(w, log[anchor..end]) <= Matching(w, log[anchor..|log|])
  {
    MatchingParts(w, log[anchor..end], log[end..]);
    assert log[anchor..|log|] == log[anchor..end] + log[end..];
  }

  lemma ResumedInSpans(index: IndexFile, files: map<nat, Content>, w: Watch, log: seq<Event>, anchor: nat)
    returns (c: nat, spans: Spans)
    requires Countable(w, log) && anchor < |log| && HonestIndex(index, log, anchor)
    requires Resumed(index, files, w, log[anchor]).Replayed?
    ensures anchor <= c < |log| && spans != [] && Honest(index.refs, log, anchor, spans)
    ensures c == CheckpointAt(anchor, spans, |spans|)
    ensures Resumed(index, files, w, log[anchor]) == Replayed(Matching(w, log[anchor..c + 1]), log[c])
  {
    spans :| EndsAt(index, log, anchor, spans);
    assert log[anchor..anchor] == [];
    var _, last := ReplayIsExact(w, files, index.refs, log, anchor, spans, 0, anchor, anchor);
    c := last;
  }

  lemma SavedIndexIsHonest(
    index: IndexFile, before: IndexFile, w: Watch, refs: seq<WindowRef>, log: seq<Event>, anchor: nat, spans: Spans,
    lo: nat, since: Stamp)
    requires lo < |log| && HonestIndex(before, log, anchor)
    requires Honest(refs + [RestRef(|refs|, log, lo, since)], log, anchor, spans + [(lo, |log|)])
    requires index == before || index == TornIndex ||
             index == Index(w.operation, log[|log| - 1], refs + [RestRef(|refs|, log, lo, since)])
    ensures HonestIndex(index, log, anchor)
  {
    if index.Index? && index != before {
      assert EndsAt(index, log, anchor, spans + [(lo, |log|)]);
    }
  }

  // --- When a call refuses -------------------------------------------------------------

  /** With an answering engine, a call stops for lack of proof exactly when its checkpoint is evicted. */
  lemma ExtendRefusesExactlyWhenEvicted(w: Watch, engine: Engine, creates: seq<Event>, c: nat, first: bool)
    requires Stamped(engine.log) && InOrder(engine.log) && Distinct(engine.log) && engine.evicted <= |engine.log|
             && c < |engine.log|
    ensures Extend(w, Answer(engine), creates, engine.log[c], first).Refuse? <==> c < engine.evicted
  {
    var since := engine.log[c].stamp.value;
    CheckpointSeenExactly(engine, c);
    var lo := QueryIsSuffix(engine, since);
    if engine.log[c] in Query(engine, since) {
      SuffixSees(engine.log, lo, c);
      WindowIsProper(engine.log, lo, |engine.log|);
    }
  }

  /** A count up to any occurrence of the last event is the count of the whole log. */
  lemma LastOccurrenceCounts(w: Watch, log: seq<Event>, anchor: nat, c: nat)
    requires HarmlessRepeats(w, log) && anchor <= c < |log| && log[c] == log[|log| - 1]
    ensures Matching(w, log[anchor..c + 1]) == Matching(w, log[anchor..|log|])
  {
    HarmlessPair(w, log, c, |log| - 1, false);
    MatchingBetween(w, log, anchor, c + 1, |log|);
  }

  /**
   A later call replays the very list an earlier call counted, however much the engine has logged
   and evicted since: the journal that ended at the then last event still yields the creates of the
   then whole log.
   */
  lemma ReplayRepeatsTheCount(
    index: IndexFile, files: map<nat, Content>, w: Watch, log: seq<Event>, more: seq<Event>,
    anchor: nat)
    requires Countable(w, log + more) && anchor < |log| && HonestIndex(index, log, anchor)
    requires index.Index? && index.checkpoint == log[|log| - 1]
    requires Resumed(index, files, w, log[anchor]).Replayed?
    ensures Resumed(index, files, w, log[anchor]).creates == Matching(w, log[anchor..|log|])
  {
    CountablePrefix(w, log, more);
    var c, _ := ResumedInSpans(index, files, w, log, anchor);
    LastOccurrenceCounts(w, log, anchor, c);
  }

  // --- Counting creates ----------------------------------------------------------------------

  /** The part of a live session that counts worker creates into the scenario's effects. */
  class WorkerCounter {
    const recovering: bool
    var isolated: nat         // effects["isolated_containers"]
    var counted: nat          // counted_worker_creates

    constructor (recovering: bool, isolated: nat)
      ensures this.recovering == recovering && this.isolated == isolated && counted == 0
    {
      this.recovering, this.isolated, counted := recovering, isolated, 0;
    }

    /** `_count_worker_events`. */
    method Count(creates: seq<Event>) returns (accepted: bool)
      modifies this
      ensures accepted <==> OneWorker(creates)
      ensures !recovering ==> Tally(isolated, counted) == Tally(old(isolated), old(counted)).Count(|creates|)
      ensures recovering ==> isolated == old(isolated) && counted == old(counted)
    {
      if !recovering {
        isolated := isolated + (if |creates| > counted then |creates| - counted else 0);
        counted := if |creates| > counted then |creates| else counted;
      }
      return OneWorker(creates);
    }
  }

  datatype Tally = Tally(isolated: nat, counted: nat) {
    function Count(length: nat): Tally {
      if length > counted then Tally(isolated + (length - counted), length) else this
    }

    function {:tailrecursion false} CountAll(lengths: seq<nat>): Tally
      decreases |lengths|
    {
      if lengths == [] then this else Count(lengths[0]).CountAll(lengths[1..])
    }
  }

  function Longest(lengths: seq<nat>): nat {
    if lengths == [] then 0
    else
      var rest := Longest(lengths[1..]);
      if lengths[0] > rest then lengths[0] else rest
  }

  /** Repeated counting telescopes: what is added in all is how far the longest list exceeds the start. */
  lemma {:induction false} CountingTelescopes(t: Tally, lengths: seq<nat>)
    ensures var u := t.CountAll(lengths);
            && u.counted == (if Longest(lengths) > t.counted then Longest(lengths) else t.counted)
            && u.isolated - t.isolated == u.counted - t.counted
    decreases |lengths|
  {
    if lengths != [] {
      CountingTelescopes(t.Count(lengths[0]), lengths[1..]);
    }
  }
}
