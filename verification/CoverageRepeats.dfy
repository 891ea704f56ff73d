/**
 The rolling journal on a log that repeats events: when the count is still exact
 (`_advance_worker_event_coverage` in `scripts/factory_gate_protocol_live.py`).
 */
module CoverageRepeats {
  import opened Common
  import opened Timestamps
  import opened CoverageLog
  import opened Coverage

  /** What an answer adds is the log after the first place in it where the checkpoint is found. */
  lemma AnswerAdds(engine: Engine, checkpoint: Event, first: bool) returns (lo: nat, f: nat)
    requires Stamped(engine.log) && InOrder(engine.log) && engine.evicted <= |engine.log| && checkpoint.stamp.Some?
    requires checkpoint in Query(engine, checkpoint.stamp.value)
    ensures lo <= f < |engine.log| && engine.log[f] == checkpoint && checkpoint !in engine.log[lo..f]
    ensures Query(engine, checkpoint.stamp.value) == engine.log[lo..]
    ensures Added(Query(engine, checkpoint.stamp.value), checkpoint, first) ==
            engine.log[Beyond(f, first)..|engine.log|]
  {
    lo := QueryIsSuffix(engine, checkpoint.stamp.value);
    assert engine.log[lo..|engine.log|] == engine.log[lo..];
    f := AddedFrom(engine.log, lo, |engine.log|, checkpoint, first);
  }

  lemma ExtendedCreates(w: Watch, engine: Engine, creates: seq<Event>, checkpoint: Event, first: bool)
    requires engine.evicted <= |engine.log| && !Extend(w, Answer(engine), creates, checkpoint, first).Refuse?
    ensures checkpoint.stamp.Some? && checkpoint in Query(engine, checkpoint.stamp.value)
    ensures Extend(w, Answer(engine), creates, checkpoint, first).creates ==
            creates + Matching(w, Added(Query(engine, checkpoint.stamp.value), checkpoint, first))
  {
  }

  /**
   Repetition allowed: the answer is searched from its start, so the checkpoint may be found at
   another position `f` than the one `c` the count stands at.  The extended count is that of the
   whole log if and only if no create lies between the two.
   */
  lemma ExtensionExactlyWhen(w: Watch, reply: Reply, log: seq<Event>, anchor: nat, c: nat, first: bool)
    returns (lo: nat, f: nat)
    requires Stamped(log) && InOrder(log) && reply.Answer? && reply.engine.log == log && reply.engine.evicted <= |log|
    requires anchor <= c < |log|
    requires !Extend(w, reply, Matching(w, log[anchor..Beyond(c, first)]), log[c], first).Refuse?
    ensures lo <= f < |log| && log[f] == log[c] && log[c] !in log[lo..f]
    ensures log[c].stamp.Some? && Query(reply.engine, log[c].stamp.value) == log[lo..]
    ensures var e := Extend(w, reply, Matching(w, log[anchor..Beyond(c, first)]), log[c], first);
            e.creates == Matching(w, log[anchor..]) <==>
            Matching(w, Between(log, Beyond(c, first), Beyond(f, first))) == []
  {
    ExtendedCreates(w, reply.engine, Matching(w, log[anchor..Beyond(c, first)]), log[c], first);
    lo, f := AnswerAdds(reply.engine, log[c], first);
    GoingOnElsewhere(w, log, anchor, Beyond(c, first), Beyond(f, first), |log|);
    assert log[anchor..|log|] == log[anchor..];
  }

  /** The same of a whole call that resumed with a count exact up to `c`. */
  lemma CallExactlyWhen(
    s: Retained, w: Watch, initial: bool, reply: Reply, crash: Crash, log: seq<Event>, anchor: nat, c: nat)
    returns (lo: nat, f: nat)
    requires Stamped(log) && InOrder(log) && reply.Answer? && reply.engine.log == log && reply.engine.evicted <= |log|
    requires anchor <= c < |log|
    requires var start := ResumeFrom(s.index, s.windows, w, initial, log[anchor]);
             start.From? && start.checkpoint == log[c] && start.creates == Matching(w, log[anchor..Beyond(c, initial)])
    requires Call(s, w, initial, reply, crash, log[anchor]).result.Counted?
    ensures lo <= f < |log| && log[f] == log[c] && log[c] !in log[lo..f]
    ensures log[c].stamp.Some? && Query(reply.engine, log[c].stamp.value) == log[lo..]
    ensures Call(s, w, initial, reply, crash, log[anchor]).result.creates == Matching(w, log[anchor..]) <==>
            Matching(w, Between(log, Beyond(c, initial), Beyond(f, initial))) == []
  {
    lo, f := ExtensionExactlyWhen(w, reply, log, anchor, c, initial);
  }

  /** Standing at `c` and asking an engine that evicted `evicted` events extends the count exactly. */
  ghost predicate ExtendsExactly(w: Watch, log: seq<Event>, evicted: nat, anchor: nat, c: nat, first: bool)
    requires evicted <= |log| && anchor <= c < |log|
  {
    var e := Extend(w, Answer(Engine(log, evicted)), Matching(w, log[anchor..Beyond(c, first)]), log[c], first);
    e.Refuse? || e.creates == Matching(w, log[anchor..])
  }

  lemma HarmlessIsExact(w: Watch, log: seq<Event>, evicted: nat, anchor: nat, c: nat, first: bool)
    requires Stamped(log) && InOrder(log) && HarmlessRepeats(w, log) && evicted <= |log| && anchor <= c < |log|
    ensures ExtendsExactly(w, log, evicted, anchor, c, first)
  {
    var reply := Answer(Engine(log, evicted));
    if !Extend(w, reply, Matching(w, log[anchor..Beyond(c, first)]), log[c], first).Refuse? {
      var _, f := ExtensionExactlyWhen(w, reply, log, anchor, c, first);
      HarmlessPair(w, log, c, f, first);
    }
  }

  /** With everything up to `c` evicted, a query from the stamp of `c` shows all the rest. */
  lemma QueryShowsTheRest(log: seq<Event>, c: nat)
    requires Stamped(log) && InOrder(log) && c < |log|
    ensures Query(Engine(log, c + 1), log[c].stamp.value) == log[c + 1..]
  {
    var rest, since := log[c + 1..], log[c].stamp.value;
    assert Stamped(rest) && InOrder(rest);
    if rest != [] {
      assert rest[0] == log[c + 1];
      assert StampLeq(log[c].stamp.value, log[c + 1].stamp.value);
    }
    AllSince(rest, since);
  }

  lemma NotRefused(w: Watch, log: seq<Event>, c: nat, f: nat, creates: seq<Event>)
    requires Stamped(log) && InOrder(log) && c < f < |log| && log[c] == log[f]
    ensures Query(Engine(log, c + 1), log[c].stamp.value) == log[c + 1..]
    ensures !Extend(w, Answer(Engine(log, c + 1)), creates, log[c], false).Refuse?
  {
    QueryShowsTheRest(log, c);
    RestIsProper(log, c + 1);
    assert log[c + 1..][f - c - 1] == log[c];
  }

  lemma ExtendsExactlyMeans(w: Watch, log: seq<Event>, c: nat, g: nat)
    requires c < g < |log|
    ensures Matching(w, Between(log, Beyond(c, false), Beyond(g, false))) == [] <==> NothingBetween(w, log, c, g)
  {
  }

  /** With everything up to `c` evicted the checkpoint is found at its next occurrence. */
  lemma NextOccurrenceDecides(w: Watch, log: seq<Event>, c: nat, f: nat) returns (g: nat)
    requires Stamped(log) && InOrder(log) && c < f < |log| && log[c] == log[f]
    ensures c < g <= f && log[g] == log[c]
    ensures ExtendsExactly(w, log, c + 1, c, c, false) <==> NothingBetween(w, log, c, g)
  {
    NotRefused(w, log, c, f, Matching(w, log[c..Beyond(c, false)]));
    var lo;
    lo, g := ExtensionExactlyWhen(w, Answer(Engine(log, c + 1)), log, c, c, false);
    FoundNoLater(log, c, f, lo, g);
    ExtendsExactlyMeans(w, log, c, g);
  }

  lemma RestHasTheCreate(w: Watch, log: seq<Event>, c: nat, g: nat, f: nat)
    requires c < g <= f < |log| && NothingBetween(w, log, c, g) && !NothingBetween(w, log, c, f)
    ensures g < f && !NothingBetween(w, log, g, f)
  {
    MatchingBetween(w, log, c + 1, g + 1, f + 1);
  }

  /** A create between two occurrences spoils the extension at some occurrence of the event. */
  lemma {:induction false} RepeatSpoils(w: Watch, log: seq<Event>, c: nat, f: nat) returns (k: nat)
    requires Stamped(log) && InOrder(log) && c < f < |log| && log[c] == log[f] && !NothingBetween(w, log, c, f)
    ensures k < |log| && !ExtendsExactly(w, log, k + 1, k, k, false)
    decreases f - c
  {
    var g := NextOccurrenceDecides(w, log, c, f);
    if NothingBetween(w, log, c, g) {
      RestHasTheCreate(w, log, c, g, f);
      k := RepeatSpoils(w, log, g, f);
    } else {
      k := c;
    }
  }

  lemma RestIsProper(log: seq<Event>, from: nat)
    requires Stamped(log) && InOrder(log) && from < |log|
    ensures Proper(log[from..])
  {
  }

  lemma FoundNoLater(log: seq<Event>, c: nat, f: nat, lo: nat, g: nat)
    requires c < f < |log| && log[c] == log[f] && lo <= g < |log| && log[c] !in log[lo..g]
    requires log[lo..] == log[c + 1..]
    ensures lo == c + 1 && c < g <= f
  {
    assert |log[lo..]| == |log[c + 1..]|;
  }

  /** Every extension is exact, whatever was evicted, if and only if repeated events are harmless. */
  lemma EveryExtensionExactExactly(w: Watch, log: seq<Event>)
    requires Stamped(log) && InOrder(log)
    ensures HarmlessRepeats(w, log) <==>
            forall evicted, anchor, c, first | 0 <= evicted <= |log| && 0 <= anchor <= c < |log| ::
              ExtendsExactly(w, log, evicted, anchor, c, first)
  {
    if HarmlessRepeats(w, log) {
      forall evicted, anchor, c, first | 0 <= evicted <= |log| && 0 <= anchor <= c < |log|
        ensures ExtendsExactly(w, log, evicted, anchor, c, first)
      {
        HarmlessIsExact(w, log, evicted, anchor, c, first);
      }
    } else {
      var c, f :| 0 <= c < f < |log| && log[c] == log[f] && !NothingBetween(w, log, c, f);
      var k := RepeatSpoils(w, log, c, f);
      assert !ExtendsExactly(w, log, k + 1, k, k, false);
    }
  }

  /**
   A call that returns a wrong count.  The event that served as checkpoint was logged again after a
   second worker create, and everything before the repetition was evicted: the query finds "the
   checkpoint", and the second create is missed.
   */
  lemma RepeatedEventsUndercount() returns (w: Watch, log: seq<Event>, s: Retained)
    ensures |log| == 4 && Stamped(log) && InOrder(log) && !Distinct(log)
    ensures HonestIndex(s.index, log, 0)
    ensures Call(s, w, false, Answer(Engine(log, 3)), NoCrash, log[0]) == Called(s, Counted([log[0]]))
    ensures |Matching(w, log[0..])| == 2
  {
    w := Watch("op", "worker", "relay");
    var stamp := Seconds(1);
    var first := Event(None, Some(1), true, true, Some("worker"), None, "a", "");
    var second := first.(identity := "b");
    var tick := Event(None, Some(1), false, false, None, None, "", "");
    log := [first, tick, second, tick];
    var refs := [WindowRef(0, SealOf(Window([first, tick])), stamp)];
    s := Retained(Index("op", tick, refs), map[0 := Window([first, tick])]);
    RepeatingLogIsOrdered(log, stamp);
    RepeatingIndexIsHonest(s.index, log, stamp, refs);
    RepeatedEventsReplay(w, stamp, first, tick);
    RepeatedEventsExtend(w, stamp, log, first, tick);
    UndercountingCall(s, w, log, refs, first, tick);
    RepeatedEventsMatch(w, first, second, tick);
    assert log[0..] == log[0..4];
  }

  lemma RepeatingLogIsOrdered(log: seq<Event>, stamp: Stamp)
    requires |log| == 4 && log[1] == log[3] && forall i | 0 <= i < |log| :: log[i].stamp == Some(stamp)
    ensures Stamped(log) && InOrder(log) && !Distinct(log)
  {
    StampOrder(stamp, stamp, stamp);
  }

  lemma RepeatingIndexIsHonest(index: IndexFile, log: seq<Event>, stamp: Stamp, refs: seq<WindowRef>)
    requires |log| == 4 && log[0].stamp == Some(stamp)
    requires refs == [WindowRef(0, SealOf(Window([log[0], log[1]])), stamp)]
    requires index.Index? && index.checkpoint == log[1] && index.refs == refs
    ensures HonestIndex(index, log, 0)
  {
    assert log[0..2] == [log[0], log[1]];
    assert HonestRef(refs, log, 0, [(0, 2)], 0);
    assert EndsAt(index, log, 0, [(0, 2)]);
  }

  lemma UndercountingCall(s: Retained, w: Watch, log: seq<Event>, refs: seq<WindowRef>, first: Event, tick: Event)
    requires |log| == 4 && refs != [] && s.index == Index(w.operation, tick, refs) && first.identity != ""
    requires ReplayFrom(w, s.windows, refs, 0, [], first) == Replayed([first], tick)
    requires tick.stamp.Some?
    requires Extend(w, Answer(Engine(log, 3)), [first], tick, false) == Extended([first], [tick], tick.stamp.value)
    ensures Call(s, w, false, Answer(Engine(log, 3)), NoCrash, first) == Called(s, Counted([first]))
  {
  }

  lemma MatchingOne(w: Watch, e: Event)
    ensures Matching(w, [e]) == if WorkerCreate(w, e) then [e] else []
  {
    assert [e][1..] == [];
  }

  lemma RepeatedEventsReplay(w: Watch, stamp: Stamp, first: Event, tick: Event)
    requires WorkerCreate(w, first) && !WorkerCreate(w, tick)
    requires first.stamp == tick.stamp == Some(stamp)
    ensures var refs := [WindowRef(0, SealOf(Window([first, tick])), stamp)];
            ReplayFrom(w, map[0 := Window([first, tick])], refs, 0, [], first) == Replayed([first], tick)
  {
    var events, files := [first, tick], map[0 := Window([first, tick])];
    var refs := [WindowRef(0, SealOf(Window([first, tick])), stamp)];
    StampOrder(stamp, stamp, stamp);
    assert Continues(files, refs[0], 0, first);
    assert Added(events, first, true) == events == [first] + [tick];
    MatchingOne(w, first);
    MatchingOne(w, tick);
    MatchingParts(w, [first], [tick]);
    ReplayUnfolds(w, files, refs, 0, [], first, events, [first], tick);
  }

  lemma RepeatedEventsExtend(w: Watch, stamp: Stamp, log: seq<Event>, first: Event, tick: Event)
    requires |log| == 4 && log[3] == tick && tick.stamp == Some(stamp) && first.identity != ""
    ensures Extend(w, Answer(Engine(log, 3)), [first], tick, false) == Extended([first], [tick], stamp)
  {
    assert log[3..] == [tick];
    StampOrder(stamp, stamp, stamp);
    assert Since([tick], stamp) == [tick] by {
      assert [tick][1..] == [];
    }
    assert Added([tick], tick, false) == [];
  }

  lemma RepeatedEventsMatch(w: Watch, first: Event, second: Event, tick: Event)
    requires WorkerCreate(w, first) && WorkerCreate(w, second) && !WorkerCreate(w, tick)
    ensures |Matching(w, [first, tick, second, tick][0..4])| == 2
  {
    MatchingOne(w, first);
    MatchingOne(w, second);
    MatchingOne(w, tick);
    assert [first, tick, second, tick][0..4] == [first] + [tick] + [second] + [tick];
    MatchingParts(w, [first] + [tick] + [second], [tick]);
    MatchingParts(w, [first] + [tick], [second]);
    MatchingParts(w, [first], [tick]);
  }
}
