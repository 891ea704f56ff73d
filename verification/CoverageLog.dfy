/**
 The container engine's event log, as `scripts/factory_gate_protocol_live.py` reads it: which events
 are worker creates, what a query returns, and what a window of the log adds after an overlap.
 */
module CoverageLog {
  import opened Common
  import opened Timestamps

  // --- Events and the engine -----------------------------------------------------------------

  datatype Event = Event(
    timeNano: Option<int>,
    time: Option<int>,
    container: bool,             // Type is "container"
    create: bool,                // Action is "create"
    name: Option<string>,
    operation: Option<string>,   // the operation label
    identity: string,            // the actor id, or else the event's id; empty when both are missing
    body: string)                // every other field
  {
    /** The engine timestamp, when the event has a usable one. */
    const stamp: Option<Stamp> := StampOf(timeNano, time)
  }

  /** The worker being counted: its operation, its container name and the relay to leave out. */
  datatype Watch = Watch(operation: string, container: string, relay: string)

  predicate WorkerCreate(w: Watch, e: Event) {
    && e.container && e.create
    && e.name != Some(w.relay) && e.name != Some(w.container + "-store")
    && (e.name == Some(w.container) || e.operation == Some(w.operation))
  }

  /** `_matching_worker_creates`. */
  function Matching(w: Watch, events: seq<Event>): seq<Event> {
    if events == [] then []
    else (if WorkerCreate(w, events[0]) then [events[0]] else []) + Matching(w, events[1..])
  }

  lemma {:induction false} MatchingParts(w: Watch, a: seq<Event>, b: seq<Event>)
    ensures Matching(w, a + b) == Matching(w, a) + Matching(w, b)
  {
    if a == [] {
      assert a + b == b;
    } else {
      assert (a + b)[1..] == a[1..] + b;
      MatchingParts(w, a[1..], b);
    }
  }

  /** Log position `i` is a create of the worker, read off the event's own fields. */
  ghost predicate CreatedAt(w: Watch, log: seq<Event>, i: int)
    requires 0 <= i < |log|
  {
    var e := log[i];
    && e.container && e.create
    && (|| (e.name == Some(w.container) && w.container != w.relay)
        || (e.operation == Some(w.operation) && e.name !in {Some(w.relay), Some(w.container + "-store")}))
  }

  /** From `from` on, position `k` and no other is a create of the worker. */
  ghost predicate OnlyCreateAt(w: Watch, log: seq<Event>, from: nat, k: int) {
    && from <= k < |log|
    && forall i | from <= i < |log| :: CreatedAt(w, log, i) <==> i == k
  }

  /** The count is right: one create, with its container id, at the only position that has one. */
  ghost predicate ExactCount(w: Watch, log: seq<Event>, from: nat, creates: seq<Event>) {
    exists k: int :: OnlyCreateAt(w, log, from, k) && creates == [log[k]] && log[k].identity != ""
  }

  lemma WorkerCreateExactly(w: Watch, log: seq<Event>, i: nat)
    requires i < |log|
    ensures WorkerCreate(w, log[i]) <==> CreatedAt(w, log, i)
  {
    assert w.container != w.container + "-store" by {
      assert |w.container + "-store"| > |w.container|;
    }
  }

  /** The creates of a part of the log, one event at a time. */
  lemma MatchingFrom(w: Watch, log: seq<Event>, from: nat)
    requires from < |log|
    ensures Matching(w, log[from..|log|]) ==
            (if CreatedAt(w, log, from) then [log[from]] else []) + Matching(w, log[from + 1..|log|])
  {
    WorkerCreateExactly(w, log, from);
    assert log[from..|log|][0] == log[from] && log[from..|log|][1..] == log[from + 1..|log|];
  }

  lemma {:induction false} NothingCreated(w: Watch, log: seq<Event>, from: nat)
    requires from <= |log|
    requires forall i | from <= i < |log| :: !CreatedAt(w, log, i)
    ensures Matching(w, log[from..|log|]) == []
    decreases |log| - from
  {
    if from < |log| {
      MatchingFrom(w, log, from);
      NothingCreated(w, log, from + 1);
    }
  }

  lemma {:induction false} CreatedMatches(w: Watch, log: seq<Event>, from: nat, i: nat)
    requires from <= i < |log| && CreatedAt(w, log, i)
    ensures Matching(w, log[from..|log|]) != []
    decreases i - from
  {
    MatchingFrom(w, log, from);
    if from < i {
      CreatedMatches(w, log, from + 1, i);
    }
  }

  lemma {:induction false} OneMatches(w: Watch, log: seq<Event>, from: nat, k: nat)
    requires OnlyCreateAt(w, log, from, k)
    ensures Matching(w, log[from..|log|]) == [log[k]]
    decreases k - from
  {
    MatchingFrom(w, log, from);
    if from < k {
      OneMatches(w, log, from + 1, k);
    } else {
      NothingCreated(w, log, from + 1);
    }
  }

  lemma {:induction false} OneMatchIsOnly(w: Watch, log: seq<Event>, from: nat) returns (k: nat)
    requires from <= |log| && |Matching(w, log[from..|log|])| == 1
    ensures OnlyCreateAt(w, log, from, k) && Matching(w, log[from..|log|]) == [log[k]]
    decreases |log| - from
  {
    assert from < |log|;
    MatchingFrom(w, log, from);
    if CreatedAt(w, log, from) {
      forall i | from < i < |log| ensures !CreatedAt(w, log, i) {
        if CreatedAt(w, log, i) {
          CreatedMatches(w, log, from + 1, i);
        }
      }
      k := from;
    } else {
      k := OneMatchIsOnly(w, log, from + 1);
    }
  }

  /** The engine at one moment: everything it ever logged, and how much of that is evicted. */
  datatype Engine = Engine(log: seq<Event>, evicted: nat)

  function Since(events: seq<Event>, since: Stamp): seq<Event> {
    if events == [] then []
    else (if events[0].stamp.Some? && StampLeq(since, events[0].stamp.value) then [events[0]] else [])
         + Since(events[1..], since)
  }

  /** `events --since <since> --until <now + 1>`: what is retained from `since` on. */
  function Query(engine: Engine, since: Stamp): seq<Event>
    requires engine.evicted <= |engine.log|
  {
    Since(engine.log[engine.evicted..], since)
  }

  predicate Stamped(events: seq<Event>) {
    forall i {:trigger events[i].stamp} | 0 <= i < |events| :: events[i].stamp.Some?
  }

  predicate InOrder(events: seq<Event>)
    requires Stamped(events)
  {
    forall i, j {:trigger StampLeq(events[i].stamp.value, events[j].stamp.value)} | 0 <= i <= j < |events| ::
      StampLeq(events[i].stamp.value, events[j].stamp.value)
  }

  predicate Distinct(events: seq<Event>) {
    forall i, j | 0 <= i < j < |events| :: events[i] != events[j]
  }

  lemma DistinctExactly(events: seq<Event>)
    ensures Distinct(events) <==> forall e | e in events :: multiset(events)[e] == 1
  {
    if Distinct(events) {
      forall e | e in events ensures multiset(events)[e] == 1 {
        var i :| 0 <= i < |events| && events[i] == e;
        assert events == events[..i] + [events[i]] + events[i + 1..];
        assert e !in events[..i] && e !in events[i + 1..];
      }
    }
    if !Distinct(events) {
      var i, j :| 0 <= i < j < |events| && events[i] == events[j];
      assert events == events[..j] + [events[j]] + events[j + 1..];
      assert events[..j][i] == events[j];
      assert multiset(events)[events[j]] > 1;
    }
  }

  /** On an ordered log a query returns a suffix of what is retained. */
  lemma {:induction false} SinceIsSuffix(events: seq<Event>, since: Stamp) returns (j: nat)
    requires Stamped(events) && InOrder(events)
    ensures j <= |events| && Since(events, since) == events[j..]
    ensures forall i | 0 <= i < |events| :: StampLeq(since, events[i].stamp.value) ==> j <= i
  {
    if events == [] {
      j := 0;
    } else if StampLeq(since, events[0].stamp.value) {
      j := 0;
      AllSince(events, since);
    } else {
      assert Stamped(events[1..]) && InOrder(events[1..]);
      var k := SinceIsSuffix(events[1..], since);
      j := k + 1;
      assert events[1..][k..] == events[j..];
    }
  }

  lemma {:induction false} AllSince(events: seq<Event>, since: Stamp)
    requires Stamped(events) && InOrder(events)
    requires events != [] ==> StampLeq(since, events[0].stamp.value)
    ensures Since(events, since) == events
  {
    if events != [] {
      var rest := events[1..];
      assert Stamped(rest) && InOrder(rest);
      if rest != [] {
        StampOrder(since, events[0].stamp.value, rest[0].stamp.value);
      }
      AllSince(rest, since);
      assert events == [events[0]] + rest;
    }
  }

  // --- Windows -------------------------------------------------------------------------------

  /** `_coverage_events`: a window must be non-empty, stamped throughout and in time order. */
  predicate Proper(events: seq<Event>) {
    events != [] && Stamped(events) && InOrder(events)
  }

  lemma WindowIsProper(log: seq<Event>, lo: nat, hi: nat)
    requires Stamped(log) && InOrder(log) && lo < hi <= |log|
    ensures Proper(log[lo..hi])
  {
  }

  function IndexOf(events: seq<Event>, e: Event): (i: nat)
    requires e in events
    ensures i < |events| && events[i] == e && e !in events[..i]
  {
    if events[0] == e then 0 else 1 + IndexOf(events[1..], e)
  }

  /** The events a window adds: all from the anchor on in the first, those after the overlap later. */
  function Added(events: seq<Event>, checkpoint: Event, first: bool): seq<Event>
    requires checkpoint in events
  {
    events[IndexOf(events, checkpoint) + (if first then 0 else 1)..]
  }

  /** The position after the overlap: the checkpoint itself in the first window, the next event later. */
  function Beyond(c: nat, first: bool): nat {
    if first then c else c + 1
  }

  /** A query returns the end of the log, from some retained position on. */
  lemma QueryIsSuffix(engine: Engine, since: Stamp) returns (lo: nat)
    requires Stamped(engine.log) && InOrder(engine.log) && engine.evicted <= |engine.log|
    ensures engine.evicted <= lo <= |engine.log| && Query(engine, since) == engine.log[lo..|engine.log|]
  {
    var retained := engine.log[engine.evicted..];
    assert Stamped(retained) && InOrder(retained);
    var j := SinceIsSuffix(retained, since);
    lo := engine.evicted + j;
    assert retained[j..] == engine.log[lo..|engine.log|];
  }

  lemma SuffixSees(log: seq<Event>, lo: nat, c: nat)
    requires Distinct(log) && lo <= |log| && c < |log| && log[c] in log[lo..|log|]
    ensures lo <= c
  {
    var i := IndexOf(log[lo..|log|], log[c]);
    assert log[lo..|log|][i] == log[lo + i];
  }

  lemma SuffixHolds(events: seq<Event>, j: nat, k: nat)
    requires j <= k < |events|
    ensures events[k] in events[j..]
  {
    assert events[j..][k - j] == events[k];
  }

  lemma SinceKeeps(events: seq<Event>, k: nat)
    requires Stamped(events) && InOrder(events) && k < |events|
    ensures events[k].stamp.Some? && events[k] in Since(events, events[k].stamp.value)
  {
    var since := events[k].stamp.value;
    StampOrder(since, since, since);
    var j := SinceIsSuffix(events, since);
    SuffixHolds(events, j, k);
  }

  lemma RetainedIsSeen(engine: Engine, c: nat)
    requires Stamped(engine.log) && InOrder(engine.log) && engine.evicted <= c < |engine.log|
    ensures engine.log[c] in Query(engine, engine.log[c].stamp.value)
  {
    var retained := engine.log[engine.evicted..];
    assert Stamped(retained) && InOrder(retained);
    assert retained[c - engine.evicted] == engine.log[c];
    SinceKeeps(retained, c - engine.evicted);
  }

  /** The query fails to show the checkpoint exactly when the engine has evicted it. */
  lemma CheckpointSeenExactly(engine: Engine, c: nat)
    requires Stamped(engine.log) && InOrder(engine.log) && Distinct(engine.log) && engine.evicted <= |engine.log|
             && c < |engine.log|
    ensures engine.log[c] in Query(engine, engine.log[c].stamp.value) <==> engine.evicted <= c
  {
    if engine.evicted <= c {
      RetainedIsSeen(engine, c);
    }
    if engine.log[c] in Query(engine, engine.log[c].stamp.value) {
      var lo := QueryIsSuffix(engine, engine.log[c].stamp.value);
      SuffixSees(engine.log, lo, c);
    }
  }

  // --- Repeated events -----------------------------------------------------------------------

  /** The part of the log between two positions, in either order. */
  function Between(log: seq<Event>, a: nat, b: nat): seq<Event>
    requires a <= |log| && b <= |log|
  {
    if a <= b then log[a..b] else log[b..a]
  }

  lemma MatchingBetween(w: Watch, log: seq<Event>, i: nat, j: nat, k: nat)
    requires i <= j <= k <= |log|
    ensures Matching(w, log[i..k]) == Matching(w, log[i..j]) + Matching(w, log[j..k])
  {
    assert log[i..k] == log[i..j] + log[j..k];
    MatchingParts(w, log[i..j], log[j..k]);
  }

  lemma NothingInserted(a: seq<Event>, b: seq<Event>, c: seq<Event>)
    ensures a + c == a + (b + c) <==> b == []
  {
    if b == [] {
      assert b + c == c;
    } else {
      assert |a + c| < |a + (b + c)|;
    }
  }

  /** Going on at another position than where the count stopped is exact when no create lies between. */
  lemma GoingOnElsewhere(w: Watch, log: seq<Event>, anchor: nat, covered: nat, from: nat, hi: nat)
    requires anchor <= covered <= hi <= |log| && from <= hi
    ensures Matching(w, log[anchor..covered]) + Matching(w, log[from..hi]) == Matching(w, log[anchor..hi]) <==>
            Matching(w, Between(log, covered, from)) == []
  {
    MatchingBetween(w, log, anchor, covered, hi);
    if covered <= from {
      MatchingBetween(w, log, covered, from, hi);
      NothingInserted(Matching(w, log[anchor..covered]), Matching(w, log[covered..from]), Matching(w, log[from..hi]));
    } else {
      MatchingBetween(w, log, from, covered, hi);
      NothingInserted(
        Matching(w, log[anchor..covered]), Matching(w, log[from..covered]), Matching(w, log[covered..hi]));
    }
  }

  lemma SliceOfSlice(log: seq<Event>, lo: nat, hi: nat, k: nat)
    requires lo <= hi <= |log| && k <= hi - lo
    ensures log[lo..hi][k..] == log[lo + k..hi] && log[lo..hi][..k] == log[lo..lo + k]
  {
  }

  /** What a window adds is the log from the first occurrence of the checkpoint in it on. */
  lemma AddedFrom(log: seq<Event>, lo: nat, hi: nat, e: Event, first: bool) returns (f: nat)
    requires lo <= hi <= |log| && e in log[lo..hi]
    ensures lo <= f < hi && log[f] == e && e !in log[lo..f]
    ensures Added(log[lo..hi], e, first) == log[Beyond(f, first)..hi]
  {
    var i := IndexOf(log[lo..hi], e);
    f := lo + i;
    SliceOfSlice(log, lo, hi, i);
    SliceOfSlice(log, lo, hi, if first then i else i + 1);
  }

  ghost predicate NothingBetween(w: Watch, log: seq<Event>, c: int, f: int)
    requires 0 <= c < f < |log|
  {
    Matching(w, log[c + 1..f + 1]) == []
  }

  /** No create of the worker lies between two occurrences of one event. */
  ghost predicate HarmlessRepeats(w: Watch, log: seq<Event>) {
    forall c, f {:trigger NothingBetween(w, log, c, f)} | 0 <= c < f < |log| && log[c] == log[f] ::
      NothingBetween(w, log, c, f)
  }

  /** A log without repetition has only harmless ones. */
  lemma DistinctIsHarmless(w: Watch, log: seq<Event>)
    requires Distinct(log)
    ensures HarmlessRepeats(w, log)
  {
  }

  lemma RepeatAtEitherEnd(w: Watch, log: seq<Event>, c: nat, f: nat)
    requires c < f < |log| && log[c] == log[f]
    ensures Matching(w, log[c..f]) == [] <==> Matching(w, log[c + 1..f + 1]) == []
  {
    MatchingBetween(w, log, c, c + 1, f);
    MatchingBetween(w, log, c + 1, f, f + 1);
    assert log[c..c + 1] == [log[c]] && log[f..f + 1] == [log[f]];
  }

  lemma HarmlessPair(w: Watch, log: seq<Event>, c: nat, f: nat, first: bool)
    requires HarmlessRepeats(w, log) && c < |log| && f < |log| && log[c] == log[f]
    ensures Matching(w, Between(log, Beyond(c, first), Beyond(f, first))) == []
  {
    if c < f {
      assert NothingBetween(w, log, c, f);
      RepeatAtEitherEnd(w, log, c, f);
    } else if f < c {
      assert NothingBetween(w, log, f, c);
      RepeatAtEitherEnd(w, log, f, c);
    }
  }

  /** The log a journal can count on: stamped, in time order, and repeating events only harmlessly. */
  ghost predicate Countable(w: Watch, log: seq<Event>) {
    Stamped(log) && InOrder(log) && HarmlessRepeats(w, log)
  }

  lemma CountablePrefix(w: Watch, log: seq<Event>, more: seq<Event>)
    requires Countable(w, log + more)
    ensures Countable(w, log)
  {
    assert forall i | 0 <= i < |log| :: (log + more)[i] == log[i];
    forall c, f | 0 <= c < f < |log| && log[c] == log[f] ensures NothingBetween(w, log, c, f) {
      assert NothingBetween(w, log + more, c, f);
      assert (log + more)[c + 1..f + 1] == log[c + 1..f + 1];
    }
  }

  /** One window adds exactly the log between what is covered and its own end. */
  lemma WindowAddsExactly(w: Watch, log: seq<Event>, anchor: nat, lo: nat, hi: nat, c: nat, first: bool)
    requires HarmlessRepeats(w, log) && anchor <= c < hi <= |log| && lo <= hi && log[c] in log[lo..hi]
    ensures Matching(w, log[anchor..Beyond(c, first)]) + Matching(w, Added(log[lo..hi], log[c], first))
         == Matching(w, log[anchor..hi])
  {
    var f := AddedFrom(log, lo, hi, log[c], first);
    HarmlessPair(w, log, c, f, first);
    GoingOnElsewhere(w, log, anchor, Beyond(c, first), Beyond(f, first), hi);
  }
}
