/**
 Building runs of the campaign protocol: how an invocation arrives, gets its slot and launches its
 worker when nobody is in its way.
 */
module ProtocolRuns {
  import opened Common
  import opened Campaign
  import opened Protocol
  import opened ProtocolSafety

  // --- Runs that inspect nothing -------------------------------------------------------------

  lemma {:induction false} RunsCompose(w: World, first: seq<Action>, second: seq<Action>)
    requires CanRun(w, first) && CanRun(After(w, first), second)
    ensures CanRun(w, first + second)
    ensures After(w, first + second) == After(After(w, first), second)
    decreases |first|
  {
    if first == [] {
      assert first + second == second;
    } else {
      assert (first + second)[1..] == first[1..] + second;
      RunsCompose(Apply(w, first[0]), first[1..], second);
    }
  }

  ghost predicate NoInspection(actions: seq<Action>) {
    forall i | 0 <= i < |actions| :: !actions[i].Inspect?
  }

  lemma {:induction false} NoInspectionIsSettled(w: World, actions: seq<Action>)
    requires CanRun(w, actions) && NoInspection(actions)
    ensures AllSettled(w, actions)
    decreases |actions|
  {
    if actions != [] {
      NoInspectionIsSettled(Apply(w, actions[0]), actions[1..]);
    }
  }

  /** The actions run from `w`, inspect nothing and end in `v`. */
  ghost predicate Leads(w: World, actions: seq<Action>, v: World) {
    NoInspection(actions) && CanRun(w, actions) && After(w, actions) == v
  }

  lemma LeadsOne(w: World, a: Action)
    requires Enabled(w, a) && !a.Inspect?
    ensures Leads(w, [a], Apply(w, a))
  {
    assert [a][1..] == [];
  }

  lemma LeadsOn(w: World, first: seq<Action>, v: World, second: seq<Action>, u: World)
    requires Leads(w, first, v) && Leads(v, second, u)
    ensures Leads(w, first + second, u)
  {
    RunsCompose(w, first, second);
  }

  lemma LeadsTo(w: World, first: seq<Action>, v: World, a: Action)
    requires Leads(w, first, v) && Enabled(v, a) && !a.Inspect?
    ensures Leads(w, first + [a], Apply(v, a))
  {
    LeadsOne(v, a);
    LeadsOn(w, first, v, [a], Apply(v, a));
  }

  // --- An invocation arrives -----------------------------------------------------------------

  lemma {:induction false} LargerThanAll(numbers: set<nat>) returns (n: nat)
    ensures forall k | k in numbers :: k < n
  {
    if numbers == {} {
      n := 0;
    } else {
      var one :| one in numbers;
      var rest := LargerThanAll(numbers - {one});
      n := rest + one + 1;
      forall k | k in numbers ensures k < n {
        assert k != one ==> k in numbers - {one};
      }
    }
  }

  function PidsOf(w: World): set<nat> {
    set p | p in w.procs :: w.procs[p].owner.pid
  }

  function HostOf(w: World, machine: string): Host
    requires machine in w.boots
  {
    Host(machine, w.boots[machine], map pid | pid in LivePids(w) :: true)
  }

  function LivePids(w: World): set<nat> {
    set p | p in w.procs && w.procs[p].alive :: w.procs[p].owner.pid
  }

  lemma HostIsSeen(w: World, p: nat)
    requires Alive(w, p) && w.procs[p].owner.machine in w.boots
    ensures Sees(w, p, HostOf(w, w.procs[p].owner.machine))
  {
    forall q | Alive(w, q) ensures w.procs[q].owner.pid in HostOf(w, w.procs[p].owner.machine).processes {
      assert w.procs[q].owner.pid in LivePids(w);
    }
  }

  /** A process id and a machine nobody else has had. */
  ghost predicate IsFresh(w: World, q: nat, i: Invocation) {
    && q !in w.procs && i.alive && i.owner.machine in w.boots && i.owner.boot == w.boots[i.owner.machine]
    && forall p | p in w.procs :: w.procs[p].owner.pid != i.owner.pid
  }

  function Joined(w: World, m: Manifest, q: nat, i: Invocation): World {
    w.(m := m, procs := w.procs[q := i])
  }

  lemma JoinedMoves(w: World, m: Manifest, q: nat, i: Invocation, pc: Pc)
    ensures Goto(Joined(w, m, q, i), q, pc) == Joined(w, m, q, i.(pc := pc))
  {
    assert w.procs[q := i][q := i.(pc := pc)] == w.procs[q := i.(pc := pc)];
  }

  /** A new invocation starts and binds. */
  lemma SpawnsAndBinds(w: World, harness: Harness, machine: string, binding: Binding)
    returns (q: nat, i: Invocation, actions: seq<Action>)
    requires machine in w.boots && (harness.Omp? || harness.Claude?) && Bind(w.m, binding).Committed?
    ensures IsFresh(w, q, i) && i.harness == harness && i.owner.machine == machine && i.pc == Reconciling
    ensures Leads(w, actions, Joined(w, Bind(w.m, binding).manifest, q, i))
  {
    q := LargerThanAll(w.procs.Keys);
    var pid := LargerThanAll(PidsOf(w));
    forall p | p in w.procs ensures w.procs[p].owner.pid != pid {
      assert w.procs[p].owner.pid in PidsOf(w);
    }
    var start := Invocation(harness, Owner(machine, w.boots[machine], pid), true, Starting);
    i := start.(pc := Reconciling);
    var a := Spawn(q, harness, machine, pid);
    LeadsOne(w, a);
    assert Apply(w, a) == Joined(w, w.m, q, start);
    var m := Bind(w.m, binding).manifest;
    LeadsTo(w, [a], Joined(w, w.m, q, start), DoBind(q, binding));
    JoinedMoves(w, m, q, start, Reconciling);
    assert Joined(w, w.m, q, start).(m := m) == Joined(w, m, q, start);
    actions := [a] + [DoBind(q, binding)];
  }

  lemma MarksNothing(m: Manifest, host: Host)
    requires OutstandingKeys(m) == {}
    ensures MarkDead(m, host) == Committed(m)
  {
    forall key | key in m.slots ensures !Outstanding(m.slots[key].state) {
      assert key !in OutstandingKeys(m);
    }
    assert (map key | key in m.slots :: Marked(m.slots[key])) == m.slots;
  }

  lemma NewcomerTakesNoLock(w: World, m: Manifest, q: nat, i: Invocation)
    requires !LockTaken(w) && !i.pc.Inspecting?
    ensures !LockTaken(Joined(w, m, q, i))
  {
    forall p | Alive(Joined(w, m, q, i), p) ensures !Joined(w, m, q, i).procs[p].pc.Inspecting? {
      assert p != q ==> Alive(w, p);
    }
  }

  /** With nothing outstanding and nobody reconciling, a new invocation gets to look for its first slot. */
  lemma Arrives(w: World, harness: Harness, machine: string, binding: Binding)
    returns (q: nat, i: Invocation, actions: seq<Action>)
    requires machine in w.boots && (harness.Omp? || harness.Claude?) && Bind(w.m, binding).Committed?
    requires !LockTaken(w) && OutstandingKeys(w.m) == {}
    ensures IsFresh(w, q, i) && i.harness == harness && i.owner.machine == machine && i.pc == Looking(CompletedWorkflow)
    ensures Leads(w, actions, Joined(w, Bind(w.m, binding).manifest, q, i))
  {
    var j;
    q, j, actions := SpawnsAndBinds(w, harness, machine, binding);
    var m := Bind(w.m, binding).manifest;
    var v := Joined(w, m, q, j);
    NewcomerTakesNoLock(w, m, q, j);
    HostIsSeen(v, q);
    var host := HostOf(v, machine);
    assert OutstandingKeys(m) == {};
    MarksNothing(m, host);
    LeadsTo(w, actions, v, DoMark(q, host));
    JoinedMoves(w, m, q, j, Inspecting({}, None, false));
    var u := Joined(w, m, q, j.(pc := Inspecting({}, None, false)));
    assert v.(m := m) == v;
    LeadsTo(w, actions + [DoMark(q, host)], u, LeaveReconciliation(q));
    JoinedMoves(w, m, q, j.(pc := Inspecting({}, None, false)), Looking(CompletedWorkflow));
    i := j.(pc := Looking(CompletedWorkflow));
    actions := actions + [DoMark(q, host)] + [LeaveReconciliation(q)];
  }

  // --- It qualifies for a slot ---------------------------------------------------------------

  /** An arriving invocation of the harness would spend this slot. */
  predicate MaySpend(m: Manifest, key: SlotKey) {
    && (key.harness.Omp? || key.harness.Claude?) && key !in m.slots
    && (key.role.CompletedWorkflow?
        || (key.role.Cancellation? && Reusable(m, Key(key.harness, CompletedWorkflow))))
  }

  const SOME_RUN := Identity("run", "implement:run")

  lemma Qualifies(w: World, m: Manifest, q: nat, i: Invocation, role: Role) returns (actions: seq<Action>)
    requires i.alive && i.pc == Looking(CompletedWorkflow) && MaySpend(m, Key(i.harness, role))
    ensures Leads(Joined(w, m, q, i), actions, Joined(w, m, q, i.(pc := Qualified(role, SOME_RUN))))
  {
    var u := Joined(w, m, q, i);
    LeadsOne(u, Look(q));
    actions := [Look(q)];
    if role.Cancellation? {
      JoinedMoves(w, m, q, i, Looking(Cancellation));
      LeadsTo(u, actions, Joined(w, m, q, i.(pc := Looking(Cancellation))), Look(q));
      JoinedMoves(w, m, q, i.(pc := Looking(Cancellation)), Qualifying(role));
      actions := actions + [Look(q)];
    } else {
      JoinedMoves(w, m, q, i, Qualifying(role));
    }
    var j := i.(pc := Qualifying(role));
    LeadsTo(u, actions, Joined(w, m, q, j), Preflight(q, SOME_RUN));
    JoinedMoves(w, m, q, j, Qualified(role, SOME_RUN));
    actions := actions + [Preflight(q, SOME_RUN)];
  }

  // --- It launches its worker ----------------------------------------------------------------

  /** Nothing of the manifest changed but this slot. */
  ghost predicate OnlySlot(m: Manifest, n: Manifest, key: SlotKey) {
    && n.binding == m.binding && n.evidence == m.evidence && n.slots.Keys == m.slots.Keys + {key}
    && forall other | other in m.slots && other != key :: n.slots[other] == m.slots[other]
  }

  /** Nothing of the world changed but this invocation's place and its slot. */
  ghost predicate OnlyIts(w: World, v: World, q: nat, key: SlotKey) {
    && v.boots == w.boots && v.live == w.live && v.created == w.created && w.clients <= v.clients
    && q in w.procs && q in v.procs && v.procs[q].(pc := w.procs[q].pc) == w.procs[q]
    && v.procs == w.procs[q := v.procs[q]]
    && OnlySlot(w.m, v.m, key)
  }

  lemma OnlyItsTrans(a: World, b: World, c: World, q: nat, key: SlotKey)
    requires OnlyIts(a, b, q, key) && OnlyIts(b, c, q, key)
    ensures OnlyIts(a, c, q, key)
  {
    assert a.procs[q := b.procs[q]][q := c.procs[q]] == a.procs[q := c.procs[q]];
  }

  lemma {:induction false} SubsetSize(a: set<SlotKey>, b: set<SlotKey>)
    requires a <= b
    ensures |a| <= |b|
  {
    if key :| key in a {
      SubsetSize(a - {key}, b - {key});
    }
  }

  lemma ReservationCommits(m: Manifest, key: SlotKey, owner: Owner)
    requires Valid(m) && m.binding.Some? && OutstandingKeys(m) == {} && key in SLOTS - m.slots.Keys
    ensures Reserve(m, key.harness, key.role, owner).Committed?
  {
    var rest := SLOTS - {key};
    assert |rest| == 3;
    SubsetSize(m.slots.Keys, rest);
    assert |m.slots| == |m.slots.Keys|;
    assert forall k | k in m.slots :: k !in OutstandingKeys(m);
  }

  lemma ReservesOnlySlot(m: Manifest, key: SlotKey, owner: Owner)
    requires Reserve(m, key.harness, key.role, owner).Committed?
    ensures OnlySlot(m, Reserve(m, key.harness, key.role, owner).manifest, key)
  {
  }

  lemma Reserves(w: World, q: nat, key: SlotKey)
    requires Inv(w) && Alive(w, q) && w.procs[q].pc.Qualified? && Key(w.procs[q].harness, w.procs[q].pc.role) == key
    requires w.m.binding.Some? && OutstandingKeys(w.m) == {} && key in SLOTS - w.m.slots.Keys
    ensures var v := Apply(w, DoReserve(q));
            v.procs[q].pc == Holding(w.procs[q].pc.role, w.procs[q].pc.id) && OnlyIts(w, v, q, key)
  {
    ReservationCommits(w.m, key, w.procs[q].owner);
    ReservesOnlySlot(w.m, key, w.procs[q].owner);
  }

  lemma Begins(w: World, q: nat)
    requires Inv(w) && Alive(w, q) && w.procs[q].pc.Holding?
    ensures var v := Apply(w, Begin(q));
            v.procs[q].pc == Began(w.procs[q].pc.role, w.procs[q].pc.id) && OnlyIts(w, v, q, SlotOf(w.procs[q]))
  {
    OwnerBegins(w, q);
  }

  lemma AnnotatesOnlySlot(m: Manifest, key: SlotKey, observations: map<Field, string>)
    requires Annotate(m, key, observations).Committed?
    ensures OnlySlot(m, Annotate(m, key, observations).manifest, key)
  {
  }

  lemma Identifies(w: World, q: nat)
    requires Inv(w) && Alive(w, q) && w.procs[q].pc.Began?
    ensures var v := Apply(w, Identify(q));
            v.procs[q].pc == Identified(w.procs[q].pc.role, w.procs[q].pc.id) && OnlyIts(w, v, q, SlotOf(w.procs[q]))
  {
    var id := w.procs[q].pc.id;
    var observations := map[RunId := id.run, OperationId := id.operation];
    OwnerMayAnnotate(w, q, observations);
    AnnotatesOnlySlot(w.m, SlotOf(w.procs[q]), observations);
  }

  lemma Dispatches(w: World, q: nat)
    requires Inv(w) && Alive(w, q) && w.procs[q].pc.Identified?
    ensures var v := Apply(w, Dispatch(q));
            && v.procs[q].pc == Dispatched(w.procs[q].pc.role, w.procs[q].pc.id)
            && OnlyIts(w, v, q, SlotOf(w.procs[q])) && SlotOf(w.procs[q]) in v.clients
  {
    assert OwnsItsSlot(w.m, w.procs[q]);
  }

  /** From its qualification an invocation gets to issue the command that launches its worker. */
  lemma Launches(w: World, q: nat, key: SlotKey) returns (actions: seq<Action>, v: World)
    requires Inv(w) && Alive(w, q) && w.procs[q].pc.Qualified? && Key(w.procs[q].harness, w.procs[q].pc.role) == key
    requires w.m.binding.Some? && OutstandingKeys(w.m) == {} && key in SLOTS - w.m.slots.Keys
    ensures Leads(w, actions, v) && Inv(v) && OnlyIts(w, v, q, key) && key in v.clients
    ensures v.procs[q].pc.Dispatched? && SlotOf(v.procs[q]) == key
  {
    Reserves(w, q, key);
    LeadsOne(w, DoReserve(q));
    StepKeeps(w, DoReserve(q));
    var w1 := Apply(w, DoReserve(q));
    Begins(w1, q);
    LeadsTo(w, [DoReserve(q)], w1, Begin(q));
    StepKeeps(w1, Begin(q));
    var w2 := Apply(w1, Begin(q));
    OnlyItsTrans(w, w1, w2, q, key);
    var rest;
    rest, v := LaunchesOn(w2, q, key);
    LeadsOn(w, [DoReserve(q)] + [Begin(q)], w2, rest, v);
    OnlyItsTrans(w, w2, v, q, key);
    actions := [DoReserve(q)] + [Begin(q)] + rest;
  }

  lemma LaunchesOn(w: World, q: nat, key: SlotKey) returns (actions: seq<Action>, v: World)
    requires Inv(w) && Alive(w, q) && w.procs[q].pc.Began? && SlotOf(w.procs[q]) == key
    ensures Leads(w, actions, v) && Inv(v) && OnlyIts(w, v, q, key) && key in v.clients
    ensures v.procs[q].pc.Dispatched? && SlotOf(v.procs[q]) == key
  {
    Identifies(w, q);
    LeadsOne(w, Identify(q));
    StepKeeps(w, Identify(q));
    var u := Apply(w, Identify(q));
    Dispatches(u, q);
    LeadsTo(w, [Identify(q)], u, Dispatch(q));
    StepKeeps(u, Dispatch(q));
    v := Apply(u, Dispatch(q));
    OnlyItsTrans(w, u, v, q, key);
    actions := [Identify(q)] + [Dispatch(q)];
  }
}
