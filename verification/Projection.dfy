/** The dispatcher's memory is a projection of the audit log (invariant I6): replaying the
    log after any move gives what the memory holds after that move. */
module Projection {
  import opened Basics
  import opened Schema
  import opened SchemaCodec
  import opened Tokens
  import opened Events
  import opened Replay
  import opened Control
  import opened Moves
  import Gates

  // ---------- what a log can hold ----------

  /** The outcome of a registered gate, with the hash of some evidence. Who checked the gate
      is not in the entry (see Evidence.EveryVerdictWasChecked). */
  ghost predicate Evidenced(env: Env, ev: Event)
    requires ev.GateOutcome?
  {
    Gates.Known(ev.gate) && exists evidence :: evidence != [] && EvidenceHash(env, evidence) == ev.evidenceHash
  }

  /** What an entry may say after a log that replays to r. */
  ghost predicate Admissible(env: Env, r: ReplayState, ev: Event) {
    match ev
    case Dispatched(t, _, _, team, _, tier, _, _, _, refs) =>
      t !in r.dispatched && IsTaskId(t) && refs.Some? && refs.value != [] && AllValid(refs.value) && tier in TIERS && team !in r.paused
    case Status(t, team, state, _) => t in r.dispatched && r.dispatched[t].team == team && state != "gate_pass"
    case GateOutcome(t, team, gate, _, _) =>
      t in r.dispatched && r.dispatched[t].team == team && r.dispatched[t].exitGate == gate && Evidenced(env, ev)
    case Reclaimed(t, team, _) => t in r.dispatched && r.dispatched[t].team == team
    case Other => false
    case _ => true
  }

  ghost predicate AllAdmissible(env: Env, log: seq<Event>) {
    forall i :: 0 <= i < |log| ==> Admissible(env, Replayed(log[..i]), log[i])
  }

  lemma AdmissibleSnoc(env: Env, log: seq<Event>, ev: Event)
    requires AllAdmissible(env, log) && Admissible(env, Replayed(log), ev)
    ensures AllAdmissible(env, log + [ev])
  {
    var log' := log + [ev];
    forall i | 0 <= i < |log'| ensures Admissible(env, Replayed(log'[..i]), log'[i]) {
      assert log'[..i] == if i < |log| then log[..i] else log;
    }
  }

  lemma AdmissiblePrefix(env: Env, log: seq<Event>, n: nat)
    requires AllAdmissible(env, log) && n <= |log|
    ensures AllAdmissible(env, log[..n])
  {
    forall i | 0 <= i < n ensures Admissible(env, Replayed(log[..n][..i]), log[..n][i]) {
      assert log[..n][..i] == log[..i];
    }
  }

  /** Everything replay holds is about dispatched tasks, and every dispatched task can be
      restored. */
  ghost predicate Restorable(r: ReplayState, n: int) {
    && r.reclaimed <= r.dispatched.Keys && r.gateResults.Keys <= r.dispatched.Keys
    && forall t :: t in r.dispatched ==>
         r.dispatched[t].deliverables.Some? && r.dispatched[t].deliverables.value != [] && r.dispatched[t].tierMax in TIERS
         && 0 <= r.dispatched[t].seqNo < n && t != ""
  }

  lemma AbsorbRestorable(env: Env, r: ReplayState, ev: Event, n: nat)
    requires Restorable(r, n) && Admissible(env, r, ev)
    ensures Restorable(Absorb(r, ev, n), n + 1)
  {
    if ev.Dispatched? {
      assert Absorb(r, ev, n).dispatched == r.dispatched[ev.taskId := MetaOf(ev, n)];
    }
  }

  lemma {:induction false} AdmissibleRestorable(env: Env, log: seq<Event>)
    requires AllAdmissible(env, log)
    ensures Restorable(Replayed(log), |log|)
  {
    if log != [] {
      AdmissiblePrefix(env, log, |log| - 1);
      AdmissibleRestorable(env, log[..|log| - 1]);
      AbsorbRestorable(env, Replayed(log[..|log| - 1]), log[|log| - 1], |log| - 1);
    }
  }

  // ---------- memory against log ----------

  /** What the log records about a task when it is dispatched. */
  function Identity(e: Envelope): Meta {
    Meta(e.team, e.nodeId, e.graphId, e.exitGate, e.tierMax, Some(e.deliverables), e.parentAuditSeq)
  }

  /** The memory has exactly the dispatched tasks, each with the identity its dispatch entry
      logged. */
  ghost predicate SameTasks(s: Control, r: ReplayState) {
    && s.tasks.Keys == r.dispatched.Keys
    && forall t :: t in s.tasks ==> s.tasks[t].envelope.taskId == t && Identity(s.tasks[t].envelope) == r.dispatched[t]
  }

  /** A record in state gate_pass has a passing last gate result in the log. */
  ghost predicate PassesLogged(s: Control, r: ReplayState) {
    forall t :: t in s.tasks && s.tasks[t].state.Passed? ==> t in r.gateResults && r.gateResults[t]
  }

  /** `_by_node` names tasks of the memory under their own nodes. */
  ghost predicate NodesNamed(s: Control) {
    forall k :: k in s.byNode ==> s.byNode[k] in s.tasks && s.tasks[s.byNode[k]].envelope.Key() == k
  }

  /** The memory is the projection of a log that replays to r. */
  ghost predicate MemoryOf(s: Control, r: ReplayState) {
    SameTasks(s, r) && PassesLogged(s, r) && NodesNamed(s) && s.paused == r.paused && s.ring.keys != []
  }

  ghost predicate Memory(s: Control) {
    MemoryOf(s, Replayed(s.log))
  }

  /** `_by_node` names exactly the tasks outside this set. */
  ghost predicate OwnersBut(s: Control, reclaimed: set<string>) {
    && (forall k :: k in s.byNode ==> s.byNode[k] !in reclaimed)
    && (forall t :: t in s.tasks && t !in reclaimed ==>
          s.tasks[t].envelope.Key() in s.byNode && s.byNode[s.tasks[t].envelope.Key()] == t)
  }

  /** `_by_node` names exactly the tasks that the log never reclaims. */
  ghost predicate OneOwner(s: Control) {
    OwnersBut(s, Replayed(s.log).reclaimed)
  }

  /** What one move appends to the log. */
  function Logged(env: Env, s: Control, m: Move): seq<Event>
    requires m.Reported? ==> m.update.taskId in s.tasks
    requires m.Judged? || m.Abandoned? ==> m.taskId in s.tasks
  {
    match m
    case Enqueued(e, lead, _) => [DispatchEvent(env, e, lead)]
    case Accepted(e, to) => [IngressAccepted(e.taskId, e.team, to)]
    case Reported(u) => [Status(u.taskId, s.tasks[u.taskId].envelope.team, u.state, Stamp(env.digest(StatusJson(u))))]
    case Judged(t, g) => [GateOutcome(t, s.tasks[t].envelope.team, g.gate, g.passed, EvidenceHash(env, g.evidence))]
    case Abandoned(t, reason) => [Reclaimed(t, s.tasks[t].envelope.team, reason)]
    case Paused(team, reason) => [TeamPaused(team, reason)]
    case Resumed(team) => [TeamResumed(team)]
    case _ => []
  }

  lemma MoveLogs(env: Env, s: Control, m: Move)
    requires Enabled(env, s, m)
    ensures After(env, s, m).log == s.log + Logged(env, s, m)
  {}

  lemma MoveAdmissible(env: Env, s: Control, m: Move)
    requires Enabled(env, s, m) && Memory(s) && AllAdmissible(env, s.log)
    ensures AllAdmissible(env, After(env, s, m).log)
  {
    MoveLogs(env, s, m);
    var events := Logged(env, s, m);
    if events != [] {
      if m.Judged? { assert Evidenced(env, events[0]) by { assert m.result.Valid(); } }
      assert Admissible(env, Replayed(s.log), events[0]);
      AdmissibleSnoc(env, s.log, events[0]);
    } else {
      assert After(env, s, m).log == s.log;
    }
  }

  /** What replay holds after one more move. */
  function NextReplay(env: Env, s: Control, m: Move, r: ReplayState): ReplayState
    requires m.Reported? ==> m.update.taskId in s.tasks
    requires m.Judged? || m.Abandoned? ==> m.taskId in s.tasks
  {
    if Logged(env, s, m) == [] then r else Absorb(r, Logged(env, s, m)[0], |s.log|)
  }

  lemma MoveReplayed(env: Env, s: Control, m: Move)
    requires Enabled(env, s, m)
    ensures Replayed(After(env, s, m).log) == NextReplay(env, s, m, Replayed(s.log))
  {
    MoveLogs(env, s, m);
    if Logged(env, s, m) != [] { ReplayedSnoc(s.log, Logged(env, s, m)[0]); } else { assert After(env, s, m).log == s.log; }
  }

  /** A new task, in the log and in the memory. */
  lemma TasksGrow(s: Control, s': Control, r: ReplayState, r': ReplayState, t: string, x: Record)
    requires SameTasks(s, r) && PassesLogged(s, r)
    requires !x.state.Passed? && x.envelope.taskId == t && s'.tasks == s.tasks[t := x]
    requires r'.dispatched == r.dispatched[t := Identity(x.envelope)] && r'.gateResults == r.gateResults
    ensures SameTasks(s', r') && PassesLogged(s', r')
  {}

  lemma NodesGrow(s: Control, s': Control, t: string, x: Record)
    requires NodesNamed(s) && t !in s.tasks
    requires s'.tasks == s.tasks[t := x] && s'.byNode == s.byNode[x.envelope.Key() := t]
    ensures NodesNamed(s')
  {}

  lemma EnqueueMemory(env: Env, s: Control, e: Envelope, lead: string, now: int, r: ReplayState)
    requires Fits(env, s, e) && MemoryOf(s, r)
    ensures MemoryOf(Enqueue(env, s, e, lead, now), Absorb(r, DispatchEvent(env, e, lead), |s.log|))
  {
    var s' := Enqueue(env, s, e, lead, now);
    TasksGrow(s, s', r, Absorb(r, DispatchEvent(env, e, lead), |s.log|), e.taskId, s'.tasks[e.taskId]);
    NodesGrow(s, s', e.taskId, s'.tasks[e.taskId]);
  }

  /** One record moves, and passes only if the log says so. */
  lemma TasksJudged(s: Control, s': Control, r: ReplayState, r': ReplayState, t: string, x: Record, passed: bool)
    requires SameTasks(s, r) && PassesLogged(s, r)
    requires t in s.tasks && s'.tasks == s.tasks[t := x] && x.envelope == s.tasks[t].envelope && (x.state.Passed? ==> passed)
    requires r'.dispatched == r.dispatched && r'.gateResults == r.gateResults[t := passed]
    ensures SameTasks(s', r')
    ensures PassesLogged(s', r')
  {
    forall u | u in s'.tasks && s'.tasks[u].state.Passed? ensures u in r'.gateResults && r'.gateResults[u] {
      if u != t { assert s'.tasks[u] == s.tasks[u]; }
    }
  }

  lemma NodesUnmoved(s: Control, s': Control)
    requires NodesNamed(s) && s'.byNode == s.byNode && s.tasks.Keys <= s'.tasks.Keys
    requires forall t :: t in s.tasks ==> s'.tasks[t].envelope == s.tasks[t].envelope
    ensures NodesNamed(s')
  {}

  lemma JudgeMemory(env: Env, s: Control, t: string, result: Gates.GateResult, r: ReplayState)
    requires t in s.tasks && MemoryOf(s, r)
    ensures MemoryOf(Judge(env, s, t, result), r.(gateResults := r.gateResults[t := result.passed]))
  {
    var s' := Judge(env, s, t, result);
    TasksJudged(s, s', r, r.(gateResults := r.gateResults[t := result.passed]), t, s'.tasks[t], result.passed);
    NodesUnmoved(s, s');
  }

  /** A move that touches only what the records say beside their envelopes, and passes none. */
  lemma MemoryUnmoved(s: Control, s': Control, r: ReplayState, r': ReplayState)
    requires MemoryOf(s, r) && s'.byNode == s.byNode && s'.paused == s.paused && s'.ring == s.ring && s'.tasks.Keys == s.tasks.Keys
    requires forall t :: t in s.tasks ==>
      s'.tasks[t].envelope == s.tasks[t].envelope && (s'.tasks[t].state.Passed? ==> s.tasks[t].state.Passed?)
    requires r'.dispatched == r.dispatched && r'.paused == r.paused && r'.gateResults == r.gateResults
    ensures MemoryOf(s', r')
  {}

  lemma ReportMemory(env: Env, s: Control, u: StatusUpdate, r: ReplayState)
    requires u.taskId in s.tasks && MemoryOf(s, r)
    ensures MemoryOf(Report(env, s, u), r)
  {
    assert !StateOf(u.state).Passed?;
    MemoryUnmoved(s, Report(env, s, u), r, r);
  }

  lemma AbandonMemory(s: Control, t: string, reason: string, r: ReplayState)
    requires t in s.tasks && MemoryOf(s, r)
    ensures MemoryOf(Abandon(s, t, reason), r.(reclaimed := r.reclaimed + {t}))
  {
    MemoryUnmoved(s, Abandon(s, t, reason), r, r.(reclaimed := r.reclaimed + {t}));
  }

  lemma SupersedeMemory(s: Control, t: string, next: string, r: ReplayState)
    requires t in s.tasks && MemoryOf(s, r)
    ensures MemoryOf(Supersede(s, t, next), r)
  {
    MemoryUnmoved(s, Supersede(s, t, next), r, r);
  }

  /** Moves that leave the task records alone. */
  lemma RecordsAlone(s: Control, s': Control, r: ReplayState, r': ReplayState)
    requires MemoryOf(s, r) && s'.tasks == s.tasks && (forall k :: k in s'.byNode ==> k in s.byNode && s'.byNode[k] == s.byNode[k])
    requires r'.dispatched == r.dispatched && r'.gateResults == r.gateResults && s'.paused == r'.paused && s'.ring.keys != []
    ensures MemoryOf(s', r')
  {}

  /** Which state and which replay a move leads to. */
  ghost predicate Leads(env: Env, s: Control, m: Move, r: ReplayState, s': Control, r': ReplayState)
    requires Enabled(env, s, m)
  {
    s' == After(env, s, m) && r' == NextReplay(env, s, m, r)
  }

  lemma RecordsLead(env: Env, s: Control, m: Move, r: ReplayState)
    requires Enabled(env, s, m)
    ensures match m
      case Enqueued(e, lead, now) => Leads(env, s, m, r, Enqueue(env, s, e, lead, now), Absorb(r, DispatchEvent(env, e, lead), |s.log|))
      case Judged(t, result) => Leads(env, s, m, r, Judge(env, s, t, result), r.(gateResults := r.gateResults[t := result.passed]))
      case Reported(u) => Leads(env, s, m, r, Report(env, s, u), r)
      case Abandoned(t, reason) => Leads(env, s, m, r, Abandon(s, t, reason), r.(reclaimed := r.reclaimed + {t}))
      case Linked(t, next) => Leads(env, s, m, r, Supersede(s, t, next), r)
      case _ => true
  {}

  lemma IssuedOrJudgedMemory(env: Env, s: Control, m: Move, r: ReplayState) returns (s': Control, r': ReplayState)
    requires (m.Enqueued? || m.Judged?) && Enabled(env, s, m) && MemoryOf(s, r)
    ensures Leads(env, s, m, r, s', r') && MemoryOf(s', r')
  {
    RecordsLead(env, s, m, r);
    match m
    case Enqueued(e, lead, now) =>
      EnqueueMemory(env, s, e, lead, now, r);
      s', r' := Enqueue(env, s, e, lead, now), Absorb(r, DispatchEvent(env, e, lead), |s.log|);
    case Judged(t, result) =>
      JudgeMemory(env, s, t, result, r);
      s', r' := Judge(env, s, t, result), r.(gateResults := r.gateResults[t := result.passed]);
  }

  lemma RecordsMemory(env: Env, s: Control, m: Move, r: ReplayState) returns (s': Control, r': ReplayState)
    requires (m.Reported? || m.Abandoned? || m.Linked?) && Enabled(env, s, m) && MemoryOf(s, r)
    ensures Leads(env, s, m, r, s', r') && MemoryOf(s', r')
  {
    RecordsLead(env, s, m, r);
    match m
    case Reported(u) =>
      ReportMemory(env, s, u, r);
      s', r' := Report(env, s, u), r;
    case Abandoned(t, reason) =>
      AbandonMemory(s, t, reason, r);
      s', r' := Abandon(s, t, reason), r.(reclaimed := r.reclaimed + {t});
    case Linked(t, next) =>
      SupersedeMemory(s, t, next, r);
      s', r' := Supersede(s, t, next), r;
  }

  lemma PausingLeads(env: Env, s: Control, m: Move, r: ReplayState)
    requires (m.Paused? || m.Resumed?) && Enabled(env, s, m) && s.paused == r.paused
    ensures var s' := After(env, s, m); var r' := NextReplay(env, s, m, r);
      && s'.tasks == s.tasks && s'.byNode == s.byNode && s'.ring == s.ring && s'.paused == r'.paused
      && r'.dispatched == r.dispatched && r'.gateResults == r.gateResults
  {}

  lemma PausingMemory(env: Env, s: Control, m: Move, r: ReplayState)
    requires (m.Paused? || m.Resumed?) && Enabled(env, s, m) && MemoryOf(s, r)
    ensures MemoryOf(After(env, s, m), NextReplay(env, s, m, r))
  {
    PausingLeads(env, s, m, r);
    RecordsAlone(s, After(env, s, m), r, NextReplay(env, s, m, r));
  }

  lemma OtherMemory(env: Env, s: Control, m: Move, r: ReplayState)
    requires (m.Turn? || m.Released? || m.Accepted?) && Enabled(env, s, m) && MemoryOf(s, r)
    ensures MemoryOf(After(env, s, m), NextReplay(env, s, m, r))
  {
    if m.Turn? { assert After(env, s, m).ring.keys != []; }
    RecordsAlone(s, After(env, s, m), r, NextReplay(env, s, m, r));
  }

  /** Every move keeps the memory a projection of the log. */
  lemma MoveMemory(env: Env, s: Control, m: Move)
    requires Enabled(env, s, m) && Memory(s)
    ensures Memory(After(env, s, m))
  {
    MoveReplayed(env, s, m);
    if m.Enqueued? || m.Judged? {
      var s', r' := IssuedOrJudgedMemory(env, s, m, Replayed(s.log));
    } else if m.Reported? || m.Abandoned? || m.Linked? {
      var s', r' := RecordsMemory(env, s, m, Replayed(s.log));
    } else if m.Paused? || m.Resumed? {
      PausingMemory(env, s, m, Replayed(s.log));
    } else {
      OtherMemory(env, s, m, Replayed(s.log));
    }
  }

  lemma {:induction false} PathMemory(env: Env, s: Control, ms: seq<Move>, s': Control)
    requires Path(env, s, ms, s') && Memory(s) && AllAdmissible(env, s.log)
    ensures Memory(s') && AllAdmissible(env, s'.log) && !(s'.readOnly && !s.readOnly) && s'.topology == s.topology
    decreases |ms|
  {
    if ms != [] {
      MoveMemory(env, s, ms[0]);
      MoveAdmissible(env, s, ms[0]);
      PathMemory(env, After(env, s, ms[0]), ms[1..], s');
    }
  }

  // ---------- one owner per node ----------

  lemma OwnersUnmoved(s: Control, s': Control, reclaimed: set<string>)
    requires OwnersBut(s, reclaimed) && s'.byNode == s.byNode && s'.tasks.Keys == s.tasks.Keys
    requires forall t :: t in s.tasks ==> s'.tasks[t].envelope == s.tasks[t].envelope
    ensures OwnersBut(s', reclaimed)
  {}

  lemma EnqueuedOwners(env: Env, s: Control, e: Envelope, lead: string, now: int, reclaimed: set<string>)
    requires Fits(env, s, e) && NodesNamed(s) && OwnersBut(s, reclaimed) && reclaimed <= s.tasks.Keys
    ensures OwnersBut(Enqueue(env, s, e, lead, now), reclaimed)
  {}

  /** Moves other than abandoning and releasing keep the ownership exact. */
  lemma MoveOneOwner(env: Env, s: Control, m: Move)
    requires Enabled(env, s, m) && Memory(s) && AllAdmissible(env, s.log) && OneOwner(s)
    requires !m.Abandoned? && !m.Released?
    ensures OneOwner(After(env, s, m))
  {
    var reclaimed := Replayed(s.log).reclaimed;
    MoveReplayed(env, s, m);
    NoneReclaimed(env, s, m, Replayed(s.log));
    if m.Enqueued? {
      AdmissibleRestorable(env, s.log);
      EnqueuedOwners(env, s, m.e, m.lead, m.now, reclaimed);
    } else {
      RecordsUnmoved(env, s, m);
      OwnersUnmoved(s, After(env, s, m), reclaimed);
    }
  }

  lemma NoneReclaimed(env: Env, s: Control, m: Move, r: ReplayState)
    requires Enabled(env, s, m) && !m.Abandoned?
    ensures NextReplay(env, s, m, r).reclaimed == r.reclaimed
  {}

  lemma RecordsUnmoved(env: Env, s: Control, m: Move)
    requires Enabled(env, s, m) && !m.Enqueued? && !m.Abandoned? && !m.Released?
    ensures var s' := After(env, s, m);
      && s'.byNode == s.byNode && s'.tasks.Keys == s.tasks.Keys
      && (forall t :: t in s.tasks ==> s'.tasks[t].envelope == s.tasks[t].envelope)
  {}

  /** Abandoning the owner of a node and releasing the node, together, keep it exact. */
  lemma ReleaseOneOwner(env: Env, s: Control, t: string, reason: string)
    requires Memory(s) && OneOwner(s) && ReclaimRefusal(s, t).None?
    requires var key := s.tasks[t].envelope.Key(); key in s.byNode && s.byNode[key] == t
    ensures var s1 := Abandon(s, t, reason); OneOwner(s1.(byNode := s1.byNode - {s.tasks[t].envelope.Key()}))
  {
    var s1 := Abandon(s, t, reason);
    ReplayedSnoc(s.log, Reclaimed(t, s.tasks[t].envelope.team, reason));
  }
}
