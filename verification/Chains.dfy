/** Reclaim chains inside one process: every record leads, through the tasks that replaced
    it, to the owner of its node. */
module Chains {
  import opened Basics
  import opened Schema
  import opened Events
  import opened Replay
  import opened Control
  import opened Moves
  import opened Projection
  import opened Restart
  import opened Recovery
  import opened Runs
  import opened Ownership

  /** The replacement is a later task for the same node. */
  predicate Replaces(s: Control, t: string, next: string)
    requires t in s.tasks
  {
    && next in s.tasks && s.tasks[next].envelope.Key() == s.tasks[t].envelope.Key()
    && s.tasks[t].envelope.parentAuditSeq < s.tasks[next].envelope.parentAuditSeq
  }

  /** A record has no replacement exactly when `_by_node` names it. */
  predicate ChainedAt(s: Control, t: string)
    requires t in s.tasks
  {
    && s.tasks[t].envelope.parentAuditSeq < |s.log|
    && (s.tasks[t].supersededBy.None? <==> Live(s, t))
    && (s.tasks[t].supersededBy.Some? ==> Replaces(s, t, s.tasks[t].supersededBy.value))
  }

  ghost predicate Chained(s: Control) {
    NodesNamed(s) && forall t {:trigger ChainedAt(s, t)} :: t in s.tasks ==> ChainedAt(s, t)
  }

  /** Following `superseded_by` ends, on the same node, at the record that live_record
      answers. */
  function Owner(s: Control, t: string): (o: string)
    requires Chained(s) && t in s.tasks
    ensures o in s.tasks && s.tasks[o].supersededBy.None?
    ensures s.tasks[o].envelope.Key() == s.tasks[t].envelope.Key()
    ensures LiveTask(s, s.tasks[t].envelope.graphId, s.tasks[t].envelope.nodeId) == Some(o)
    ensures s.tasks[t].envelope.parentAuditSeq <= s.tasks[o].envelope.parentAuditSeq
    decreases |s.log| - s.tasks[t].envelope.parentAuditSeq
  {
    assert ChainedAt(s, t);
    match s.tasks[t].supersededBy
    case None => t
    case Some(next) => Owner(s, next)
  }

  // ---------- every operation keeps the chains ----------

  lemma RecordsKeepChains(s: Control, s': Control)
    requires Chained(s) && s'.byNode == s.byNode && s'.tasks.Keys == s.tasks.Keys && |s.log| <= |s'.log|
    requires forall t :: t in s.tasks ==>
      s'.tasks[t].envelope == s.tasks[t].envelope && s'.tasks[t].supersededBy == s.tasks[t].supersededBy
    ensures Chained(s')
  {
    forall t | t in s'.tasks ensures ChainedAt(s', t) {
      assert ChainedAt(s, t);
    }
  }

  lemma EnqueueKeepsChains(env: Env, s: Control, e: Envelope, lead: string, now: int)
    requires Chained(s) && Fits(env, s, e)
    ensures Chained(Enqueue(env, s, e, lead, now))
  {
    var s' := Enqueue(env, s, e, lead, now);
    forall t | t in s'.tasks ensures ChainedAt(s', t) {
      if t != e.taskId { assert ChainedAt(s, t) && s'.tasks[t] == s.tasks[t]; }
    }
  }

  lemma MoveKeepsChains(env: Env, s: Control, m: Move)
    requires Chained(s) && Enabled(env, s, m) && Quiet(m)
    ensures Chained(After(env, s, m))
  {
    if m.Enqueued? {
      EnqueueKeepsChains(env, s, m.e, m.lead, m.now);
    } else {
      QuietKeepsRecords(env, s, m);
      RecordsKeepChains(s, After(env, s, m));
    }
  }

  lemma QuietKeepsRecords(env: Env, s: Control, m: Move)
    requires Enabled(env, s, m) && Quiet(m) && !m.Enqueued?
    ensures var s' := After(env, s, m);
      && s'.byNode == s.byNode && s'.tasks.Keys == s.tasks.Keys && |s.log| <= |s'.log|
      && forall t :: t in s.tasks ==> s'.tasks[t].envelope == s.tasks[t].envelope && s'.tasks[t].supersededBy == s.tasks[t].supersededBy
  {}

  lemma {:induction false} PathKeepsChains(env: Env, s: Control, ms: seq<Move>, s': Control)
    requires PathBy(env, s, ms, s', Quiet) && Chained(s)
    ensures Chained(s')
    decreases |ms|
  {
    if ms != [] {
      MoveKeepsChains(env, s, ms[0]);
      assert PathBy(env, After(env, s, ms[0]), ms[1..], s', Quiet);
      PathKeepsChains(env, After(env, s, ms[0]), ms[1..], s');
    }
  }

  /** s' has replaced record t by a newer record `next` of the same node. */
  ghost predicate ReplacedBy(s: Control, s': Control, t: string, next: string)
    requires t in s.tasks
  {
    var key := s.tasks[t].envelope.Key();
    && next !in s.tasks && s'.tasks.Keys == s.tasks.Keys + {next} && s'.byNode == s.byNode[key := next]
    && (forall u :: u in s.tasks ==> s'.tasks[u].envelope == s.tasks[u].envelope)
    && (forall u :: u in s.tasks && u != t ==> s'.tasks[u].supersededBy == s.tasks[u].supersededBy)
    && s'.tasks[t].supersededBy == Some(next) && s'.tasks[next].supersededBy == None
    && s'.tasks[next].envelope.Key() == key
    && |s.log| <= s'.tasks[next].envelope.parentAuditSeq < |s'.log|
  }

  lemma ReplacementKeepsChains(s: Control, s': Control, t: string, next: string)
    requires Chained(s) && t in s.tasks && s.tasks[t].supersededBy.None? && ReplacedBy(s, s', t, next)
    ensures Chained(s')
  {
    assert ChainedAt(s, t);
    forall u | u in s'.tasks ensures ChainedAt(s', u) {
      if u != next { assert ChainedAt(s, u); }
    }
  }

  /** A reclaim that completes puts the replacement after the reclaimed task. */
  lemma CompletedReplaces(env: Env, s: Control, t: string, reason: string, s1: Control, e: Envelope, lead: string, now: int)
    requires t in s.tasks
    requires OnlyRing(ReclaimBase(s, t, reason), s1) && Fits(env, s1, e) && e.Key() == s.tasks[t].envelope.Key()
    ensures t in Enqueue(env, s1, e, lead, now).tasks
    ensures ReplacedBy(s, Supersede(Enqueue(env, s1, e, lead, now), t, e.taskId), t, e.taskId)
  {
    BaseShape(s, t, reason, s1);
    EnqueuedReplaces(env, s, t, s1, e, lead, now);
  }

  lemma BaseShape(s: Control, t: string, reason: string, s1: Control)
    requires t in s.tasks && OnlyRing(ReclaimBase(s, t, reason), s1)
    ensures s1.tasks == s.tasks[t := s.tasks[t].(state := TaskState.Abandoned)] && |s1.log| == |s.log| + 1
    ensures s1.byNode == s.byNode - {s.tasks[t].envelope.Key()}
  {}

  lemma EnqueuedReplaces(env: Env, s: Control, t: string, s1: Control, e: Envelope, lead: string, now: int)
    requires t in s.tasks && e.Key() == s.tasks[t].envelope.Key()
    requires s1.tasks == s.tasks[t := s.tasks[t].(state := TaskState.Abandoned)] && |s1.log| == |s.log| + 1
    requires s1.byNode == s.byNode - {e.Key()} && e.taskId !in s1.tasks && e.parentAuditSeq == |s1.log|
    ensures t in Enqueue(env, s1, e, lead, now).tasks
    ensures ReplacedBy(s, Supersede(Enqueue(env, s1, e, lead, now), t, e.taskId), t, e.taskId)
  {
    assert s.byNode[e.Key() := e.taskId] == (s.byNode - {e.Key()})[e.Key() := e.taskId];
  }

  lemma ReclaimKeepsChains(env: Env, s: Control, t: string, reason: string, graph: WorkGraph, draw: Draw)
    requires Chained(s) && s.ring.keys != [] && FreshDraws(s, [draw])
    requires ReclaimRefusal(s, t).Some? || Reclaim(env, s, t, reason, graph, draw).1.Ok?
    ensures Chained(Reclaim(env, s, t, reason, graph, draw).0)
  {
    if ReclaimRefusal(s, t).None? {
      ReclaimCases(env, s, t, reason, graph, draw);
      InnerPlaces(env, s, t, reason, graph, draw);
      var base, s2, e := ReclaimBase(s, t, reason), Inner(env, s, t, reason, graph, draw).0, Inner(env, s, t, reason, graph, draw).1.value;
      var s1, lead, now :| OnlyRing(base, s1) && Fits(env, s1, e) && s2 == Enqueue(env, s1, e, lead, now);
      CompletedReplaces(env, s, t, reason, s1, e, lead, now);
      ReplacementKeepsChains(s, Reclaim(env, s, t, reason, graph, draw).0, t, e.taskId);
    }
  }

  // ---------- over one process ----------

  /** Every reclaim is refused at once or completes. */
  ghost predicate CompleteOp(env: Env, s: Control, op: Op)
    requires Legal(s, op)
  {
    op.ReclaimOp? && s.ring.keys != [] ==> ReclaimRefusal(s, op.taskId).Some? || Reclaim(env, s, op.taskId, op.reason, op.graph, op.draw).1.Ok?
  }

  lemma StepKeepsChains(env: Env, s: Control, op: Op)
    requires Kept(env, s) && !s.readOnly && Chained(s) && Legal(s, op) && !op.StartOp? && CompleteOp(env, s, op)
    ensures Chained(Step(env, s, op)) && !Step(env, s, op).readOnly
  {
    if op.ReclaimOp? {
      ReclaimKeepsChains(env, s, op.taskId, op.reason, op.graph, op.draw);
    } else {
      QuietStep(env, s, op);
      var ms :| PathBy(env, s, ms, Step(env, s, op), Quiet);
      PathKeepsChains(env, s, ms, Step(env, s, op));
    }
    StepKept(env, s, op);
  }

  /** A process that restarted from a log without reclaims starts with no replaced record. */
  lemma StartChained(env: Env, start: Start, log: seq<Event>)
    requires AllAdmissible(env, log) && CanStart(start, log) && Sole(Replayed(log)) && Replayed(log).reclaimed == {}
    ensures Chained(Started(start, log).0)
  {
    var s, r := Started(start, log).0, Replayed(log);
    StartMemory(env, start, log);
    StartReplays(env, start, log);
    StartedRecords(env, start, log);
    AdmissibleRestorable(env, log);
    StartGrows(start, log);
    forall t | t in s.tasks ensures ChainedAt(s, t) {
      RestoredIdentity(r, t, |log|);
    }
  }

  ghost predicate CompleteRun(env: Env, s: Control, ops: seq<Op>)
    requires LegalRun(env, s, ops) && !s.readOnly
    decreases |ops|
  {
    ops == [] || (!ops[0].StartOp? && CompleteOp(env, s, ops[0])
                  && !Step(env, s, ops[0]).readOnly && CompleteRun(env, Step(env, s, ops[0]), ops[1..]))
  }

  /** Over every run of one process whose reclaims complete, ownership is a set of chains. */
  lemma {:induction false} RunChained(env: Env, s: Control, ops: seq<Op>)
    requires Kept(env, s) && LegalRun(env, s, ops) && !s.readOnly && CompleteRun(env, s, ops) && Chained(s)
    ensures Chained(Run(env, s, ops))
    decreases |ops|
  {
    if ops != [] {
      StepKept(env, s, ops[0]);
      StepKeepsChains(env, s, ops[0]);
      RunChained(env, Step(env, s, ops[0]), ops[1..]);
    }
  }
}
