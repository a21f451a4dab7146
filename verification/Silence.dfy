/** Silence: over whole runs, exactly which records stuck_tasks flags, and when. */
module Silence {
  import opened Basics
  import opened Schema
  import opened Control
  import opened Projection
  import opened Restart
  import opened Recovery
  import opened Runs
  import Events
  import JsonText
  import Tokens

  /** When an operation sent out this task. */
  ghost function SentAt(op: Op, t: string): int {
    if op.DispatchOp? then op.draw.now
    else if op.ReclaimOp? then op.draw.now
    else if op.GraphOp? && exists i :: 0 <= i < |op.draws| && op.draws[i].taskId == t then
      var i :| 0 <= i < |op.draws| && op.draws[i].taskId == t; op.draws[i].now
    else 0
  }

  predicate AcceptsReport(env: Env, s: Control, op: Op) {
    op.StatusOp? && !s.readOnly && IngestStatus(env, s, op.raw).1.Ok?
  }

  /** The moment each task is due by, after one more operation: a cold start forgets it, a
      report promises the next one, and a task sent out is due an acknowledgement. */
  ghost function DueNext(env: Env, s: Control, due: map<string, Option<int>>, op: Op): map<string, Option<int>>
    requires Legal(s, op)
  {
    var s' := Step(env, s, op);
    if op.StartOp? then map t | t in s'.tasks :: None
    else if AcceptsReport(env, s, op) then
      var u := IngestStatus(env, s, op.raw).1.value; due[u.taskId := Some(u.nextUpdateBy)]
    else map t | t in s'.tasks :: if t in due then due[t] else Some(SentAt(op, t) + env.ackSlo)
  }

  /** The record is due by d, or by no moment. */
  predicate DueBy(r: Record, d: Option<int>) {
    (r.ackDeadline.None? || r.nextUpdateBy.None?) && d == if r.ackDeadline.Some? then r.ackDeadline else r.nextUpdateBy
  }

  ghost predicate DueKept(s: Control, due: map<string, Option<int>>) {
    !s.readOnly ==> due.Keys == s.tasks.Keys && forall t :: t in s.tasks ==> DueBy(s.tasks[t], due[t])
  }

  // ---------- what operations do to deadlines ----------

  predicate SameTimes(r: Record, r': Record) {
    r'.ackDeadline == r.ackDeadline && r'.nextUpdateBy == r.nextUpdateBy
  }

  predicate TimesKept(s: Control, s': Control) {
    forall t :: t in s.tasks ==> t in s'.tasks && SameTimes(s.tasks[t], s'.tasks[t])
  }

  predicate SentBy(env: Env, r: Record, draw: Draw) {
    r.ackDeadline == Some(draw.now + env.ackSlo) && r.nextUpdateBy.None?
  }

  /** Nothing but one task is new, and it was sent out with this draw. */
  predicate SentOut(env: Env, s: Control, s': Control, draw: Draw) {
    TimesKept(s, s') && forall t :: t in s'.tasks && t !in s.tasks ==> SentBy(env, s'.tasks[t], draw)
  }

  lemma EnqueueTimes(env: Env, s: Control, e: Envelope, lead: string, draw: Draw)
    requires e.taskId !in s.tasks
    ensures SentOut(env, s, Enqueue(env, s, e, lead, draw.now), draw)
  {}

  lemma PlaceTimes(env: Env, s: Control, node: WorkNode, graphId: string, payload: map<string, JsonText.Json>,
                   t: string, ttl: int, draw: Draw)
    requires s.ring.keys != [] && t !in s.tasks
    ensures SentOut(env, s, Place(env, s, node, graphId, payload, t, ttl, draw).0, draw)
  {
    var full := Resolved(payload, node);
    var (ring, token) := Tokens.Sign(env.hmac, s.ring, SignRequest(env, node, graphId, full, t, ttl), draw.clock, draw.key);
    if token.Ok? && IsTaskId(t) {
      EnqueueTimes(env, s.(ring := ring), NewEnvelope(s, node, graphId, full, t, token.value), LeadOf(s, node.team), draw);
    }
  }

  lemma DispatchTimes(env: Env, s: Control, node: WorkNode, graphId: string, payload: map<string, JsonText.Json>,
                      wanted: Option<string>, ttl: int, draw: Draw)
    requires s.ring.keys != [] && draw.taskId !in s.tasks
    ensures SentOut(env, s, Dispatch(env, s, node, graphId, payload, wanted, ttl, draw).0, draw)
  {
    if !s.readOnly && node.Valid() && Existing(s, graphId, node.id, wanted).None? && Refusal(s, node).None? {
      PlaceTimes(env, s, node, graphId, payload, if wanted.Some? && wanted.value != "" then wanted.value else draw.taskId, ttl, draw);
    }
  }

  /** A new task of a graph dispatch was sent out with its own draw. */
  ghost predicate SentAmong(env: Env, r: Record, t: string, draws: seq<Draw>) {
    exists i :: 0 <= i < |draws| && draws[i].taskId == t && SentBy(env, r, draws[i])
  }

  ghost predicate NewSentAmong(env: Env, s: Control, s': Control, draws: seq<Draw>) {
    TimesKept(s, s') && forall t :: t in s'.tasks && t !in s.tasks ==> SentAmong(env, s'.tasks[t], t, draws)
  }

  lemma SentLater(env: Env, r: Record, t: string, draws: seq<Draw>)
    requires draws != [] && SentAmong(env, r, t, draws[1..])
    ensures SentAmong(env, r, t, draws)
  {
    var i :| 0 <= i < |draws[1..]| && draws[1..][i].taskId == t && SentBy(env, r, draws[1..][i]);
    assert draws[i + 1] == draws[1..][i];
  }

  lemma SentJoins(env: Env, s: Control, s1: Control, s': Control, draws: seq<Draw>)
    requires draws != [] && SentOut(env, s, s1, draws[0]) && NewSentAmong(env, s1, s', draws[1..])
    requires s1.tasks.Keys <= s.tasks.Keys + {draws[0].taskId}
    ensures NewSentAmong(env, s, s', draws)
  {
    forall t | t in s'.tasks && t !in s.tasks ensures SentAmong(env, s'.tasks[t], t, draws) {
      if t in s1.tasks {
        assert SentBy(env, s'.tasks[t], draws[0]);
      } else {
        SentLater(env, s'.tasks[t], t, draws);
      }
    }
  }

  lemma {:induction false} NodesTimes(env: Env, s: Control, nodes: seq<WorkNode>, graphId: string, readyOnly: bool,
                                      ready: set<string>, draws: seq<Draw>)
    requires s.ring.keys != [] && |draws| == |nodes| && FreshDraws(s, draws)
    ensures NewSentAmong(env, s, DispatchNodes(env, s, nodes, graphId, readyOnly, ready, draws).0, draws)
    decreases |nodes|
  {
    if nodes != [] {
      var (s1, first) := Dispatch(env, s, nodes[0], graphId, map[], None, DEFAULT_TTL, draws[0]);
      DispatchAdds(env, s, nodes[0], graphId, DEFAULT_TTL, draws[0]);
      FreshRest(s, s1, draws);
      DispatchTimes(env, s, nodes[0], graphId, map[], None, DEFAULT_TTL, draws[0]);
      if readyOnly && !IsReady(nodes[0], ready) {
        NodesTimes(env, s, nodes[1..], graphId, readyOnly, ready, draws[1..]);
        SentJoins(env, s, s, DispatchNodes(env, s, nodes, graphId, readyOnly, ready, draws).0, draws);
      } else if first.Ok? {
        NodesTimes(env, s1, nodes[1..], graphId, readyOnly, ready, draws[1..]);
        SentJoins(env, s, s1, DispatchNodes(env, s, nodes, graphId, readyOnly, ready, draws).0, draws);
      } else {
        SentJoins(env, s, s1, s1, draws);
      }
    }
  }

  lemma InnerTimes(env: Env, s: Control, t: string, reason: string, graph: WorkGraph, draw: Draw)
    requires s.ring.keys != [] && draw.taskId !in s.tasks && t in s.tasks && graph.Node(s.tasks[t].envelope.nodeId).Ok?
    ensures SentOut(env, s, Inner(env, s, t, reason, graph, draw).0, draw)
  {
    var base, e := ReclaimBase(s, t, reason), s.tasks[t].envelope;
    assert TimesKept(s, base) && base.tasks.Keys == s.tasks.Keys;
    DispatchTimes(env, base, graph.Node(e.nodeId).value, e.graphId, map[], None, DEFAULT_TTL, draw);
    SentOutAfter(env, s, base, Inner(env, s, t, reason, graph, draw).0, draw);
  }

  lemma SentOutAfter(env: Env, s: Control, base: Control, s': Control, draw: Draw)
    requires TimesKept(s, base) && base.tasks.Keys == s.tasks.Keys && SentOut(env, base, s', draw)
    ensures SentOut(env, s, s', draw)
  {}

  lemma LinkTimes(env: Env, s: Control, s1: Control, draw: Draw, t: string, next: string)
    requires SentOut(env, s, s1, draw) && t in s1.tasks
    ensures SentOut(env, s, Supersede(s1, t, next), draw)
  {}

  lemma ReclaimTimes(env: Env, s: Control, t: string, reason: string, graph: WorkGraph, draw: Draw)
    requires s.ring.keys != [] && draw.taskId !in s.tasks
    ensures SentOut(env, s, Reclaim(env, s, t, reason, graph, draw).0, draw)
  {
    if ReclaimRefusal(s, t).None? {
      ReclaimCases(env, s, t, reason, graph, draw);
      var e := s.tasks[t].envelope;
      if graph.Node(e.nodeId).Ok? && e.Key() in s.byNode {
        InnerTimes(env, s, t, reason, graph, draw);
        var (s1, r) := Inner(env, s, t, reason, graph, draw);
        if r.Ok? { LinkTimes(env, s, s1, draw, t, r.value.taskId); }
      }
    }
  }

  ghost predicate OpSends(env: Env, s: Control, s': Control, op: Op) {
    TimesKept(s, s') && forall t :: t in s'.tasks && t !in s.tasks ==> DueBy(s'.tasks[t], Some(SentAt(op, t) + env.ackSlo))
  }

  lemma AmongIsDue(env: Env, r: Record, t: string, op: Op)
    requires op.GraphOp? && SentAmong(env, r, t, op.draws)
    requires forall i, j :: 0 <= i < j < |op.draws| ==> op.draws[i].taskId != op.draws[j].taskId
    ensures DueBy(r, Some(SentAt(op, t) + env.ackSlo))
  {
    var i :| 0 <= i < |op.draws| && op.draws[i].taskId == t && SentBy(env, r, op.draws[i]);
  }

  lemma GraphTimes(env: Env, s: Control, op: Op)
    requires Legal(s, op) && !s.readOnly && s.ring.keys != [] && op.GraphOp?
    ensures OpSends(env, s, Step(env, s, op), op)
  {
    var s' := Step(env, s, op);
    NodesTimes(env, s, op.graph.nodes, op.graphId, op.readyOnly, Satisfied(s, op.graphId), op.draws);
    forall t | t in s'.tasks && t !in s.tasks ensures DueBy(s'.tasks[t], Some(SentAt(op, t) + env.ackSlo)) {
      AmongIsDue(env, s'.tasks[t], t, op);
    }
  }

  lemma OneTimes(env: Env, s: Control, s': Control, op: Op, draw: Draw)
    requires SentOut(env, s, s', draw) && (op.DispatchOp? || op.ReclaimOp?) && op.draw == draw
    ensures OpSends(env, s, s', op)
  {}

  lemma SmallTimes(env: Env, s: Control, op: Op)
    requires Legal(s, op) && !s.readOnly && s.ring.keys != [] && Small(op) && !AcceptsReport(env, s, op)
    ensures TimesKept(s, Step(env, s, op)) && Step(env, s, op).tasks.Keys == s.tasks.Keys
  {}

  /** Apart from reports and cold starts, deadlines stay, and a new task is due by when it was
      sent plus the acknowledgement time. */
  lemma StepTimes(env: Env, s: Control, op: Op)
    requires Legal(s, op) && !s.readOnly && s.ring.keys != [] && !op.StartOp? && !AcceptsReport(env, s, op)
    ensures OpSends(env, s, Step(env, s, op), op)
  {
    if Small(op) {
      SmallTimes(env, s, op);
    } else if op.GraphOp? {
      GraphTimes(env, s, op);
    } else {
      AssignTimes(env, s, op);
      OneTimes(env, s, Step(env, s, op), op, op.draw);
    }
  }

  lemma AssignTimes(env: Env, s: Control, op: Op)
    requires Legal(s, op) && !s.readOnly && s.ring.keys != [] && (op.DispatchOp? || op.ReclaimOp?)
    ensures SentOut(env, s, Step(env, s, op), op.draw)
  {
    assert [op.draw][0].taskId !in s.tasks;
    match op
    case DispatchOp(node, g, payload, wanted, ttl, draw) => DispatchTimes(env, s, node, g, payload, wanted, ttl, draw);
    case ReclaimOp(t, reason, graph, draw) => ReclaimTimes(env, s, t, reason, graph, draw);
  }

  // ---------- over runs ----------

  lemma StartDue(env: Env, start: Start, log: seq<Events.Event>, t: string)
    requires AllAdmissible(env, log) && CanStart(start, log) && t in Started(start, log).0.tasks
    ensures DueBy(Started(start, log).0.tasks[t], None)
  {
    StartedRecords(env, start, log);
  }

  lemma StartStepDue(env: Env, s: Control, due: map<string, Option<int>>, op: Op)
    requires Kept(env, s) && Legal(s, op) && op.StartOp?
    ensures DueKept(Step(env, s, op), DueNext(env, s, due, op))
  {
    if Started(op.start, s.log).1.Ok? {
      forall t | t in Started(op.start, s.log).0.tasks { StartDue(env, op.start, s.log, t); }
    } else {
      var _ := StartedState(op.start, s.log);
    }
  }

  lemma ReportDue(env: Env, s: Control, due: map<string, Option<int>>, op: Op)
    requires Legal(s, op) && DueKept(s, due) && AcceptsReport(env, s, op) && s.ring.keys != []
    ensures DueKept(Step(env, s, op), DueNext(env, s, due, op))
  {
    var u := IngestStatus(env, s, op.raw).1.value;
    assert Step(env, s, op) == Report(env, s, u);
  }

  lemma SendsDue(env: Env, s: Control, s': Control, due: map<string, Option<int>>, op: Op)
    requires !s.readOnly && DueKept(s, due) && OpSends(env, s, s', op)
    ensures DueKept(s', map t | t in s'.tasks :: if t in due then due[t] else Some(SentAt(op, t) + env.ackSlo))
  {}

  lemma StepDue(env: Env, s: Control, due: map<string, Option<int>>, op: Op)
    requires Kept(env, s) && Legal(s, op) && DueKept(s, due)
    ensures DueKept(Step(env, s, op), DueNext(env, s, due, op))
  {
    if op.StartOp? {
      StartStepDue(env, s, due, op);
    } else if AcceptsReport(env, s, op) {
      ReportDue(env, s, due, op);
    } else if !s.readOnly {
      StepTimes(env, s, op);
      SendsDue(env, s, Step(env, s, op), due, op);
    }
  }

  ghost function DueAfter(env: Env, s: Control, due: map<string, Option<int>>, ops: seq<Op>): map<string, Option<int>>
    requires LegalRun(env, s, ops)
    decreases |ops|
  {
    if ops == [] then due
    else DueAfter(env, Step(env, s, ops[0]), DueNext(env, s, due, ops[0]), ops[1..])
  }

  lemma {:induction false} RunDue(env: Env, s: Control, due: map<string, Option<int>>, ops: seq<Op>)
    requires Kept(env, s) && LegalRun(env, s, ops) && DueKept(s, due)
    ensures DueKept(Run(env, s, ops), DueAfter(env, s, due, ops))
    decreases |ops|
  {
    if ops != [] {
      StepKept(env, s, ops[0]);
      StepDue(env, s, due, ops[0]);
      RunDue(env, Step(env, s, ops[0]), DueNext(env, s, due, ops[0]), ops[1..]);
    }
  }

  /** Over every run from nothing a record is stuck exactly when it is open and past the moment
      it is due by: the acknowledgement time after it was sent out, or the next update its
      last report promised, and no moment at all once a cold start came after both. */
  lemma StuckExactlyWhen(env: Env, s: Control, ops: seq<Op>, t: string, now: int)
    requires FromNothing(env, s, ops) && !Run(env, s, ops).readOnly && t in Run(env, s, ops).tasks
    ensures var due := DueAfter(env, s, map[], ops); var r := Run(env, s, ops).tasks[t];
      t in due && (Stuck(r, now) <==> Open(r) && due[t].Some? && now > due[t].value)
  {
    RunDue(env, s, map[], ops);
    assert DueBy(Run(env, s, ops).tasks[t], DueAfter(env, s, map[], ops)[t]);
  }

  // ---------- silence since a restart ----------

  /** The run stays in one process and accepts no report on the task. */
  ghost predicate Unheard(env: Env, s: Control, ops: seq<Op>, t: string)
    requires LegalRun(env, s, ops)
    decreases |ops|
  {
    ops == []
    || (!ops[0].StartOp? && !(AcceptsReport(env, s, ops[0]) && IngestStatus(env, s, ops[0].raw).1.value.taskId == t)
        && Unheard(env, Step(env, s, ops[0]), ops[1..], t))
  }

  lemma UnheardStep(env: Env, s: Control, op: Op, t: string)
    requires Sound(env, s) && Legal(s, op) && !op.StartOp? && t in s.tasks
    requires !(AcceptsReport(env, s, op) && IngestStatus(env, s, op.raw).1.value.taskId == t)
    ensures t in Step(env, s, op).tasks && SameTimes(s.tasks[t], Step(env, s, op).tasks[t])
  {
    if AcceptsReport(env, s, op) { ReportElsewhere(env, s, op, t); } else { StepTimes(env, s, op); }
  }

  lemma ReportElsewhere(env: Env, s: Control, op: Op, t: string)
    requires Sound(env, s) && Legal(s, op) && t in s.tasks && AcceptsReport(env, s, op)
    requires IngestStatus(env, s, op.raw).1.value.taskId != t
    ensures t in Step(env, s, op).tasks && Step(env, s, op).tasks[t] == s.tasks[t]
  {}

  lemma {:induction false} UnheardRun(env: Env, s: Control, ops: seq<Op>, t: string)
    requires Sound(env, s) && LegalRun(env, s, ops) && Unheard(env, s, ops, t) && t in s.tasks
    ensures t in Run(env, s, ops).tasks && SameTimes(s.tasks[t], Run(env, s, ops).tasks[t])
    decreases |ops|
  {
    if ops != [] {
      StepKept(env, s, ops[0]);
      UnheardStep(env, s, ops[0], t);
      UnheardRun(env, Step(env, s, ops[0]), ops[1..], t);
    }
  }

  /** A restart forgets silence: a restored task that is not reported on is never stuck again,
      however long the process runs, though it is open and nobody works on it. */
  lemma RestoredSilentNeverStuck(env: Env, start: Start, log: seq<Events.Event>, ops: seq<Op>, t: string, now: int)
    requires AllAdmissible(env, log) && CanStart(start, log) && t in Started(start, log).0.tasks
    requires Kept(env, Started(start, log).0) && LegalRun(env, Started(start, log).0, ops)
    requires Unheard(env, Started(start, log).0, ops, t)
    ensures var end := Run(env, Started(start, log).0, ops); t in end.tasks && !Stuck(end.tasks[t], now)
  {
    StartedRecords(env, start, log);
    StartDue(env, start, log, t);
    UnheardRun(env, Started(start, log).0, ops, t);
  }

  /** Every stuck task can be reclaimed, and none is stuck once it has been replaced. */
  lemma StuckIsReclaimable(s: Control, t: string, next: string, now: int)
    requires t in s.tasks && Stuck(s.tasks[t], now) && !s.readOnly
    ensures ReclaimRefusal(s, t).None?
    ensures !Stuck(Supersede(s, t, next).tasks[t], now) && ReclaimRefusal(Supersede(s, t, next), t).Some?
  {}
}
