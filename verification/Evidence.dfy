/** Ship safety over whole runs: every gate result in the log was handed to accept_gate,
    with evidence, by the team that owns the gate. */
module Evidence {
  import opened Basics
  import opened Schema
  import opened SchemaCodec
  import opened Events
  import opened Replay
  import opened Control
  import opened Moves
  import opened Projection
  import opened Restart
  import opened Runs
  import opened History
  import Gates
  import Lex
  import Topology

  /** The operation handed in the result that this entry records. */
  ghost predicate GaveVerdict(env: Env, op: Op, ev: Event) {
    && op.GateOp? && ev.GateOutcome? && op.taskId == ev.taskId && ParseResult(op.raw, op.now).Ok?
    && var result := ParseResult(op.raw, op.now).value;
       result.gate == ev.gate && result.passed == ev.passed && EvidenceHash(env, result.evidence) == ev.evidenceHash
  }

  ghost predicate NoVerdictSince(log: seq<Event>, log': seq<Event>) {
    log <= log' && forall i :: |log| <= i < |log'| ==> !log'[i].GateOutcome?
  }

  lemma {:induction false} UngatedPathAdds(env: Env, s: Control, ms: seq<Move>, s': Control)
    requires PathBy(env, s, ms, s', Ungated)
    ensures NoVerdictSince(s.log, s'.log)
    decreases |ms|
  {
    if ms != [] {
      var s1 := After(env, s, ms[0]);
      MoveLogs(env, s, ms[0]);
      assert PathBy(env, s1, ms[1..], s', Ungated);
      UngatedPathAdds(env, s1, ms[1..], s');
      VerdictsJoin(s.log, s1.log, s'.log);
    }
  }

  lemma VerdictsJoin(a: seq<Event>, b: seq<Event>, c: seq<Event>)
    requires NoVerdictSince(a, b) && NoVerdictSince(b, c)
    ensures NoVerdictSince(a, c)
  {
    forall i | |a| <= i < |c| ensures !c[i].GateOutcome? {
      assert i < |b| ==> c[i] == b[i];
    }
  }

  lemma StartAddsNoVerdict(start: Start, log: seq<Event>)
    requires start.ring.keys != []
    ensures NoVerdictSince(log, Started(start, log).0.log)
  {
    var n := StartedState(start, log);
    var teams := Lex.Sorted(Replayed(log).paused);
    PausesAreNeutral(teams);
    if Started(start, log).1.Err? { PausesAreNeutral(teams[..n]); }
  }

  /** An operation logs a verdict only for the result it hands in. */
  lemma StepVerdicts(env: Env, s: Control, op: Op)
    requires Legal(s, op)
    ensures var log := Step(env, s, op).log;
      && s.log <= log
      && forall i :: |s.log| <= i < |log| && log[i].GateOutcome? ==> GaveVerdict(env, op, log[i])
  {
    if op.StartOp? {
      StartAddsNoVerdict(op.start, s.log);
    } else if op.GateOp? {
      GateStepVerdicts(env, s, op);
    } else if !s.readOnly && s.ring.keys != [] {
      UngatedStepAdds(env, s, op);
    }
  }

  lemma UngatedStepAdds(env: Env, s: Control, op: Op)
    requires Legal(s, op) && !op.StartOp? && !op.GateOp? && !s.readOnly && s.ring.keys != []
    ensures NoVerdictSince(s.log, Step(env, s, op).log)
  {
    UngatedStep(env, s, op);
    var ms :| PathBy(env, s, ms, Step(env, s, op), Ungated);
    UngatedPathAdds(env, s, ms, Step(env, s, op));
  }

  lemma GateStepVerdicts(env: Env, s: Control, op: Op)
    requires Legal(s, op) && op.GateOp?
    ensures var log := Step(env, s, op).log;
      && s.log <= log
      && forall i :: |s.log| <= i < |log| && log[i].GateOutcome? ==> GaveVerdict(env, op, log[i])
  {}

  lemma FirstVerdict(env: Env, s: Control, ops: seq<Op>, i: int)
    requires ops != [] && LegalRun(env, s, ops) && |s.log| <= i < |Step(env, s, ops[0]).log|
    ensures i < |Run(env, s, ops).log|
    ensures Run(env, s, ops).log[i].GateOutcome? ==> GaveVerdict(env, ops[0], Run(env, s, ops).log[i])
  {
    StepVerdicts(env, s, ops[0]);
    RunGrows(env, Step(env, s, ops[0]), ops[1..]);
  }

  /** Operation k of the run wrote entry i of the log. */
  ghost predicate Wrote(env: Env, s: Control, ops: seq<Op>, k: nat, i: int)
    requires LegalRun(env, s, ops) && k < |ops|
  {
    |StateAt(env, s, ops, k).log| <= i < |StateAt(env, s, ops, k + 1).log|
  }

  lemma {:induction false} RunVerdicts(env: Env, s: Control, ops: seq<Op>, i: int) returns (k: nat)
    requires LegalRun(env, s, ops) && |s.log| <= i < |Run(env, s, ops).log| && Run(env, s, ops).log[i].GateOutcome?
    ensures k < |ops| && Wrote(env, s, ops, k, i) && GaveVerdict(env, ops[k], Run(env, s, ops).log[i])
    decreases |ops|
  {
    if i < |Step(env, s, ops[0]).log| {
      FirstVerdict(env, s, ops, i);
      k := 0;
      assert StateAt(env, s, ops, 1) == StateAt(env, Step(env, s, ops[0]), ops[1..], 0);
    } else {
      var j := RunVerdicts(env, Step(env, s, ops[0]), ops[1..], i);
      k := j + 1;
      assert ops[1..][j] == ops[k];
    }
  }

  lemma {:induction false} RunGrows(env: Env, s: Control, ops: seq<Op>)
    requires LegalRun(env, s, ops)
    ensures s.log <= Run(env, s, ops).log
    decreases |ops|
  {
    if ops != [] {
      StepVerdicts(env, s, ops[0]);
      RunGrows(env, Step(env, s, ops[0]), ops[1..]);
    }
  }

  /** What stands behind a verdict: a result with evidence, from the team that owns the gate. */
  ghost predicate CheckedByOwner(env: Env, op: Op, ev: Event) {
    && GaveVerdict(env, op, ev)
    && var result := ParseResult(op.raw, op.now).value;
       && result.evidence != [] && Gates.Known(ev.gate) && result.checkedBy == Gates.Lookup(ev.gate).value.ownerTeam
  }

  /** Every gate result in the log of any run from nothing was written by an accept_gate call
      that was handed a parsed result of the same task, gate and verdict, whose evidence has
      the logged hash, and whose checker is the gate's owning team. */
  lemma EveryVerdictWasChecked(env: Env, s: Control, ops: seq<Op>, i: nat) returns (k: nat)
    requires FromNothing(env, s, ops) && i < |Run(env, s, ops).log| && Run(env, s, ops).log[i].GateOutcome?
    ensures k < |ops| && Wrote(env, s, ops, k, i) && CheckedByOwner(env, ops[k], Run(env, s, ops).log[i])
  {
    k := RunVerdicts(env, s, ops, i);
    assert ParseResult(ops[k].raw, ops[k].now).value.Valid();
  }

  /** Ship safety with evidence: whenever a graph may ship after a run from nothing, every
      node has an owner with a dispatch entry and a passing last gate result for its own
      exit gate, and that result came with evidence from the one team of the running
      topology that owns the gate. */
  lemma ShippingIsChecked(env: Env, s: Control, ops: seq<Op>, graph: WorkGraph, graphId: string, n: nat)
    returns (t: string, d: int, g: int, k: nat)
    requires FromNothing(env, s, ops) && !Run(env, s, ops).readOnly
    requires MayShip(Run(env, s, ops), graph, graphId) && n < |graph.nodes|
    ensures var end := Run(env, s, ops);
      && LiveTask(end, graphId, graph.nodes[n].id) == Some(t) && Proven(env, end, graphId, graph.nodes[n].id, t, d, g)
      && k < |ops| && Wrote(env, s, ops, k, g) && CheckedByOwner(env, ops[k], end.log[g])
      && OwnsGate(end.topology, ParseResult(ops[k].raw, ops[k].now).value.checkedBy, end.log[g].gate)
  {
    var end := Run(env, s, ops);
    FromNothingKept(env, s, ops);
    t, d, g := ShippingIsProven(env, end, graph, graphId, n);
    k := EveryVerdictWasChecked(env, s, ops, g);
    Topology.GateOwnerIsUnique(end.topology, end.log[g].gate);
  }

  /** Some team of this name claims the gate, and no other team does. */
  predicate OwnsGate(topology: Topology.Topology, team: string, gate: string) {
    && topology.TeamForGate(gate).Some? && topology.TeamForGate(gate).value.name == team
    && forall i :: 0 <= i < |topology.teams| && gate in topology.teams[i].gatesOwned ==> topology.teams[i].name == team
  }
}
