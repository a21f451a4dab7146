/** Which passes stand: a forward reading of the log that gives the memory's state gate_pass
    exactly, and so says when a restart changes the shipping decision. */
module Standing {
  import opened Schema
  import opened Events
  import opened Replay
  import opened Control
  import opened Moves
  import opened Projection
  import opened Restart
  import opened Recovery
  import opened Runs
  import opened Ownership
  import opened History
  import Lex

  /** The passes that a cold start restores. */
  function RestoredPasses(r: ReplayState): set<string> {
    set t | t in r.gateResults && r.gateResults[t] && t !in r.reclaimed
  }

  /** A passing verdict adds its task; a failing one, a report and a reclaim remove it; a cold
      start resets the set to what replay says. */
  function AfterEntry(standing: set<string>, r: ReplayState, ev: Event): set<string> {
    if ev.GateOutcome? && ev.passed then standing + {ev.taskId}
    else if ev.GateOutcome? || ev.Status? || ev.Reclaimed? then standing - {ev.taskId}
    else if ev.ColdStart? then RestoredPasses(r)
    else standing
  }

  function Standing(log: seq<Event>): set<string> {
    if log == [] then {}
    else
      var before := log[..|log| - 1];
      AfterEntry(Standing(before), Replayed(before), log[|log| - 1])
  }

  lemma StandingSnoc(log: seq<Event>, ev: Event)
    ensures Standing(log + [ev]) == AfterEntry(Standing(log), Replayed(log), ev)
  {
    assert (log + [ev])[..|log|] == log;
  }

  /** The memory holds as passed exactly the tasks whose pass stands. */
  ghost predicate Agrees(s: Control) {
    PassedAre(s, Standing(s.log))
  }

  ghost predicate PassedAre(s: Control, standing: set<string>) {
    forall t :: (t in s.tasks && s.tasks[t].state.Passed?) <==> t in standing
  }

  // ---------- every operation keeps the agreement ----------

  /** The passed tasks move as the standing ones do. */
  lemma MovePasses(env: Env, s: Control, m: Move, standing: set<string>, r: ReplayState)
    requires Enabled(env, s, m) && PassedAre(s, standing)
    ensures PassedAre(After(env, s, m),
                      if Logged(env, s, m) == [] then standing else AfterEntry(standing, r, Logged(env, s, m)[0]))
  {
    if m.Reported? { assert !StateOf(m.update.state).Passed?; }
  }

  lemma MoveAgrees(env: Env, s: Control, m: Move)
    requires Enabled(env, s, m) && Agrees(s)
    ensures Agrees(After(env, s, m))
  {
    MoveLogs(env, s, m);
    MovePasses(env, s, m, Standing(s.log), Replayed(s.log));
    var events := Logged(env, s, m);
    if events == [] {
      assert After(env, s, m).log == s.log;
    } else {
      StandingSnoc(s.log, events[0]);
    }
  }

  lemma {:induction false} PathAgrees(env: Env, s: Control, ms: seq<Move>, s': Control)
    requires Path(env, s, ms, s') && Agrees(s)
    ensures Agrees(s')
    decreases |ms|
  {
    if ms != [] {
      MoveAgrees(env, s, ms[0]);
      PathAgrees(env, After(env, s, ms[0]), ms[1..], s');
    }
  }

  lemma RestoredPass(s: Control, r: ReplayState, n: int)
    requires Restorable(r, n) && RecordsRestored(s, r, r.order) && s.tasks.Keys == r.dispatched.Keys
    ensures PassedAre(s, RestoredPasses(r))
  {
    forall t ensures t in s.tasks && s.tasks[t].state.Passed? <==> t in RestoredPasses(r) {
      if t in r.dispatched { RestoredIdentity(r, t, n); }
    }
  }

  lemma StartStanding(start: Start, log: seq<Event>)
    requires CanStart(start, log)
    ensures Standing(Started(start, log).0.log) == RestoredPasses(Replayed(log))
  {
    var teams := Lex.Sorted(Replayed(log).paused);
    var _ := StartedState(start, log);
    PauseEventsReplayed(log, teams);
    StandingSnoc(log + PauseEvents(teams), ColdStart(|log|));
  }

  lemma StartAgrees(env: Env, start: Start, log: seq<Event>)
    requires AllAdmissible(env, log) && CanStart(start, log)
    ensures Agrees(Started(start, log).0)
  {
    StartedRecords(env, start, log);
    AdmissibleRestorable(env, log);
    RestoredPass(Started(start, log).0, Replayed(log), |log|);
    StartStanding(start, log);
  }

  lemma StepAgrees(env: Env, s: Control, op: Op)
    requires Kept(env, s) && Legal(s, op) && (!s.readOnly ==> Agrees(s))
    ensures !Step(env, s, op).readOnly ==> Agrees(Step(env, s, op))
  {
    if op.StartOp? {
      if Started(op.start, s.log).1.Ok? {
        StartAgrees(env, op.start, s.log);
      } else {
        var _ := StartedState(op.start, s.log);
      }
    } else if !s.readOnly {
      StepReaches(env, s, op);
      var ms :| Path(env, s, ms, Step(env, s, op));
      PathAgrees(env, s, ms, Step(env, s, op));
    }
  }

  /** In every running state of every run from nothing, memory and log agree about passes. */
  lemma {:induction false} RunAgrees(env: Env, s: Control, ops: seq<Op>)
    requires Kept(env, s) && LegalRun(env, s, ops) && (!s.readOnly ==> Agrees(s))
    ensures !Run(env, s, ops).readOnly ==> Agrees(Run(env, s, ops))
    decreases |ops|
  {
    if ops != [] {
      StepKept(env, s, ops[0]);
      StepAgrees(env, s, ops[0]);
      RunAgrees(env, Step(env, s, ops[0]), ops[1..]);
    }
  }

  // ---------- reports after the last verdict ----------

  predicate ReportAt(log: seq<Event>, i: int, t: string) {
    0 <= i < |log| && log[i].Status? && log[i].taskId == t
  }

  /** The task was reported on, and since then got no verdict and saw no cold start. */
  ghost predicate ReportedSince(log: seq<Event>, t: string) {
    exists i :: ReportAt(log, i, t) && forall j :: i < j < |log| ==> !VerdictAt(log, j, t) && !log[j].ColdStart?
  }

  /** An entry that is no report, verdict or cold start for the task leaves this as it was. */
  lemma ReportedSnoc(log: seq<Event>, ev: Event, t: string)
    requires !(ev.Status? && ev.taskId == t) && !(ev.GateOutcome? && ev.taskId == t) && !ev.ColdStart?
    ensures ReportedSince(log + [ev], t) <==> ReportedSince(log, t)
  {
    var all := log + [ev];
    if ReportedSince(all, t) {
      var i :| ReportAt(all, i, t) && forall j :: i < j < |all| ==> !VerdictAt(all, j, t) && !all[j].ColdStart?;
      forall j | i < j < |log| ensures !VerdictAt(log, j, t) && !log[j].ColdStart? {
        assert !VerdictAt(all, j, t) && !all[j].ColdStart?;
      }
      assert ReportAt(log, i, t);
    }
    if ReportedSince(log, t) {
      var i :| ReportAt(log, i, t) && forall j :: i < j < |log| ==> !VerdictAt(log, j, t) && !log[j].ColdStart?;
      forall j | i < j < |all| ensures !VerdictAt(all, j, t) && !all[j].ColdStart? {
        if j < |log| { assert !VerdictAt(log, j, t) && !log[j].ColdStart?; }
      }
      assert ReportAt(all, i, t);
    }
  }

  lemma ReportedLast(log: seq<Event>, ev: Event, t: string)
    ensures ev.Status? && ev.taskId == t ==> ReportedSince(log + [ev], t)
    ensures (ev.GateOutcome? && ev.taskId == t) || ev.ColdStart? ==> !ReportedSince(log + [ev], t)
  {
    var all := log + [ev];
    assert all[|log|] == ev;
    if ev.Status? && ev.taskId == t { assert ReportAt(all, |log|, t); }
    if (ev.GateOutcome? && ev.taskId == t) || ev.ColdStart? {
      forall i | ReportAt(all, i, t) ensures exists j :: i < j < |all| && (VerdictAt(all, j, t) || all[j].ColdStart?) {
        assert i < |log| && (VerdictAt(all, |log|, t) || all[|log|].ColdStart?);
      }
    }
  }

  /** The pass of an unreclaimed task stands exactly when the log has it and no report came
      after it in its process. */
  lemma {:induction false} StandsIff(log: seq<Event>, t: string)
    requires t !in Replayed(log).reclaimed
    ensures t in Standing(log) <==> LoggedPass(log, t) && !ReportedSince(log, t)
  {
    if log != [] {
      var n := |log| - 1;
      var before, ev := log[..n], log[n];
      assert log == before + [ev];
      ReplayedSnoc(before, ev);
      StandsIff(before, t);
      StandsStep(before, ev, t);
    }
  }

  lemma StandsStep(log: seq<Event>, ev: Event, t: string)
    requires t in Standing(log) <==> LoggedPass(log, t) && !ReportedSince(log, t)
    requires t !in Replayed(log + [ev]).reclaimed
    ensures t in Standing(log + [ev]) <==> LoggedPass(log + [ev], t) && !ReportedSince(log + [ev], t)
  {
    StandingSnoc(log, ev);
    ReplayedSnoc(log, ev);
    ReportedLast(log, ev, t);
    if !(ev.Status? && ev.taskId == t) && !(ev.GateOutcome? && ev.taskId == t) && !ev.ColdStart? { ReportedSnoc(log, ev, t); }
  }

  /** In every running state an unreclaimed task is held as passed exactly when the log has
      its pass and no report came after its last verdict in this process. A task that was
      reclaimed is held as passed exactly when its pass stands, and comes back as abandoned. */
  lemma PassedExactlyWhen(env: Env, s: Control, ops: seq<Op>, t: string)
    requires FromNothing(env, s, ops) && !Run(env, s, ops).readOnly && t in Run(env, s, ops).tasks
    ensures var end := Run(env, s, ops);
      end.tasks[t].state.Passed? <==>
        if t in Replayed(end.log).reclaimed then t in Standing(end.log)
        else LoggedPass(end.log, t) && !ReportedSince(end.log, t)
  {
    RunAgrees(env, s, ops);
    if t !in Replayed(Run(env, s, ops).log).reclaimed { StandsIff(Run(env, s, ops).log, t); }
  }

  // ---------- the shipping decision across a restart ----------

  /** Some node of the graph has an owner that was reported on after its last verdict. */
  ghost predicate OwnerReportedSince(s: Control, graph: WorkGraph, graphId: string) {
    exists i | 0 <= i < |graph.nodes| :: LiveTask(s, graphId, graph.nodes[i].id).Some?
      && ReportedSince(s.log, LiveTask(s, graphId, graph.nodes[i].id).value)
  }

  lemma DecisionNow(s: Control, graph: WorkGraph, graphId: string)
    requires Agrees(s) && OneOwner(s)
    ensures MayShip(s, graph, graphId) <==> ShipsByLog(s, graph, graphId) && !OwnerReportedSince(s, graph, graphId)
  {
    forall i | 0 <= i < |graph.nodes|
      ensures var t := LiveTask(s, graphId, graph.nodes[i].id);
        NodePassed(s, graphId, graph.nodes[i].id) <==>
          t.Some? && LoggedPass(s.log, t.value) && !ReportedSince(s.log, t.value)
    {
      var t := LiveTask(s, graphId, graph.nodes[i].id);
      if t.Some? { StandsIff(s.log, t.value); }
    }
  }

  /** A restart changes the decision exactly when every owner has a logged pass and one of
      them was reported on after its last verdict; what then changes is that the graph may
      ship again. */
  lemma RestartChangesDecisionIff(env: Env, s: Control, ops: seq<Op>, start: Start, graph: WorkGraph, graphId: string)
    requires FromNothing(env, s, ops) && CarefulRun(env, s, ops) && !Run(env, s, ops).readOnly
    requires CanStart(start, Run(env, s, ops).log)
    ensures var end := Run(env, s, ops); var next := Started(start, end.log).0;
      (MayShip(next, graph, graphId) <==> MayShip(end, graph, graphId))
      <==> !(ShipsByLog(end, graph, graphId) && OwnerReportedSince(end, graph, graphId))
  {
    FromNothingKept(env, s, ops);
    RunOwned(env, s, ops);
    RunAgrees(env, s, ops);
    ShipsAfterRestart(env, Run(env, s, ops), start, graph, graphId);
    DecisionNow(Run(env, s, ops), graph, graphId);
  }
}
