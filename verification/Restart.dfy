/** A cold start rebuilds the memory that the log describes (invariant I6). */
module Restart {
  import opened Basics
  import opened Tokens
  import opened Events
  import opened Replay
  import opened Control
  import opened Projection
  import Topology
  import Lex

  // ---------- restoring the records ----------

  /** The records after restoring the tasks listed in `order`. */
  ghost predicate RecordsRestored(s: Control, r: ReplayState, order: seq<string>) {
    && (forall t :: t in order ==> t in r.dispatched)
    && (forall t :: t in s.tasks <==> t in order)
    && (forall t :: t in s.tasks ==> s.tasks[t] == RestoredRecord(r, t))
  }

  ghost predicate NodesRestored(s: Control, r: ReplayState) {
    && NodesNamed(s)
    && (forall k :: k in s.byNode ==> s.byNode[k] !in r.reclaimed)
    && (forall t :: t in s.tasks && t !in r.reclaimed ==> s.tasks[t].envelope.Key() in s.byNode)
  }

  lemma {:induction false} RestoreRecords(boot: Control, r: ReplayState, order: seq<string>, n: int)
    requires boot.tasks == map[] && boot.byNode == map[] && Restorable(r, n)
    requires forall i :: 0 <= i < |order| ==> order[i] in r.dispatched
    ensures var s := RestoreFrom(boot, r, order);
      && RecordsRestored(s, r, order) && NodesRestored(s, r) && s == boot.(tasks := s.tasks, byNode := s.byNode)
    decreases |order|
  {
    if order != [] {
      var last := |order| - 1;
      RestoreRecords(boot, r, order[..last], n);
      assert order == order[..last] + [order[last]];
      RestoreOneRecord(RestoreFrom(boot, r, order[..last]), r, order[..last], order[last], n);
    }
  }

  /** Adding one record, and naming it unless it is abandoned. */
  lemma NodesGrow(s: Control, s': Control, r: ReplayState, t: string, x: Record)
    requires NodesRestored(s, r) && t !in s.tasks && s'.tasks == s.tasks[t := x]
    requires s'.byNode == if t in r.reclaimed then s.byNode else s.byNode[x.envelope.Key() := t]
    ensures NodesRestored(s', r)
  {}

  lemma RecordsGrow(s: Control, s': Control, r: ReplayState, order: seq<string>, t: string)
    requires RecordsRestored(s, r, order) && t in r.dispatched && s'.tasks == s.tasks[t := RestoredRecord(r, t)]
    ensures RecordsRestored(s', r, order + [t])
  {}

  lemma RestoreOneRecord(s: Control, r: ReplayState, order: seq<string>, t: string, n: int)
    requires Restorable(r, n) && RecordsRestored(s, r, order) && NodesRestored(s, r) && t in r.dispatched
    ensures var s' := RestoreOne(s, r, t);
      RecordsRestored(s', r, order + [t]) && NodesRestored(s', r) && s' == s.(tasks := s'.tasks, byNode := s'.byNode)
  {
    if t !in s.tasks {
      RestoredIdentity(r, t, n);
      RestoreOneIs(s, r, t, n);
      RecordsGrow(s, RestoreOne(s, r, t), r, order, t);
      NodesGrow(s, RestoreOne(s, r, t), r, t, RestoredRecord(r, t));
    } else {
      assert s.tasks[t := s.tasks[t]] == s.tasks;
      RecordsGrow(s, s, r, order, t);
    }
  }

  lemma RestoreOneIs(s: Control, r: ReplayState, t: string, n: int)
    requires Restorable(r, n) && t in r.dispatched && t !in s.tasks
    ensures var s', x := RestoreOne(s, r, t), RestoredRecord(r, t);
      && s'.tasks == s.tasks[t := x] && s' == s.(tasks := s'.tasks, byNode := s'.byNode)
      && s'.byNode == if t in r.reclaimed then s.byNode else s.byNode[x.envelope.Key() := t]
  {}

  /** Restoring keeps the whole identity that the dispatch entry logged. */
  lemma RestoredIdentity(r: ReplayState, t: string, n: int)
    requires Restorable(r, n) && t in r.dispatched
    ensures RestoredRecord(r, t).envelope.taskId == t && Identity(RestoredRecord(r, t).envelope) == r.dispatched[t]
    ensures RestoredRecord(r, t).state.Passed? <==> t !in r.reclaimed && t in r.gateResults && r.gateResults[t]
    ensures RestoredRecord(r, t).state.Abandoned? <==> t in r.reclaimed
  {
    assert "" !in TIERS by { assert |TIERS[0]| == 2 && |TIERS[1]| == 2; }
  }

  // ---------- pausing again ----------

  function PauseEvents(teams: seq<string>): seq<Event> {
    if teams == [] then [] else [TeamPaused(teams[0], "restored from audit replay")] + PauseEvents(teams[1..])
  }

  /** The loop stops at the first team the topology does not declare. */
  lemma {:induction false} PauseAllEffect(s: Control, teams: seq<string>) returns (n: nat)
    ensures n <= |teams| && forall i :: 0 <= i < n ==> s.topology.Declares(teams[i])
    ensures n < |teams| ==> !s.topology.Declares(teams[n])
    ensures PauseAll(s, teams) == (s.(paused := s.paused + (set t | t in teams[..n]), log := s.log + PauseEvents(teams[..n])),
                                   if n == |teams| then Ok(()) else Err(TopologyError))
    decreases |teams|
  {
    if teams == [] || !s.topology.Declares(teams[0]) {
      n := 0;
      assert s.log + [] == s.log;
      assert s.paused + (set t | t in teams[..0]) == s.paused;
    } else {
      var first := PauseTeam(s, teams[0], "restored from audit replay").0;
      var m := PauseAllEffect(first, teams[1..]);
      n := m + 1;
      FirstPause(teams, m, n, s.paused, s.log);
      assert forall i :: 1 <= i < n ==> teams[i] == teams[1..][i - 1];
    }
  }

  lemma FirstPause(teams: seq<string>, m: nat, n: nat, paused: set<string>, log: seq<Event>)
    requires n == m + 1 <= |teams|
    ensures (paused + {teams[0]}) + (set t | t in teams[1..][..m]) == paused + (set t | t in teams[..n])
    ensures (log + [TeamPaused(teams[0], "restored from audit replay")]) + PauseEvents(teams[1..][..m])
         == log + PauseEvents(teams[..n])
  {
    assert teams[..n] == [teams[0]] + teams[1..][..m];
    assert teams[..n][1..] == teams[1..][..m];
  }

  /** Entries that leave the replayed state alone, wherever they stand. */
  ghost predicate LeavesAlone(r: ReplayState, ev: Event) {
    forall n :: Absorb(r, ev, n) == r
  }

  lemma {:induction false} TailLeavesAlone(log: seq<Event>, tail: seq<Event>)
    requires forall i :: 0 <= i < |tail| ==> LeavesAlone(Replayed(log), tail[i])
    ensures Replayed(log + tail) == Replayed(log)
    decreases |tail|
  {
    if tail == [] {
      assert log + tail == log;
    } else {
      var n := |tail| - 1;
      TailLeavesAlone(log, tail[..n]);
      ReplayedSnoc(log + tail[..n], tail[n]);
      assert log + tail == log + tail[..n] + [tail[n]];
      assert LeavesAlone(Replayed(log), tail[n]);
    }
  }

  lemma {:induction false} PauseEventsAre(teams: seq<string>)
    ensures |PauseEvents(teams)| == |teams|
    ensures forall i :: 0 <= i < |teams| ==> PauseEvents(teams)[i].TeamPaused? && PauseEvents(teams)[i].team == teams[i]
  {
    if teams != [] { PauseEventsAre(teams[1..]); }
  }

  /** Pausing teams that the log already holds paused leaves the replayed state as it is. */
  lemma PauseEventsReplayed(log: seq<Event>, teams: seq<string>)
    requires forall t :: t in teams ==> t in Replayed(log).paused
    ensures Replayed(log + PauseEvents(teams)) == Replayed(log)
  {
    var r := Replayed(log);
    PauseEventsAre(teams);
    forall i | 0 <= i < |teams| ensures LeavesAlone(r, PauseEvents(teams)[i]) {
      assert r.paused + {teams[i]} == r.paused;
    }
    TailLeavesAlone(log, PauseEvents(teams));
  }

  predicate Neutral(ev: Event) {
    ev.TeamPaused? || ev.ColdStart?
  }

  lemma NeutralAdmissible(env: Env, r: ReplayState, ev: Event)
    requires Neutral(ev)
    ensures Admissible(env, r, ev)
  {}

  lemma PausesAreNeutral(teams: seq<string>)
    ensures forall i :: 0 <= i < |PauseEvents(teams)| ==> Neutral(PauseEvents(teams)[i])
  {
    PauseEventsAre(teams);
  }

  lemma NeutralTail(env: Env, log: seq<Event>, tail: seq<Event>)
    requires AllAdmissible(env, log) && forall i :: 0 <= i < |tail| ==> Neutral(tail[i])
    ensures AllAdmissible(env, log + tail)
  {
    var all := log + tail;
    forall i | 0 <= i < |all| ensures Admissible(env, Replayed(all[..i]), all[i]) {
      if i < |log| {
        assert all[..i] == log[..i];
      } else {
        NeutralAdmissible(env, Replayed(all[..i]), all[i]);
      }
    }
  }

  // ---------- the whole cold start ----------

  /** At most one task of each node is still unreclaimed. */
  ghost predicate Sole(r: ReplayState) {
    forall t, u | t in r.dispatched && u in r.dispatched && t !in r.reclaimed && u !in r.reclaimed
      && r.dispatched[t].graphId == r.dispatched[u].graphId && r.dispatched[t].nodeId == r.dispatched[u].nodeId :: t == u
  }

  datatype Start = Start(topology: Topology.Topology, ring: Ring, now: int, created: int, draw: Fresh)

  ghost function Started(start: Start, log: seq<Event>): (Control, Result<()>)
    requires start.ring.keys != []
  {
    ColdStarted(start.topology, start.ring, start.now, start.created, start.draw, log)
  }

  /** The state of a started dispatcher. */
  ghost predicate Reopened(start: Start, log: seq<Event>, s: Control)
    requires start.ring.keys != [] && Replayed(log).Ordered()
  {
    var r := Replayed(log);
    var boot := Boot(start.topology, Renew(start.ring, start.now, start.created, start.draw), log);
    s == RestoreFrom(boot, r, r.order).(readOnly := false, paused := r.paused,
                                        log := log + PauseEvents(Lex.Sorted(r.paused)) + [ColdStart(|log|)])
  }

  /** Pausing again and opening: how far the pauses get, and what they log. */
  lemma FinishedState(s: Control, state: ReplayState, entries: int) returns (n: nat)
    ensures var teams := Lex.Sorted(state.paused);
      && n <= |teams|
      && (n == |teams| <==> forall team :: team in state.paused ==> s.topology.Declares(team))
      && Finished(s, state, entries).0
         == (if n < |teams| then s.(paused := s.paused + (set t | t in teams[..n]), log := s.log + PauseEvents(teams[..n]))
             else s.(readOnly := false, paused := s.paused + state.paused, log := s.log + PauseEvents(teams) + [ColdStart(entries)]))
      && Finished(s, state, entries).1 == if n < |teams| then Err(TopologyError) else Ok(())
  {
    var teams := Lex.Sorted(state.paused);
    n := PauseAllEffect(s, teams);
    assert forall team :: team in state.paused <==> team in teams;
    assert teams[..|teams|] == teams;
    assert (set t | t in teams) == state.paused;
    if n < |teams| { assert teams[n] in teams; }
  }

  /** What a cold start answers, in the order of its steps. */
  lemma StartAnswers(start: Start, log: seq<Event>)
    requires start.ring.keys != []
    ensures var r := Replayed(log);
      Started(start, log).1
      == if !start.topology.Valid() then Err(TopologyError)
         else if !Reconciled(r, start.topology) then Err(DispatchRejected)
         else if !r.Legible() then Err(SchemaError)
         else if exists team :: team in r.paused && !start.topology.Declares(team) then Err(TopologyError)
         else Ok(())
  {
    ReplayedOrdered(log);
    var r, boot := Replayed(log), Boot(start.topology, Renew(start.ring, start.now, start.created, start.draw), log);
    RestoredFrame(boot, r, r.order);
    var n := FinishedState(RestoreFrom(boot, r, r.order), r, |log|);
  }

  /** What a cold start leaves behind: the state after its restore, and its log entries. */
  lemma StartedState(start: Start, log: seq<Event>) returns (n: nat)
    requires start.ring.keys != []
    ensures var (s, res) := Started(start, log); var r := Replayed(log); var teams := Lex.Sorted(r.paused);
      && (res.Err? ==> s.readOnly && n <= |teams| && s.log == log + PauseEvents(teams[..n]))
      && (res.Ok? ==> start.topology.Valid() && Reconciled(r, start.topology) && r.Legible() && r.Ordered() && Reopened(start, log, s))
      && (res.Ok? ==> forall team :: team in r.paused ==> start.topology.Declares(team))
  {
    var r := Replayed(log);
    n := 0;
    assert log + PauseEvents(Lex.Sorted(r.paused)[..0]) == log;
    StartAnswers(start, log);
    if start.topology.Valid() && Reconciled(r, start.topology) && r.Legible() {
      ReplayedOrdered(log);
      var boot := Boot(start.topology, Renew(start.ring, start.now, start.created, start.draw), log);
      RestoredFrame(boot, r, r.order);
      n := FinishedState(RestoreFrom(boot, r, r.order), r, |log|);
      assert {} + r.paused == r.paused;
    }
  }

  lemma {:induction false} RestoredFrame(boot: Control, r: ReplayState, order: seq<string>)
    requires forall i :: 0 <= i < |order| ==> order[i] in r.dispatched
    ensures var s := RestoreFrom(boot, r, order); s == boot.(tasks := s.tasks, byNode := s.byNode)
    decreases |order|
  {
    if order != [] { RestoredFrame(boot, r, order[..|order| - 1]); }
  }

  lemma StartGrows(start: Start, log: seq<Event>)
    requires start.ring.keys != []
    ensures log <= Started(start, log).0.log
  {
    var _ := StartedState(start, log);
  }

  /** Starting adds nothing to what the log says, whether it succeeds or not (state.py:
      the restored pauses are logged again). */
  lemma StartReplays(env: Env, start: Start, log: seq<Event>)
    requires start.ring.keys != [] && AllAdmissible(env, log)
    ensures var s := Started(start, log).0; Replayed(s.log) == Replayed(log) && AllAdmissible(env, s.log)
  {
    var teams := Lex.Sorted(Replayed(log).paused);
    var n := StartedState(start, log);
    if Started(start, log).1.Err? {
      PausesAgain(env, log, teams[..n]);
    } else {
      StartTail(env, log, teams);
    }
  }

  lemma StartTail(env: Env, log: seq<Event>, teams: seq<string>)
    requires AllAdmissible(env, log) && forall t :: t in teams ==> t in Replayed(log).paused
    ensures var log' := log + PauseEvents(teams) + [ColdStart(|log|)];
      Replayed(log') == Replayed(log) && AllAdmissible(env, log')
  {
    PausesAgain(env, log, teams);
    ColdStartIsNeutral(env, log + PauseEvents(teams), |log|);
  }

  lemma ColdStartIsNeutral(env: Env, log: seq<Event>, n: int)
    requires AllAdmissible(env, log)
    ensures Replayed(log + [ColdStart(n)]) == Replayed(log) && AllAdmissible(env, log + [ColdStart(n)])
  {
    ReplayedSnoc(log, ColdStart(n));
    NeutralTail(env, log, [ColdStart(n)]);
  }

  lemma PausesAgain(env: Env, log: seq<Event>, teams: seq<string>)
    requires AllAdmissible(env, log) && forall t :: t in teams ==> t in Replayed(log).paused
    ensures Replayed(log + PauseEvents(teams)) == Replayed(log) && AllAdmissible(env, log + PauseEvents(teams))
  {
    PauseEventsReplayed(log, teams);
    PausesAreNeutral(teams);
    NeutralTail(env, log, PauseEvents(teams));
  }

  lemma StartedRecords(env: Env, start: Start, log: seq<Event>)
    requires start.ring.keys != [] && AllAdmissible(env, log) && Started(start, log).1.Ok?
    ensures var s := Started(start, log).0; var r := Replayed(log);
      && RecordsRestored(s, r, r.order) && NodesRestored(s, r) && s.tasks.Keys == r.dispatched.Keys
      && s.topology == start.topology && s.topology.Valid() && !s.readOnly && s.paused == r.paused && s.consumed == map[]
      && s.ring == Renew(start.ring, start.now, start.created, start.draw)
  {
    var _ := StartedState(start, log);
    var s, r := Started(start, log).0, Replayed(log);
    var boot := Boot(start.topology, Renew(start.ring, start.now, start.created, start.draw), log);
    AdmissibleRestorable(env, log);
    RestoreRecords(boot, r, r.order, |log|);
    RecordsAnyLog(RestoreFrom(boot, r, r.order), s, r, r.order);
  }

  lemma RecordsAnyLog(a: Control, b: Control, r: ReplayState, order: seq<string>)
    requires RecordsRestored(a, r, order) && NodesRestored(a, r) && b.tasks == a.tasks && b.byNode == a.byNode
    requires forall t :: t in order <==> t in r.dispatched
    ensures RecordsRestored(b, r, order) && NodesRestored(b, r) && b.tasks.Keys == r.dispatched.Keys
  {}

  /** After a successful start the memory is the projection of the log. */
  lemma StartMemory(env: Env, start: Start, log: seq<Event>)
    requires start.ring.keys != [] && AllAdmissible(env, log) && Started(start, log).1.Ok?
    ensures var s := Started(start, log).0; Memory(s) && (Sole(Replayed(log)) ==> OneOwner(s))
  {
    var s, r := Started(start, log).0, Replayed(log);
    StartedRecords(env, start, log);
    StartReplays(env, start, log);
    AdmissibleRestorable(env, log);
    RecordsMatchLog(s, r, |log|);
  }

  lemma RecordsMatchLog(s: Control, r: ReplayState, n: int)
    requires Restorable(r, n) && RecordsRestored(s, r, r.order) && NodesRestored(s, r) && s.tasks.Keys == r.dispatched.Keys
    ensures SameTasks(s, r) && PassesLogged(s, r)
    ensures Sole(r) ==> forall t :: t in s.tasks && t !in r.reclaimed ==> s.byNode[s.tasks[t].envelope.Key()] == t
  {
    forall t | t in s.tasks
      ensures s.tasks[t].envelope.taskId == t && Identity(s.tasks[t].envelope) == r.dispatched[t]
      ensures s.tasks[t].state.Passed? ==> t in r.gateResults && r.gateResults[t]
    {
      RestoredIdentity(r, t, n);
    }
  }

  /** A cold start opens exactly when the manifest is valid, every open task names a declared
      team and a known gate, the deliverables of every task parse, and every team the log
      holds paused is still declared. */
  lemma StartsExactlyWhen(start: Start, log: seq<Event>)
    requires start.ring.keys != []
    ensures Started(start, log).1.Ok? <==>
      && start.topology.Valid() && Reconciled(Replayed(log), start.topology) && Replayed(log).Legible()
      && forall team :: team in Replayed(log).paused ==> start.topology.Declares(team)
  {
    StartAnswers(start, log);
  }
}
