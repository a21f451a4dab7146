/** Which task owns a node after a restart, whatever was done before it: the latest dispatched
    task of the node that the log does not reclaim. */
module Owners {
  import opened Basics
  import opened Schema
  import opened Events
  import opened Replay
  import opened Control
  import opened Moves
  import opened Projection
  import opened Restart
  import opened Recovery
  import opened Runs
  import Restored
  import Tokens

  function NodeOf(r: ReplayState, t: string): (string, string)
    requires t in r.dispatched
  {
    (r.dispatched[t].graphId, r.dispatched[t].nodeId)
  }

  /** Dispatched for this node, and not reclaimed. */
  predicate Claims(r: ReplayState, t: string, key: (string, string)) {
    t in r.dispatched && t !in r.reclaimed && NodeOf(r, t) == key
  }

  /** The latest of the tasks that claim a node. */
  ghost predicate Latest(r: ReplayState, t: string, key: (string, string)) {
    Claims(r, t, key) && forall u :: Claims(r, u, key) ==> r.dispatched[u].seqNo <= r.dispatched[t].seqNo
  }

  predicate Owns(s: Control, t: string, key: (string, string)) {
    key in s.byNode && s.byNode[key] == t
  }

  // ---------- restoring in the order of the log ----------

  /** The tasks of a list come in the order of their dispatch entries. */
  ghost predicate Increasing(r: ReplayState, order: seq<string>) {
    && (forall i :: 0 <= i < |order| ==> order[i] in r.dispatched)
    && forall i, j :: 0 <= i < j < |order| ==> r.dispatched[order[i]].seqNo < r.dispatched[order[j]].seqNo
  }

  lemma {:induction false} ReplayIncreasing(env: Env, log: seq<Event>)
    requires AllAdmissible(env, log)
    ensures Increasing(Replayed(log), Replayed(log).order)
  {
    if log != [] {
      var n := |log| - 1;
      AdmissiblePrefix(env, log, n);
      ReplayIncreasing(env, log[..n]);
      ReplayedOrdered(log[..n]);
      AdmissibleRestorable(env, log[..n]);
      AbsorbIncreasing(env, Replayed(log[..n]), log[n], n);
    }
  }

  lemma AbsorbIncreasing(env: Env, r: ReplayState, ev: Event, n: nat)
    requires Admissible(env, r, ev) && r.Ordered() && Restorable(r, n) && Increasing(r, r.order)
    ensures Increasing(Absorb(r, ev, n), Absorb(r, ev, n).order)
  {
    var r' := Absorb(r, ev, n);
    if ev.Dispatched? {
      assert r'.order == r.order + [ev.taskId] && ev.taskId !in r.order;
      assert forall i :: 0 <= i < |r.order| ==> r'.order[i] == r.order[i] && r'.dispatched[r.order[i]] == r.dispatched[r.order[i]];
    }
  }

  /** The latest claim among the tasks of a list. */
  ghost predicate LatestIn(r: ReplayState, order: seq<string>, t: string, key: (string, string)) {
    t in order && Claims(r, t, key) && forall u :: u in order && Claims(r, u, key) ==> r.dispatched[u].seqNo <= r.dispatched[t].seqNo
  }

  ghost predicate OwnersAre(s: Control, r: ReplayState, order: seq<string>) {
    forall key, t :: Owns(s, t, key) <==> LatestIn(r, order, t, key)
  }

  lemma IncreasingPrefix(r: ReplayState, order: seq<string>, t: string)
    requires Increasing(r, order + [t])
    ensures Increasing(r, order) && t in r.dispatched
  {
    var all := order + [t];
    assert all[|order|] == t && forall i :: 0 <= i < |order| ==> all[i] == order[i];
  }

  lemma {:induction false} RestoreOwners(boot: Control, r: ReplayState, order: seq<string>, n: int)
    requires boot.tasks == map[] && boot.byNode == map[] && Restorable(r, n) && Increasing(r, order)
    ensures OwnersAre(RestoreFrom(boot, r, order), r, order)
    decreases |order|
  {
    if order == [] {
      NoOwners(boot, r);
    } else {
      var before, t := order[..|order| - 1], order[|order| - 1];
      assert order == before + [t];
      IncreasingPrefix(r, before, t);
      RestoreOwners(boot, r, before, n);
      RestoreRecords(boot, r, before, n);
      NextOwner(RestoreFrom(boot, r, before), r, before, t, n);
    }
  }

  lemma NoOwners(s: Control, r: ReplayState)
    requires s.byNode == map[]
    ensures OwnersAre(s, r, [])
  {}

  lemma NextOwner(s: Control, r: ReplayState, order: seq<string>, t: string, n: int)
    requires Restorable(r, n) && t in r.dispatched && Increasing(r, order + [t])
    requires RecordsRestored(s, r, order) && OwnersAre(s, r, order)
    ensures OwnersAre(RestoreOne(s, r, t), r, order + [t])
  {
    var all := order + [t];
    assert all[|order|] == t;
    forall u | u in order ensures r.dispatched[u].seqNo < r.dispatched[t].seqNo {
      var i :| 0 <= i < |order| && order[i] == u;
      assert all[i] == u;
    }
    RestoredIdentity(r, t, n);
    OwnersGrow(s, RestoreOne(s, r, t), r, order, t);
  }

  lemma OwnersGrow(s: Control, s': Control, r: ReplayState, order: seq<string>, t: string)
    requires OwnersAre(s, r, order) && t in r.dispatched
    requires forall u :: u in order ==> u in r.dispatched && r.dispatched[u].seqNo < r.dispatched[t].seqNo
    requires s'.byNode == if t in r.reclaimed then s.byNode else s.byNode[NodeOf(r, t) := t]
    ensures OwnersAre(s', r, order + [t])
  {
    forall key, u ensures Owns(s', u, key) <==> LatestIn(r, order + [t], u, key) {
      assert Owns(s, u, key) <==> LatestIn(r, order, u, key);
      if t in r.reclaimed || NodeOf(r, t) != key {
        SameClaims(r, order, t, u, key);
      } else {
        assert Claims(r, t, key) && t in order + [t];
      }
    }
  }

  lemma SameClaims(r: ReplayState, order: seq<string>, t: string, u: string, key: (string, string))
    requires !Claims(r, t, key)
    ensures LatestIn(r, order + [t], u, key) <==> LatestIn(r, order, u, key)
  {
    assert forall x :: x in order + [t] && Claims(r, x, key) <==> x in order && Claims(r, x, key);
  }

  /** After any successful cold start a node is owned by the latest dispatched task of that
      node that the log does not reclaim, and by none if there is none. */
  lemma StartOwners(env: Env, start: Start, log: seq<Event>)
    requires AllAdmissible(env, log) && CanStart(start, log)
    ensures forall key, t :: Owns(Started(start, log).0, t, key) <==> Latest(Replayed(log), t, key)
  {
    var _ := StartedState(start, log);
    var s, r := Started(start, log).0, Replayed(log);
    var boot := Boot(start.topology, Tokens.Renew(start.ring, start.now, start.created, start.draw), log);
    AdmissibleRestorable(env, log);
    ReplayIncreasing(env, log);
    RestoreOwners(boot, r, r.order, |log|);
    assert s.byNode == RestoreFrom(boot, r, r.order).byNode;
    forall key, t ensures Owns(s, t, key) <==> Latest(r, t, key) {
      assert Owns(s, t, key) <==> Owns(RestoreFrom(boot, r, r.order), t, key);
      assert LatestIn(r, r.order, t, key) <==> Latest(r, t, key);
    }
  }

  // ---------- owners over runs ----------

  /** No unreclaimed task of an owned node was dispatched after its owner. */
  ghost predicate NewestOwners(s: Control, reclaimed: set<string>) {
    forall u :: u in s.tasks && u !in reclaimed && s.tasks[u].envelope.Key() in s.byNode ==>
      && s.byNode[s.tasks[u].envelope.Key()] in s.tasks
      && s.tasks[u].envelope.parentAuditSeq <= s.tasks[s.byNode[s.tasks[u].envelope.Key()]].envelope.parentAuditSeq
  }

  /** Envelopes are as they were, and no node gets an owner. */
  lemma FewerOwners(s: Control, s': Control, reclaimed: set<string>, reclaimed': set<string>)
    requires NewestOwners(s, reclaimed) && reclaimed <= reclaimed' && s'.tasks.Keys == s.tasks.Keys
    requires forall t :: t in s.tasks ==> s'.tasks[t].envelope == s.tasks[t].envelope
    requires forall k :: k in s'.byNode ==> k in s.byNode && s'.byNode[k] == s.byNode[k]
    ensures NewestOwners(s', reclaimed')
  {}

  lemma OneMoreOwner(s: Control, s': Control, e: Envelope, reclaimed: set<string>)
    requires NewestOwners(s, reclaimed) && e.taskId !in s.tasks && e.Key() !in s.byNode
    requires forall t :: t in s.tasks ==> s.tasks[t].envelope.parentAuditSeq <= e.parentAuditSeq
    requires s'.tasks.Keys == s.tasks.Keys + {e.taskId} && s'.tasks[e.taskId].envelope == e
    requires forall t :: t in s.tasks ==> s'.tasks[t] == s.tasks[t]
    requires s'.byNode == s.byNode[e.Key() := e.taskId]
    ensures NewestOwners(s', reclaimed)
  {}

  lemma ReclaimedGrows(env: Env, s: Control, m: Move, r: ReplayState)
    requires Enabled(env, s, m)
    ensures r.reclaimed <= NextReplay(env, s, m, r).reclaimed
    ensures !m.Abandoned? ==> NextReplay(env, s, m, r).reclaimed == r.reclaimed
  {}

  lemma DispatchedEarlier(env: Env, s: Control, n: int)
    requires Sound(env, s) && n == |s.log|
    ensures forall t :: t in s.tasks ==> s.tasks[t].envelope.parentAuditSeq < n
  {
    AdmissibleRestorable(env, s.log);
    forall t | t in s.tasks ensures s.tasks[t].envelope.parentAuditSeq < n {
      assert Identity(s.tasks[t].envelope) == Replayed(s.log).dispatched[t];
    }
  }

  lemma EnqueuedNewest(env: Env, s: Control, e: Envelope, lead: string, now: int, reclaimed: set<string>)
    requires Fits(env, s, e) && NewestOwners(s, reclaimed)
    requires forall t :: t in s.tasks ==> s.tasks[t].envelope.parentAuditSeq < |s.log|
    ensures NewestOwners(Enqueue(env, s, e, lead, now), reclaimed)
  {
    OneMoreOwner(s, Enqueue(env, s, e, lead, now), e, reclaimed);
  }

  lemma EnvelopesStay(env: Env, s: Control, m: Move)
    requires Enabled(env, s, m) && !m.Enqueued?
    ensures var s' := After(env, s, m);
      && s'.tasks.Keys == s.tasks.Keys && (forall t :: t in s.tasks ==> s'.tasks[t].envelope == s.tasks[t].envelope)
      && forall k :: k in s'.byNode ==> k in s.byNode && s'.byNode[k] == s.byNode[k]
  {}

  ghost predicate Newest(s: Control) {
    NewestOwners(s, Replayed(s.log).reclaimed)
  }

  lemma MoveNewest(env: Env, s: Control, m: Move)
    requires Enabled(env, s, m) && Sound(env, s) && Newest(s)
    ensures Newest(After(env, s, m))
  {
    MoveReplayed(env, s, m);
    ReclaimedGrows(env, s, m, Replayed(s.log));
    if m.Enqueued? {
      DispatchedEarlier(env, s, |s.log|);
      EnqueuedNewest(env, s, m.e, m.lead, m.now, Replayed(s.log).reclaimed);
    } else {
      EnvelopesStay(env, s, m);
      FewerOwners(s, After(env, s, m), Replayed(s.log).reclaimed, Replayed(After(env, s, m).log).reclaimed);
    }
  }

  lemma {:induction false} PathNewest(env: Env, s: Control, ms: seq<Move>, s': Control)
    requires Path(env, s, ms, s') && Sound(env, s) && Newest(s)
    ensures Newest(s')
    decreases |ms|
  {
    if ms != [] {
      MoveSound(env, s, ms[0]);
      MoveNewest(env, s, ms[0]);
      PathNewest(env, After(env, s, ms[0]), ms[1..], s');
    }
  }

  lemma StartNewest(env: Env, start: Start, log: seq<Event>)
    requires AllAdmissible(env, log) && CanStart(start, log)
    ensures Newest(Started(start, log).0)
  {
    var s, r := Started(start, log).0, Replayed(log);
    StartOwners(env, start, log);
    StartReplays(env, start, log);
    StartMemory(env, start, log);
    forall u | u in s.tasks && u !in r.reclaimed && s.tasks[u].envelope.Key() in s.byNode
      ensures s.byNode[s.tasks[u].envelope.Key()] in s.tasks
      ensures s.tasks[u].envelope.parentAuditSeq <= s.tasks[s.byNode[s.tasks[u].envelope.Key()]].envelope.parentAuditSeq
    {
      NewestAt(s, r, u);
    }
  }

  lemma NewestAt(s: Control, r: ReplayState, u: string)
    requires SameTasks(s, r) && NodesNamed(s) && u in s.tasks && u !in r.reclaimed && s.tasks[u].envelope.Key() in s.byNode
    requires forall key, t :: Owns(s, t, key) <==> Latest(r, t, key)
    ensures s.byNode[s.tasks[u].envelope.Key()] in s.tasks
    ensures s.tasks[u].envelope.parentAuditSeq <= s.tasks[s.byNode[s.tasks[u].envelope.Key()]].envelope.parentAuditSeq
  {
    var key := s.tasks[u].envelope.Key();
    var t := s.byNode[key];
    assert Owns(s, t, key) && Identity(s.tasks[u].envelope) == r.dispatched[u] && Identity(s.tasks[t].envelope) == r.dispatched[t];
    assert Claims(r, u, key);
  }

  ghost predicate RunningNewest(s: Control) {
    !s.readOnly ==> Newest(s)
  }

  lemma StepNewest(env: Env, s: Control, op: Op)
    requires Kept(env, s) && Legal(s, op) && RunningNewest(s)
    ensures RunningNewest(Step(env, s, op))
  {
    if op.StartOp? {
      var _ := StartedState(op.start, s.log);
      if Started(op.start, s.log).1.Ok? { StartNewest(env, op.start, s.log); }
    } else if !s.readOnly {
      StepReaches(env, s, op);
      var ms :| Path(env, s, ms, Step(env, s, op));
      PathNewest(env, s, ms, Step(env, s, op));
    }
  }

  lemma {:induction false} RunNewest(env: Env, s: Control, ops: seq<Op>)
    requires Kept(env, s) && LegalRun(env, s, ops) && RunningNewest(s)
    ensures RunningNewest(Run(env, s, ops))
    decreases |ops|
  {
    if ops != [] {
      StepKept(env, s, ops[0]);
      StepNewest(env, s, ops[0]);
      RunNewest(env, Step(env, s, ops[0]), ops[1..]);
    }
  }

  // ---------- what a restart does to the owners ----------

  /** Every owner is unreclaimed, and the node of every unreclaimed task has an owner. */
  ghost predicate OwnersStand(s: Control) {
    && (forall key :: key in s.byNode ==> s.byNode[key] !in Replayed(s.log).reclaimed)
    && (forall t :: t in s.tasks && t !in Replayed(s.log).reclaimed ==> s.tasks[t].envelope.Key() in s.byNode)
  }

  lemma ClaimsInMemory(s: Control, t: string, key: (string, string))
    requires Memory(s)
    ensures Claims(Replayed(s.log), t, key) <==>
      t in s.tasks && t !in Replayed(s.log).reclaimed && s.tasks[t].envelope.Key() == key
  {
    if t in s.tasks { assert Identity(s.tasks[t].envelope) == Replayed(s.log).dispatched[t]; }
  }

  /** While the owners stand, they are the latest claims. */
  lemma StandingIsLatest(s: Control, t: string, key: (string, string))
    requires Memory(s) && Newest(s) && OwnersStand(s)
    ensures Owns(s, t, key) ==> Latest(Replayed(s.log), t, key)
  {
    var r := Replayed(s.log);
    if Owns(s, t, key) {
      ClaimsInMemory(s, t, key);
      forall u | Claims(r, u, key) ensures r.dispatched[u].seqNo <= r.dispatched[t].seqNo {
        ClaimsInMemory(s, u, key);
        assert Identity(s.tasks[u].envelope) == r.dispatched[u] && Identity(s.tasks[t].envelope) == r.dispatched[t];
      }
    }
  }

  lemma {:induction false} SomeLatest(r: ReplayState, key: (string, string), t: string, n: nat) returns (x: string)
    requires Claims(r, t, key) && forall u :: u in r.dispatched ==> r.dispatched[u].seqNo < r.dispatched[t].seqNo + n
    ensures Latest(r, x, key)
    decreases n
  {
    x := t;
    if u :| Claims(r, u, key) && r.dispatched[u].seqNo > r.dispatched[t].seqNo {
      x := SomeLatest(r, key, u, n - 1);
    }
  }

  /** A restart keeps the owner of every node exactly when the owners stand. */
  lemma RestartKeepsOwnersIff(env: Env, s: Control, start: Start)
    requires Sound(env, s) && Newest(s) && CanStart(start, s.log)
    ensures Started(start, s.log).0.byNode == s.byNode <==> OwnersStand(s)
  {
    var s' := Started(start, s.log).0;
    StartOwners(env, start, s.log);
    if OwnersStand(s) {
      StandingKept(s, s');
    }
    if s'.byNode == s.byNode {
      KeptStands(env, s, s');
    }
  }

  lemma StandingKept(s: Control, s': Control)
    requires Memory(s) && Newest(s) && OwnersStand(s)
    requires forall key, t :: Owns(s', t, key) <==> Latest(Replayed(s.log), t, key)
    ensures s'.byNode == s.byNode
  {
    forall key | key in s.byNode ensures key in s'.byNode && s'.byNode[key] == s.byNode[key] {
      StandingIsLatest(s, s.byNode[key], key);
      assert Owns(s', s.byNode[key], key);
    }
    forall key | key in s'.byNode ensures key in s.byNode {
      assert Owns(s', s'.byNode[key], key);
      ClaimsInMemory(s, s'.byNode[key], key);
    }
  }

  lemma KeptStands(env: Env, s: Control, s': Control)
    requires Sound(env, s) && s'.byNode == s.byNode
    requires forall key, t :: Owns(s', t, key) <==> Latest(Replayed(s.log), t, key)
    ensures OwnersStand(s)
  {
    var r := Replayed(s.log);
    AdmissibleRestorable(env, s.log);
    forall key | key in s.byNode ensures s.byNode[key] !in r.reclaimed {
      assert Owns(s', s.byNode[key], key);
    }
    forall t | t in s.tasks && t !in r.reclaimed ensures s.tasks[t].envelope.Key() in s.byNode {
      var key := s.tasks[t].envelope.Key();
      ClaimsInMemory(s, t, key);
      var x := SomeLatest(r, key, t, |s.log|);
      assert Owns(s', x, key);
    }
  }

  /** Restart refinement for every run, careful or not: the same tasks, identities and pauses
      are back, each record is what its entries in the log say, each node belongs to the latest unreclaimed
      task of the node, and the owners are the same exactly when they stood before. */
  lemma AnyRunThenRestart(env: Env, s: Control, ops: seq<Op>, start: Start)
    requires FromNothing(env, s, ops) && !Run(env, s, ops).readOnly && CanStart(start, Run(env, s, ops).log)
    ensures var before := Run(env, s, ops); var after := Started(start, before.log).0;
      && after.tasks.Keys == before.tasks.Keys && after.paused == before.paused
      && (forall t :: t in before.tasks ==> Identity(after.tasks[t].envelope) == Identity(before.tasks[t].envelope))
      && (forall t :: t in before.tasks ==> (after.tasks[t].state.Passed? <==> LoggedPass(before.log, t)))
      && (forall t :: t in before.tasks ==> Restored.Rebuilds(before.log, t, after.tasks[t]))
      && (forall key, t :: Owns(after, t, key) <==> Latest(Replayed(before.log), t, key))
      && (after.byNode == before.byNode <==> OwnersStand(before))
  {
    var before := Run(env, s, ops);
    FromNothingKept(env, s, ops);
    RunNewest(env, s, ops);
    StartOwners(env, start, before.log);
    RestartKeepsOwnersIff(env, before, start);
    SameRecords(env, before, start);
    forall t | t in before.tasks ensures Restored.Rebuilds(before.log, t, Started(start, before.log).0.tasks[t]) {
      Restored.StartRebuilds(start, before.log, t);
    }
  }

  lemma SameRecords(env: Env, s: Control, start: Start)
    requires Sound(env, s) && CanStart(start, s.log)
    ensures var s' := Started(start, s.log).0;
      && s'.tasks.Keys == s.tasks.Keys && s'.paused == s.paused
      && (forall t :: t in s.tasks ==> Identity(s'.tasks[t].envelope) == Identity(s.tasks[t].envelope))
      && (forall t :: t in s.tasks ==> (s'.tasks[t].state.Passed? <==> LoggedPass(s.log, t)))
  {
    StartedRecords(env, start, s.log);
    AdmissibleRestorable(env, s.log);
    forall t | t in s.tasks
      ensures Identity(Started(start, s.log).0.tasks[t].envelope) == Identity(s.tasks[t].envelope)
      ensures Started(start, s.log).0.tasks[t].state.Passed? <==> LoggedPass(s.log, t)
    {
      RestoredIdentity(Replayed(s.log), t, |s.log|);
    }
  }
}
