/** What a cold start remembers of each task, read off the entries of the log, whatever log it
    is (state.py: replay; dispatch.py: restore_from). */
module Restored {
  import opened Basics
  import opened Schema
  import opened Events
  import opened Replay
  import opened Control
  import opened Projection
  import opened Restart
  import opened Recovery
  import opened History
  import Tokens

  // ---------- what replay knows ----------

  predicate ReclaimAt(log: seq<Event>, i: int, t: string) {
    0 <= i < |log| && log[i].Reclaimed? && log[i].taskId == t
  }

  ghost predicate ReclaimedIn(log: seq<Event>, t: string) {
    exists i :: ReclaimAt(log, i, t)
  }

  /** Replay holds a task reclaimed exactly when some entry reclaims it. */
  lemma {:induction false} ReclaimedIff(log: seq<Event>, t: string)
    ensures t in Replayed(log).reclaimed <==> ReclaimedIn(log, t)
  {
    if log != [] {
      var n := |log| - 1;
      ReclaimedIff(log[..n], t);
      assert forall i :: ReclaimAt(log[..n], i, t) <==> ReclaimAt(log, i, t) && i < n;
      assert ReclaimAt(log, n, t) ==> ReclaimedIn(log, t);
    }
  }

  /** Its last logged verdict passed, or failed. */
  ghost predicate LastPassed(log: seq<Event>, t: string) {
    exists i :: LastVerdict(log, i, t) && log[i].passed
  }

  ghost predicate LastFailed(log: seq<Event>, t: string) {
    exists i :: LastVerdict(log, i, t) && !log[i].passed
  }

  ghost predicate NeverJudged(log: seq<Event>, t: string) {
    forall i :: !VerdictAt(log, i, t)
  }

  lemma {:induction false} JudgedIsKnown(log: seq<Event>, i: int, t: string)
    requires VerdictAt(log, i, t)
    ensures t in Replayed(log).gateResults
    decreases |log|
  {
    if i < |log| - 1 { JudgedIsKnown(log[..|log| - 1], i, t); }
  }

  lemma OneLastVerdict(log: seq<Event>, i: int, j: int, t: string)
    requires LastVerdict(log, i, t) && LastVerdict(log, j, t)
    ensures i == j
  {
    assert VerdictAt(log, i, t) && VerdictAt(log, j, t);
  }

  /** Replay holds the last verdict of every judged task, and of no other. */
  lemma VerdictsKnown(log: seq<Event>, t: string)
    ensures var r := Replayed(log).gateResults;
      && (LastPassed(log, t) <==> t in r && r[t]) && (LastFailed(log, t) <==> t in r && !r[t])
      && (NeverJudged(log, t) <==> t !in r)
  {
    var r := Replayed(log).gateResults;
    if t in r {
      var i := ResultIsLastVerdict(log, t);
      forall j | LastVerdict(log, j, t) ensures j == i { OneLastVerdict(log, i, j, t); }
      assert VerdictAt(log, i, t);
    } else {
      forall i ensures !VerdictAt(log, i, t) {
        if VerdictAt(log, i, t) { JudgedIsKnown(log, i, t); }
      }
    }
  }

  /** Entry d is the last dispatch entry of the task. */
  ghost predicate LastDispatch(log: seq<Event>, d: int, t: string) {
    DispatchAt(log, d, t) && forall j :: d < j < |log| ==> !DispatchAt(log, j, t)
  }

  /** Replay holds each dispatched task as its last dispatch entry describes it. */
  lemma {:induction false} DispatchKnown(log: seq<Event>, t: string)
    ensures t in Replayed(log).dispatched <==> exists d :: DispatchAt(log, d, t)
    ensures t in Replayed(log).dispatched ==>
      var m := Replayed(log).dispatched[t]; LastDispatch(log, m.seqNo, t) && m == MetaOf(log[m.seqNo], m.seqNo)
  {
    if log != [] {
      var n := |log| - 1;
      DispatchKnown(log[..n], t);
      assert forall i :: DispatchAt(log[..n], i, t) <==> DispatchAt(log, i, t) && i < n;
      if !DispatchAt(log, n, t) && t in Replayed(log[..n]).dispatched {
        var m := Replayed(log[..n]).dispatched[t];
        assert DispatchAt(log, m.seqNo, t);
      }
    }
  }

  function Memos(log: seq<Event>): nat {
    if log == [] then 0 else Memos(log[1..]) + if log[0].Memo? then 1 else 0
  }

  lemma {:induction false} MemosSnoc(log: seq<Event>, ev: Event)
    ensures Memos(log + [ev]) == Memos(log) + if ev.Memo? then 1 else 0
  {
    if log == [] {
      assert log + [ev] == [ev] && [ev][1..] == [];
    } else {
      MemosSnoc(log[1..], ev);
      assert (log + [ev])[1..] == log[1..] + [ev];
    }
  }

  /** Replay counts the decision memos. */
  lemma {:induction false} DecisionsCounted(log: seq<Event>)
    ensures Replayed(log).decisions == Memos(log)
  {
    if log != [] {
      var n := |log| - 1;
      DecisionsCounted(log[..n]);
      MemosSnoc(log[..n], log[n]);
      assert log == log[..n] + [log[n]];
    }
  }

  // ---------- the restored records ----------

  /** The state that the entries of the log give a task. */
  ghost predicate ByLog(log: seq<Event>, t: string, state: TaskState) {
    && (state.Abandoned? <==> ReclaimedIn(log, t))
    && (state.Passed? <==> !ReclaimedIn(log, t) && LastPassed(log, t))
    && (state.Failed? <==> !ReclaimedIn(log, t) && LastFailed(log, t))
    && (state.Issued? <==> !ReclaimedIn(log, t) && NeverJudged(log, t))
  }

  lemma StateByLog(log: seq<Event>, t: string)
    ensures ByLog(log, t, RestoredState(Replayed(log), t))
  {
    ReclaimedIff(log, t);
    VerdictsKnown(log, t);
  }

  /** Everything a restored record holds: the identity that the last dispatch entry logged and
      the state by the log. It has no token, no payload, and no deadline. */
  ghost predicate Rebuilds(log: seq<Event>, t: string, x: Record) {
    exists d :: LastDispatch(log, d, t) && log[d].deliverables.Some? && log[d].deliverables.value != []
      && x.envelope == Envelope(t, log[d].graphId, log[d].nodeId, log[d].team, if log[d].tierMax == "" then "T3" else log[d].tierMax,
                                map[], log[d].deliverables.value, log[d].exitGate, None, d, None)
      && ByLog(log, t, x.state)
      && x == Record(x.envelope, x.state, None, None, None, None, None)
  }

  /** The task has deliverables to restore. */
  ghost predicate Restorables(log: seq<Event>, t: string) {
    exists d :: LastDispatch(log, d, t) && log[d].deliverables != Some([])
  }

  predicate Kept(r: ReplayState, order: seq<string>, t: string) {
    t in order && t in r.dispatched && r.dispatched[t].Listed() != []
  }

  lemma {:induction false} RestoreAny(boot: Control, r: ReplayState, order: seq<string>)
    requires boot.tasks == map[] && forall i :: 0 <= i < |order| ==> order[i] in r.dispatched
    ensures var s := RestoreFrom(boot, r, order);
      && (forall t :: t in s.tasks <==> Kept(r, order, t))
      && (forall t :: t in s.tasks ==> s.tasks[t] == RestoredRecord(r, t))
    decreases |order|
  {
    if order != [] {
      var before, t := order[..|order| - 1], order[|order| - 1];
      RestoreAny(boot, r, before);
      assert order == before + [t];
      forall u ensures Kept(r, order, u) <==> Kept(r, before, u) || (u == t && r.dispatched[t].Listed() != []) {}
    }
  }

  lemma RecordRebuilds(log: seq<Event>, t: string)
    requires var r := Replayed(log); t in r.dispatched && r.dispatched[t].deliverables.Some? && r.dispatched[t].Listed() != []
    ensures Rebuilds(log, t, RestoredRecord(Replayed(log), t))
  {
    DispatchKnown(log, t);
    StateByLog(log, t);
  }

  lemma RestorablesKnown(log: seq<Event>, t: string)
    requires Replayed(log).Legible()
    ensures var r := Replayed(log); Restorables(log, t) <==> t in r.dispatched && r.dispatched[t].Listed() != []
  {
    DispatchKnown(log, t);
    if d :| LastDispatch(log, d, t) { OneLastDispatch(log, d, Replayed(log).dispatched[t].seqNo, t); }
  }

  lemma OneLastDispatch(log: seq<Event>, d: int, e: int, t: string)
    requires LastDispatch(log, d, t) && LastDispatch(log, e, t)
    ensures d == e
  {
    assert DispatchAt(log, d, t) && DispatchAt(log, e, t);
  }

  /** After any successful cold start, from any log, the memory holds exactly the dispatched
      tasks with deliverables, each rebuilt from its last dispatch entry, its reclaims and its
      last verdict. */
  lemma StartRebuilds(start: Start, log: seq<Event>, t: string)
    requires CanStart(start, log)
    ensures var s := Started(start, log).0;
      && (t in s.tasks <==> Restorables(log, t))
      && (t in s.tasks ==> Rebuilds(log, t, s.tasks[t]))
  {
    var _ := StartedState(start, log);
    var s, r := Started(start, log).0, Replayed(log);
    var boot := Boot(start.topology, Tokens.Renew(start.ring, start.now, start.created, start.draw), log);
    RestoreAny(boot, r, r.order);
    assert s.tasks == RestoreFrom(boot, r, r.order).tasks;
    RestorablesKnown(log, t);
    if t in s.tasks { RecordRebuilds(log, t); }
  }

  // ---------- owners ----------

  /** Replay lists tasks in the order of their first dispatch entries. */
  lemma {:induction false} OrderKnown(log: seq<Event>, i: int, j: int)
    requires 0 <= i < j < |Replayed(log).order|
    ensures exists d ::
      DispatchAt(log, d, Replayed(log).order[i]) && forall k :: 0 <= k <= d ==> !DispatchAt(log, k, Replayed(log).order[j])
  {
    var n := |log| - 1;
    var r, r' := Replayed(log[..n]), Replayed(log);
    assert forall k, t :: DispatchAt(log[..n], k, t) <==> DispatchAt(log, k, t) && k < n;
    ReplayedOrdered(log[..n]);
    if j < |r.order| {
      OrderKnown(log[..n], i, j);
      var d :| DispatchAt(log[..n], d, r.order[i]) && forall k :: 0 <= k <= d ==> !DispatchAt(log[..n], k, r.order[j]);
      forall k | 0 <= k <= d ensures !DispatchAt(log, k, r'.order[j]) { assert !DispatchAt(log[..n], k, r.order[j]); }
      assert DispatchAt(log, d, r'.order[i]);
    } else {
      var t := r'.order[i];
      assert t in r.order && t in r.dispatched;
      DispatchKnown(log[..n], t);
      var d :| DispatchAt(log[..n], d, t);
      DispatchKnown(log[..n], r'.order[j]);
      forall k | 0 <= k <= d ensures !DispatchAt(log, k, r'.order[j]) { assert !DispatchAt(log[..n], k, r'.order[j]); }
      assert DispatchAt(log, d, t);
    }
  }

  function Node(r: ReplayState, t: string): (string, string)
    requires t in r.dispatched
  {
    (r.dispatched[t].graphId, r.dispatched[t].nodeId)
  }

  /** The last of the listed, unreclaimed tasks of a node. */
  ghost predicate LastClaim(r: ReplayState, order: seq<string>, t: string, key: (string, string)) {
    exists i :: 0 <= i < |order| && order[i] == t && ClaimAt(r, order, i, key) && forall j :: i < j < |order| ==> !ClaimAt(r, order, j, key)
  }

  predicate ClaimAt(r: ReplayState, order: seq<string>, i: int, key: (string, string)) {
    0 <= i < |order| && Kept(r, order, order[i]) && order[i] !in r.reclaimed && Node(r, order[i]) == key
  }

  predicate Names(s: Control, t: string, key: (string, string)) {
    key in s.byNode && s.byNode[key] == t
  }

  lemma {:induction false} RestoreAnyOwners(boot: Control, r: ReplayState, order: seq<string>)
    requires boot.tasks == map[] && boot.byNode == map[] && Distinct(order)
    requires forall i :: 0 <= i < |order| ==> order[i] in r.dispatched
    ensures forall t, key :: Names(RestoreFrom(boot, r, order), t, key) <==> LastClaim(r, order, t, key)
    decreases |order|
  {
    if order != [] {
      var before, last := order[..|order| - 1], order[|order| - 1];
      assert order == before + [last];
      assert Distinct(before);
      RestoreAnyOwners(boot, r, before);
      RestoreAny(boot, r, before);
      forall t, key ensures Names(RestoreFrom(boot, r, order), t, key) <==> LastClaim(r, order, t, key) {
        NextClaim(RestoreFrom(boot, r, before), r, before, last, t, key);
      }
    }
  }

  lemma NextClaim(s: Control, r: ReplayState, before: seq<string>, last: string, t: string, key: (string, string))
    requires last in r.dispatched && last !in before && last !in s.tasks && Distinct(before + [last])
    requires Names(s, t, key) <==> LastClaim(r, before, t, key)
    ensures Names(RestoreOne(s, r, last), t, key) <==> LastClaim(r, before + [last], t, key)
  {
    var order := before + [last];
    assert forall i :: 0 <= i < |before| ==> order[i] == before[i] && (ClaimAt(r, order, i, key) <==> ClaimAt(r, before, i, key));
    assert order[|before|] == last;
    if ClaimAt(r, order, |before|, key) {
      OnlyLastClaims(r, order, key);
    } else {
      SameClaim(r, before, last, t, key);
    }
  }

  lemma OnlyLastClaims(r: ReplayState, order: seq<string>, key: (string, string))
    requires order != [] && ClaimAt(r, order, |order| - 1, key)
    ensures forall t :: LastClaim(r, order, t, key) <==> t == order[|order| - 1]
  {}

  lemma SameClaim(r: ReplayState, before: seq<string>, last: string, t: string, key: (string, string))
    requires var order := before + [last];
      && !ClaimAt(r, order, |before|, key)
      && forall i :: 0 <= i < |before| ==> order[i] == before[i] && (ClaimAt(r, order, i, key) <==> ClaimAt(r, before, i, key))
    ensures LastClaim(r, before + [last], t, key) <==> LastClaim(r, before, t, key)
  {
    var order := before + [last];
    if LastClaim(r, order, t, key) {
      var i :| 0 <= i < |order| && order[i] == t && ClaimAt(r, order, i, key) && forall j :: i < j < |order| ==> !ClaimAt(r, order, j, key);
      assert ClaimAt(r, before, i, key);
    }
    if LastClaim(r, before, t, key) {
      var i :| 0 <= i < |before| && before[i] == t && ClaimAt(r, before, i, key) && forall j :: i < j < |before| ==> !ClaimAt(r, before, j, key);
      assert ClaimAt(r, order, i, key);
    }
  }

  /** After any successful cold start a node belongs to the last restored, unreclaimed task of
      it, in the order of the replayed dictionary (OrderKnown). */
  lemma StartNames(start: Start, log: seq<Event>, t: string, key: (string, string))
    requires CanStart(start, log)
    ensures Names(Started(start, log).0, t, key) <==> LastClaim(Replayed(log), Replayed(log).order, t, key)
  {
    var _ := StartedState(start, log);
    var s, r := Started(start, log).0, Replayed(log);
    var boot := Boot(start.topology, Tokens.Renew(start.ring, start.now, start.created, start.draw), log);
    RestoreAnyOwners(boot, r, r.order);
    assert s.byNode == RestoreFrom(boot, r, r.order).byNode;
    assert Names(s, t, key) <==> Names(RestoreFrom(boot, r, r.order), t, key);
  }
}
