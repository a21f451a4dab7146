/** Replaying the audit log (state.py: ReplayState, replay). */
module Replay {
  import opened Basics
  import opened AuditChain
  import opened Audit
  import opened Schema
  import opened Events

  /** What the log says about one dispatched task. */
  datatype Meta = Meta(team: string, nodeId: string, graphId: string, exitGate: string, tierMax: string,
                       deliverables: Option<seq<ArtifactRef>>, seqNo: int)
  {
    function Listed(): seq<ArtifactRef> {
      if deliverables.Some? then deliverables.value else []
    }
  }

  /** `order` is the insertion order of the `dispatched` dictionary. */
  datatype ReplayState = ReplayState(order: seq<string>, dispatched: map<string, Meta>, gateResults: map<string, bool>,
                                     reclaimed: set<string>, paused: set<string>, decisions: nat)
  {
    /** Dispatched, not reclaimed, and without a passing last gate result. */
    function OpenTasks(): set<string> {
      set t | t in dispatched && t !in reclaimed && !(t in gateResults && gateResults[t])
    }

    /** Every list of deliverables parses. */
    predicate Legible() {
      forall t :: t in dispatched ==> dispatched[t].deliverables.Some?
    }

    ghost predicate Ordered() {
      Distinct(order) && forall t :: t in order <==> t in dispatched
    }
  }

  function Empty(): ReplayState {
    ReplayState([], map[], map[], {}, {}, 0)
  }

  function MetaOf(ev: Event, seqNo: int): Meta
    requires ev.Dispatched?
  {
    Meta(ev.team, ev.nodeId, ev.graphId, ev.exitGate, ev.tierMax, ev.deliverables, seqNo)
  }

  /** One entry; a key that is assigned again keeps its place in the order. */
  function Absorb(s: ReplayState, ev: Event, seqNo: int): ReplayState {
    match ev
    case Dispatched(t, _, _, _, _, _, _, _, _, _) =>
      s.(order := if t in s.dispatched then s.order else s.order + [t], dispatched := s.dispatched[t := MetaOf(ev, seqNo)])
    case GateOutcome(t, _, _, passed, _) => s.(gateResults := s.gateResults[t := passed])
    case Reclaimed(t, _, _) => s.(reclaimed := s.reclaimed + {t})
    case TeamPaused(team, _) => s.(paused := s.paused + {team})
    case TeamResumed(team) => s.(paused := s.paused - {team})
    case Memo => s.(decisions := s.decisions + 1)
    case _ => s
  }

  /** The state after a whole log; entry i carries sequence number i. */
  function Replayed(log: seq<Event>): ReplayState {
    if log == [] then Empty() else Absorb(Replayed(log[..|log| - 1]), log[|log| - 1], |log| - 1)
  }

  lemma ReplayedSnoc(log: seq<Event>, ev: Event)
    ensures Replayed(log + [ev]) == Absorb(Replayed(log), ev, |log|)
  {
    assert (log + [ev])[..|log|] == log;
  }

  lemma {:induction false} ReplayedOrdered(log: seq<Event>)
    ensures Replayed(log).Ordered()
  {
    if log != [] { ReplayedOrdered(log[..|log| - 1]); }
  }

  /** `replay`: refuse a broken chain, then fold the entries. */
  method ReplayLog(audit: AuditLog) returns (r: Result<ReplayState>)
    ensures r.Ok? <==> ReadEntries(audit.codec, audit.disk.primary).Ok?
                       && Chained(audit.codec, ReadEntries(audit.codec, audit.disk.primary).value)
    ensures r.Ok? ==> r.value == Replayed(Views(ReadEntries(audit.codec, audit.disk.primary).value))
    ensures r.Ok? || r == Err(AuditChainError)
  {
    var count := audit.VerifyChain();
    if count.Err? {
      return Err(AuditChainError);
    }
    var es := ReadEntries(audit.codec, audit.disk.primary).value;
    var state := FoldEntries(es);
    r := Ok(state);
  }

  /** The loop over the entries, whose sequence numbers are their positions. */
  method FoldEntries(es: seq<Entry>) returns (state: ReplayState)
    requires forall i :: 0 <= i < |es| ==> es[i].seqNo == i
    ensures state == Replayed(Views(es))
  {
    state := Empty();
    var n := 0;
    assert Views(es)[..0] == [];
    while n < |es|
      invariant 0 <= n <= |es|
      invariant state == Replayed(Views(es)[..n])
    {
      ReplayedSnoc(Views(es)[..n], Views(es)[n]);
      assert Views(es)[..n] + [Views(es)[n]] == Views(es)[..n + 1];
      state := Absorb(state, View(es[n].event, es[n].fields), es[n].seqNo);
      n := n + 1;
    }
    assert Views(es)[..n] == Views(es);
  }
}
