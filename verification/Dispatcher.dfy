/** The dispatcher object (dispatch.py: Dispatcher, TaskRecord): its methods change fields
    and task records in place and append to the audit log. View is the whole of its state
    as a value, and every method is verified against the function of module Control that
    says what it does to that value. */
module Dispatchers {
  import opened Basics
  import opened JsonText
  import opened Schema
  import opened SchemaCodec
  import opened Tokens
  import opened Events
  import opened Control
  import opened AuditChain
  import Audit
  import Gates
  import Lex
  import Replay
  import Restart
  import Graph
  import Topology
  import opened Stamps

  class TaskRecord {
    const envelope: Envelope
    var state: TaskState
    var ackDeadline: Option<int>
    var nextUpdateBy: Option<int>
    var gateResult: Option<Gates.GateResult>
    var supersededBy: Option<string>
    var pctComplete: Option<int>

    function View(): Record
      reads this
    {
      Record(envelope, state, ackDeadline, nextUpdateBy, gateResult, supersededBy, pctComplete)
    }

    constructor (envelope: Envelope, state: TaskState, ackDeadline: Option<int>)
      ensures View() == Record(envelope, state, ackDeadline, None, None, None, None)
      ensures this.envelope == envelope
    {
      this.envelope, this.state, this.ackDeadline := envelope, state, ackDeadline;
      nextUpdateBy, gateResult, supersededBy, pctComplete := None, None, None, None;
    }

    method SetState(state: TaskState)
      modifies this
      ensures View() == old(View()).(state := state)
    {
      this.state := state;
    }

    method Report(u: StatusUpdate)
      modifies this
      ensures View() == old(View()).(state := StateOf(u.state), pctComplete := u.pctComplete,
                                     nextUpdateBy := Some(u.nextUpdateBy), ackDeadline := None)
    {
      state := StateOf(u.state);
      pctComplete := u.pctComplete;
      nextUpdateBy := Some(u.nextUpdateBy);
      ackDeadline := None;
    }

    method Judge(result: Gates.GateResult)
      modifies this
      ensures View() == old(View()).(gateResult := Some(result), state := if result.passed then Passed else Failed)
    {
      gateResult := Some(result);
      state := if result.passed then Passed else Failed;
    }

    method Link(next: string)
      modifies this
      ensures View() == old(View()).(supersededBy := Some(next))
    {
      supersededBy := Some(next);
    }
  }

  /** Both files of the audit log. */
  ghost function FilesOf(audit: Audit.AuditLog): Files
    reads audit, audit.disk
  {
    var read := ReadEntries(audit.codec, audit.disk.primary);
    Files(audit.disk.primary, audit.disk.mirror, if read.Ok? then read.value else [])
  }

  /** Write an event and read it back as the last entry. */
  method AppendEvent(audit: Audit.AuditLog, ts: int, ev: Event)
    requires audit.Valid() && Writable(ev)
    modifies audit, audit.disk
    ensures audit.Valid() && Views(audit.Entries()) == old(Views(audit.Entries())) + [ev]
    ensures Wrote(old(FilesOf(audit)), FilesOf(audit), audit.mirrored, ts)
  {
    CoreNotInFields(ev);
    ViewUndoesFields(ev);
    ghost var es, files := audit.Entries(), FilesOf(audit);
    var r := audit.Append(ts, "orchestrator", Name(ev), Fields(ev));
    ViewsSnoc(es, r.value);
    OneLine(files, FilesOf(audit), audit.mirrored, audit.codec.write(r.value), r.value, ts);
  }

  /** What the loop of dispatch_graph will end with, given the envelopes so far. */
  ghost function LoopLeft(env: Env, s: Control, nodes: seq<WorkNode>, graphId: string, readyOnly: bool, satisfied: set<string>,
                          draws: seq<Draw>, out: seq<Envelope>): (Control, Result<seq<Envelope>>)
    requires s.ring.keys != [] && |draws| == |nodes|
  {
    var rest := DispatchNodes(env, s, nodes, graphId, readyOnly, satisfied, draws);
    (rest.0, match rest.1 case Ok(es) => Ok(out + es) case Err(x) => Err(x))
  }

  lemma NothingDone(env: Env, s: Control, nodes: seq<WorkNode>, graphId: string, readyOnly: bool, satisfied: set<string>,
                    draws: seq<Draw>)
    requires s.ring.keys != [] && |draws| == |nodes|
    ensures LoopLeft(env, s, nodes[0..], graphId, readyOnly, satisfied, draws[0..], [])
      == DispatchNodes(env, s, nodes, graphId, readyOnly, satisfied, draws)
  {
    assert nodes[0..] == nodes && draws[0..] == draws;
    var rest := DispatchNodes(env, s, nodes, graphId, readyOnly, satisfied, draws);
    if rest.1.Ok? { assert [] + rest.1.value == rest.1.value; }
  }

  lemma AllDone(env: Env, s: Control, nodes: seq<WorkNode>, graphId: string, readyOnly: bool, satisfied: set<string>,
                draws: seq<Draw>, out: seq<Envelope>)
    requires s.ring.keys != [] && |draws| == |nodes|
    ensures LoopLeft(env, s, nodes[|nodes|..], graphId, readyOnly, satisfied, draws[|nodes|..], out) == (s, Ok(out))
  {
    assert out + [] == out;
  }

  lemma LoopSkips(env: Env, s: Control, nodes: seq<WorkNode>, graphId: string, readyOnly: bool, satisfied: set<string>,
                  draws: seq<Draw>, i: nat, out: seq<Envelope>)
    requires s.ring.keys != [] && |draws| == |nodes| && i < |nodes| && readyOnly && !IsReady(nodes[i], satisfied)
    ensures LoopLeft(env, s, nodes[i..], graphId, readyOnly, satisfied, draws[i..], out)
      == LoopLeft(env, s, nodes[i + 1..], graphId, readyOnly, satisfied, draws[i + 1..], out)
  {
    assert nodes[i..][1..] == nodes[i + 1..] && draws[i..][1..] == draws[i + 1..];
  }

  lemma LoopDispatches(env: Env, s: Control, nodes: seq<WorkNode>, graphId: string, readyOnly: bool, satisfied: set<string>,
                       draws: seq<Draw>, i: nat, out: seq<Envelope>)
    requires s.ring.keys != [] && |draws| == |nodes| && i < |nodes| && !(readyOnly && !IsReady(nodes[i], satisfied))
    ensures var all := LoopLeft(env, s, nodes[i..], graphId, readyOnly, satisfied, draws[i..], out);
      var first := Dispatch(env, s, nodes[i], graphId, map[], None, DEFAULT_TTL, draws[i]);
      && (first.1.Err? ==> all == (first.0, Err(first.1.error)))
      && (first.1.Ok? ==>
            all == LoopLeft(env, first.0, nodes[i + 1..], graphId, readyOnly, satisfied, draws[i + 1..], out + [first.1.value]))
  {
    assert nodes[i..][1..] == nodes[i + 1..] && draws[i..][1..] == draws[i + 1..];
    var first := Dispatch(env, s, nodes[i], graphId, map[], None, DEFAULT_TTL, draws[i]);
    if first.1.Ok? {
      var rest := DispatchNodes(env, first.0, nodes[i + 1..], graphId, readyOnly, satisfied, draws[i + 1..]).1;
      if rest.Ok? { OneMore(out, first.1.value, rest.value); }
    }
  }

  lemma OneMore(out: seq<Envelope>, e: Envelope, rest: seq<Envelope>)
    ensures out + ([e] + rest) == out + [e] + rest
  {}

  lemma DispatchWritable(env: Env, e: Envelope, lead: string)
    requires IsTaskId(e.taskId) && AllValid(e.deliverables)
    ensures Writable(DispatchEvent(env, e, lead)) && e.taskId != ""
  {}

  function WithEntry(s: Control, ev: Event): Control {
    s.(log := s.log + [ev])
  }

  function WithOwner(s: Control, e: Envelope, ackDeadline: Option<int>): Control {
    s.(tasks := s.tasks[e.taskId := Record(e, Issued, ackDeadline, None, None, None, None)], byNode := s.byNode[e.Key() := e.taskId])
  }

  lemma EnqueueIs(env: Env, s: Control, e: Envelope, lead: string, now: int)
    ensures WithOwner(WithEntry(s, DispatchEvent(env, e, lead)), e, Some(now + env.ackSlo)) == Enqueue(env, s, e, lead, now)
  {}

  lemma GraphDispatchIs(env: Env, s: Control, graph: WorkGraph, graphId: string, readyOnly: bool, draws: seq<Draw>, ok: bool)
    requires s.ring.keys != [] && |draws| == |graph.nodes| && (ok <==> graph.Valid())
    ensures DispatchGraph(env, s, graph, graphId, readyOnly, draws)
      == if ok then DispatchNodes(env, s, graph.nodes, graphId, readyOnly, Satisfied(s, graphId), draws) else (s, Err(SchemaError))
  {}

  lemma ReclaimIs(env: Env, s: Control, taskId: string, reason: string, graph: WorkGraph, draw: Draw)
    requires s.ring.keys != []
    ensures ReclaimRefusal(s, taskId).None? ==> taskId in s.tasks
    ensures Reclaim(env, s, taskId, reason, graph, draw)
      == if ReclaimRefusal(s, taskId).Some? then (s, Err(ReclaimRefusal(s, taskId).value))
         else Retaken(env, Abandon(s, taskId, reason), taskId, graph, draw)
  {}

  lemma UnrefusedReclaimIs(env: Env, s: Control, taskId: string, reason: string, graph: WorkGraph, draw: Draw)
    requires s.ring.keys != [] && ReclaimRefusal(s, taskId).None?
    ensures Reclaim(env, s, taskId, reason, graph, draw) == Retaken(env, Abandon(s, taskId, reason), taskId, graph, draw)
  {}

  /** What is left of dispatch once no task is found: the checks, then the placing. */
  function Admitted(env: Env, s: Control, node: WorkNode, graphId: string, payload: map<string, Json>, id: string, ttl: int,
                    draw: Draw): (Control, Result<Envelope>)
    requires s.ring.keys != []
  {
    match Refusal(s, node)
    case Some(x) => (s, Err(x))
    case None => Place(env, s, node, graphId, payload, id, ttl, draw)
  }

  function ChosenId(taskId: Option<string>, draw: Draw): string {
    if taskId.Some? && taskId.value != "" then taskId.value else draw.taskId
  }

  function EnvelopeAt(s: Control, t: string): Result<Envelope> {
    if t in s.tasks then Ok(s.tasks[t].envelope) else Err(Crash)
  }

  lemma DispatchIs(env: Env, s: Control, node: WorkNode, graphId: string, payload: map<string, Json>,
                   taskId: Option<string>, ttl: int, draw: Draw)
    requires s.ring.keys != [] && !s.readOnly && node.Valid()
    ensures var existing := Existing(s, graphId, node.id, taskId);
      Dispatch(env, s, node, graphId, payload, taskId, ttl, draw)
        == if existing.Some? then (s, EnvelopeAt(s, existing.value))
           else Admitted(env, s, node, graphId, payload, ChosenId(taskId, draw), ttl, draw)
  {}

  function Elements(s: seq<string>): set<string> {
    set t | t in s
  }

  lemma ListedGrows(order: seq<string>, t: string)
    requires Distinct(order)
    ensures var order' := if t in Elements(order) then order else order + [t];
      Distinct(order') && Elements(order') == Elements(order) + {t}
  {}

  class Dispatcher {
    const env: Env
    const topology: Topology.Topology
    const keys: KeyRing
    const audit: Audit.AuditLog
    const ledger: ReplayLedger
    var tasks: map<string, TaskRecord>
    var order: seq<string>
    var byNode: map<(string, string), string>
    var paused: set<string>
    var readOnly: bool

    ghost function Records(): set<object>
      reads this`tasks
    {
      set t | t in tasks :: tasks[t]
    }

    ghost function Footprint(): set<object>
      reads this`tasks
    {
      {this, keys, audit, audit.disk, ledger} + Records()
    }

    /** `order` lists the keys of `tasks` as a Python dictionary does. */
    ghost predicate Listed()
      reads this`tasks, this`order
    {
      Distinct(order) && Elements(order) == tasks.Keys
    }

    /** The audit file parses and chains, and each record is filed under its own task id. */
    ghost predicate Valid()
      reads this, keys, audit, audit.disk, ledger, Records()
    {
      && keys.Valid() && keys.hmac == env.hmac && audit.Valid()
      && Listed() && "" !in tasks && forall t :: t in tasks ==> tasks[t].envelope.taskId == t
    }

    ghost function TaskViews(): map<string, Record>
      reads this`tasks, Records()
    {
      map t | t in tasks :: tasks[t].View()
    }

    ghost function View(): Control
      requires Valid()
      reads this, keys, audit, audit.disk, ledger, Records()
    {
      Control(topology, readOnly, TaskViews(), byNode, paused, ledger.consumed, keys.View(), EventLog())
    }

    /** A new dispatcher is read-only and remembers nothing. */
    constructor (env: Env, topology: Topology.Topology, keys: KeyRing, audit: Audit.AuditLog)
      requires keys.Valid() && keys.hmac == env.hmac && audit.Valid()
      ensures Valid() && Records() == {} && fresh(ledger)
      ensures this.env == env && this.keys == keys && this.audit == audit
      ensures View() == Boot(topology, keys.View(), Views(audit.Entries()))
    {
      this.env, this.topology, this.keys, this.audit := env, topology, keys, audit;
      tasks, order, byNode, paused, readOnly := map[], [], map[], {}, true;
      ledger := new ReplayLedger();
    }

    ghost function EventLog(): seq<Event>
      requires audit.Valid()
      reads audit, audit.disk
    {
      Views(audit.Entries())
    }

    /** Append one event to the log. */
    method Log(ts: int, ev: Event)
      requires Valid() && Writable(ev)
      modifies audit, audit.disk
      ensures Valid() && View() == WithEntry(old(View()), ev)
      ensures Wrote(old(FilesOf(audit)), FilesOf(audit), audit.mirrored, ts)
    {
      AppendEvent(audit, ts, ev);
      assert TaskViews() == old(TaskViews());
    }

    method SetPaused(teams: set<string>)
      requires Valid()
      modifies this`paused
      ensures Valid() && View() == old(View()).(paused := teams)
    {
      paused := teams;
      assert TaskViews() == old(TaskViews());
    }

    method Pause(ts: int, team: string, reason: string) returns (r: Result<()>)
      requires Valid()
      modifies Footprint()
      ensures Valid() && Records() == old(Records()) && order == old(order) && (View(), r) == PauseTeam(old(View()), team, reason)
      ensures Wrote(old(FilesOf(audit)), FilesOf(audit), audit.mirrored, ts)
    {
      if !topology.Declares(team) {
        return Err(TopologyError);
      }
      SetPaused(paused + {team});
      Log(ts, TeamPaused(team, reason));
      r := Ok(());
    }

    method Resume(ts: int, team: string) returns (r: Result<()>)
      requires Valid()
      modifies Footprint()
      ensures Valid() && Records() == old(Records()) && order == old(order) && (View(), r) == ResumeTeam(old(View()), team)
      ensures Wrote(old(FilesOf(audit)), FilesOf(audit), audit.mirrored, ts)
    {
      if !topology.Declares(team) {
        return Err(TopologyError);
      }
      SetPaused(paused - {team});
      Log(ts, TeamResumed(team));
      r := Ok(());
    }

    /** Whether the envelope may come in, but for the ledger. */
    method CheckToken(e: Envelope, toAgent: string, now: int) returns (refusal: Option<Error>)
      requires Valid()
      ensures refusal == TokenRefusal(env, View(), e, toAgent, now)
    {
      var team := topology.TeamNamed(e.team);
      if team.None? {
        return Some(TopologyError);
      }
      if e.token.None? || toAgent != team.value.lead || e.taskId != e.token.value.taskId {
        return Some(AuthorityError);
      }
      var verified := keys.VerifyToken(e.token.value, env.digest(EnvelopeScope(e)), e.team, e.tierMax, now);
      refusal := match verified case Err(x) => Some(x) case Ok(_) => None;
    }

    method DeliverTo(ts: int, e: Envelope, toAgent: string, now: int) returns (r: Result<()>)
      requires Valid()
      modifies Footprint()
      ensures Valid() && Records() == old(Records()) && order == old(order) && (View(), r) == Deliver(env, old(View()), e, toAgent, now)
      ensures Wrote(old(FilesOf(audit)), FilesOf(audit), audit.mirrored, ts)
    {
      var refusal := CheckToken(e, toAgent, now);
      if refusal.Some? {
        return Err(refusal.value);
      }
      r := TakeIn(ts, e, toAgent);
    }

    /** Consume the token, and log the acceptance of its first use. */
    method TakeIn(ts: int, e: Envelope, toAgent: string) returns (r: Result<()>)
      requires Valid() && e.token.Some? && e.token.value.taskId == e.taskId
      modifies ledger, audit, audit.disk
      ensures Valid()
      ensures (View(), r) == if e.taskId in old(ledger.consumed) then (old(View()), Err(ReplayError))
                             else (Accept(old(View()), e, toAgent), Ok(()))
      ensures Wrote(old(FilesOf(audit)), FilesOf(audit), audit.mirrored, ts)
    {
      var consumed := ledger.Consume(e.token.value);
      assert TaskViews() == old(TaskViews()) && EventLog() == old(EventLog()) && keys.View() == old(keys.View());
      if consumed.Err? {
        return consumed;
      }
      Log(ts, IngressAccepted(e.taskId, e.team, toAgent));
      r := Ok(());
    }

    // ---------- reports and gates ----------

    /** Each record is another object, since it is filed under its own task id. */
    twostate lemma OnlyRecordMoved(t: string)
      requires old(Valid()) && tasks == old(tasks) && t in tasks
      requires forall u :: u in tasks && u != t ==> tasks[u].View() == old(tasks[u].View())
      ensures TaskViews() == old(TaskViews())[t := tasks[t].View()]
    {}

    method Ingest(ts: int, raw: Json) returns (r: Result<StatusUpdate>)
      requires Valid()
      modifies Footprint()
      ensures Valid() && Records() == old(Records()) && order == old(order) && (View(), r) == IngestStatus(env, old(View()), raw)
      ensures Wrote(old(FilesOf(audit)), FilesOf(audit), audit.mirrored, ts)
    {
      r := ParseStatus(raw);
      if r.Err? {
        return r;
      }
      var u := r.value;
      if u.taskId !in tasks || u.state == "gate_pass" {
        return Err(DispatchRejected);
      }
      TakeReport(ts, u);
    }

    method TakeReport(ts: int, u: StatusUpdate)
      requires Valid() && u.taskId in tasks
      modifies Footprint()
      ensures Valid() && Records() == old(Records()) && order == old(order) && View() == Report(env, old(View()), u)
      ensures Wrote(old(FilesOf(audit)), FilesOf(audit), audit.mirrored, ts)
    {
      var record := tasks[u.taskId];
      record.Report(u);
      OnlyRecordMoved(u.taskId);
      Log(ts, Status(u.taskId, record.envelope.team, u.state, Stamp(env.digest(StatusJson(u)))));
    }

    method AcceptResult(ts: int, taskId: string, raw: Json, now: int) returns (r: Result<Gates.GateResult>)
      requires Valid()
      modifies Footprint()
      ensures Valid() && Records() == old(Records()) && order == old(order) && (View(), r) == AcceptGate(env, old(View()), taskId, raw, now)
      ensures Wrote(old(FilesOf(audit)), FilesOf(audit), audit.mirrored, ts)
    {
      if taskId !in tasks {
        return Err(DispatchRejected);
      }
      var record := tasks[taskId];
      r := ParseResult(raw, now);
      if r.Err? {
        return r;
      }
      var result := r.value;
      if result.gate != record.envelope.exitGate {
        return Err(DispatchRejected);
      }
      TakeVerdict(ts, taskId, result);
    }

    method TakeVerdict(ts: int, taskId: string, result: Gates.GateResult)
      requires Valid() && taskId in tasks
      modifies Footprint()
      ensures Valid() && Records() == old(Records()) && order == old(order) && View() == Judge(env, old(View()), taskId, result)
      ensures Wrote(old(FilesOf(audit)), FilesOf(audit), audit.mirrored, ts)
    {
      var record := tasks[taskId];
      record.Judge(result);
      OnlyRecordMoved(taskId);
      Log(ts, GateOutcome(taskId, record.envelope.team, result.gate, result.passed, EvidenceHash(env, result.evidence)));
    }

    /** The record that owns a node. */
    function LiveRecord(graphId: string, nodeId: string): (r: Option<TaskRecord>)
      requires Valid()
      reads this, keys, audit, audit.disk, ledger, Records()
      ensures match LiveTask(View(), graphId, nodeId)
        case None => r.None?
        case Some(t) => t in tasks && r == Some(tasks[t])
    {
      if (graphId, nodeId) in byNode && byNode[(graphId, nodeId)] in tasks then Some(tasks[byNode[(graphId, nodeId)]]) else None
    }

    /** The two lists of assert_shippable, for some of the nodes. */
    ghost function Absent(graphId: string, nodes: seq<WorkNode>): seq<string>
      requires Valid()
      reads this, keys, audit, audit.disk, ledger, Records()
    {
      if nodes == [] then []
      else
        var last := nodes[|nodes| - 1].id;
        Absent(graphId, nodes[..|nodes| - 1]) + if LiveRecord(graphId, last).None? then [last] else []
    }

    ghost function Unpassed(graphId: string, nodes: seq<WorkNode>): seq<string>
      requires Valid()
      reads this, keys, audit, audit.disk, ledger, Records()
    {
      if nodes == [] then []
      else
        var last := nodes[|nodes| - 1].id;
        Unpassed(graphId, nodes[..|nodes| - 1])
        + if LiveRecord(graphId, last).Some? && !LiveRecord(graphId, last).value.state.Passed? then [last] else []
    }

    lemma {:induction false} ListsAre(graphId: string, nodes: seq<WorkNode>)
      requires Valid()
      ensures Absent(graphId, nodes) == NeverDispatched(View(), graphId, nodes)
      ensures Unpassed(graphId, nodes) == UngatedNodes(View(), graphId, nodes)
    {
      if nodes != [] { ListsAre(graphId, nodes[..|nodes| - 1]); }
    }

    /** The nodes that keep a graph from shipping, in its order: those without a task, and
        those whose task has not passed. */
    method Unshippable(graph: WorkGraph, graphId: string) returns (neverDispatched: seq<string>, ungated: seq<string>)
      requires Valid()
      ensures neverDispatched == NeverDispatched(View(), graphId, graph.nodes)
      ensures ungated == UngatedNodes(View(), graphId, graph.nodes)
    {
      neverDispatched, ungated := [], [];
      assert graph.nodes[..0] == [];
      for i := 0 to |graph.nodes|
        invariant neverDispatched == Absent(graphId, graph.nodes[..i])
        invariant ungated == Unpassed(graphId, graph.nodes[..i])
      {
        assert graph.nodes[..i + 1][..i] == graph.nodes[..i];
        var id := graph.nodes[i].id;
        var record := LiveRecord(graphId, id);
        if record.None? {
          neverDispatched := neverDispatched + [id];
        } else if !record.value.state.Passed? {
          ungated := ungated + [id];
        }
      }
      assert graph.nodes[..|graph.nodes|] == graph.nodes;
      ListsAre(graphId, graph.nodes);
    }

    /** Refuse to ship unless every node of the graph has a live passing gate. */
    method AssertShippable(graph: WorkGraph, graphId: string) returns (r: Result<()>)
      requires Valid()
      ensures r == if MayShip(View(), graph, graphId) then Ok(()) else Err(PolicyBreach)
    {
      var neverDispatched, ungated := Unshippable(graph, graphId);
      NothingInTheWay(View(), graphId, graph.nodes);
      r := if neverDispatched == [] && ungated == [] then Ok(()) else Err(PolicyBreach);
    }

    // ---------- projections ----------

    /** The stuck records among these tasks, in their order. */
    ghost function StuckAmong(ids: seq<string>, now: int): seq<TaskRecord>
      requires forall i :: 0 <= i < |ids| ==> ids[i] in tasks
      reads this`tasks, Records()
    {
      if ids == [] then []
      else
        var last := tasks[ids[|ids| - 1]];
        StuckAmong(ids[..|ids| - 1], now) + if Stuck(last.View(), now) then [last] else []
    }

    lemma StuckTurn(i: nat, now: int)
      requires Valid() && i < |order|
      ensures order[i] in tasks
      ensures StuckAmong(order[..i + 1], now)
        == if Stuck(tasks[order[i]].View(), now) then StuckAmong(order[..i], now) + [tasks[order[i]]] else StuckAmong(order[..i], now)
    {
      assert order[..i + 1][..i] == order[..i] && order[i] in order && order[..i + 1][i] == order[i];
    }

    method StuckTasks(now: int) returns (out: seq<TaskRecord>)
      requires Valid()
      ensures out == StuckAmong(order, now)
    {
      out := [];
      for i := 0 to |order|
        invariant out == StuckAmong(order[..i], now)
      {
        StuckTurn(i, now);
        var record := tasks[order[i]];
        if record.View().Terminal() || record.supersededBy.Some? {
          continue;
        }
        if record.ackDeadline.Some? && now > record.ackDeadline.value {
          out := out + [record];
        } else if record.nextUpdateBy.Some? && now > record.nextUpdateBy.value {
          out := out + [record];
        }
      }
      assert order[..|order|] == order;
    }

    /** The open tasks of a team among some of the tasks. */
    ghost function OpenIn(done: set<string>, team: string): set<string>
      requires done <= tasks.Keys
      reads this`tasks, Records()
    {
      set t | t in done && Open(tasks[t].View()) && tasks[t].envelope.team == team
    }

    lemma OpenInStep(done: set<string>, t: string, team: string)
      requires done <= tasks.Keys && t in tasks && t !in done
      ensures |OpenIn(done + {t}, team)| ==
        |OpenIn(done, team)| + if Open(tasks[t].View()) && tasks[t].envelope.team == team then 1 else 0
    {
      if Open(tasks[t].View()) && tasks[t].envelope.team == team {
        assert OpenIn(done + {t}, team) == OpenIn(done, team) + {t};
      } else {
        assert OpenIn(done + {t}, team) == OpenIn(done, team);
      }
    }

    /** What the counters of queue_depth hold after some of the records. */
    ghost predicate Counted(depth: map<string, nat>, done: set<string>)
      requires done <= tasks.Keys
      reads this`tasks, Records()
    {
      && depth.Keys == topology.Names()
      && (forall team :: team in depth ==> depth[team] == |OpenIn(done, team)|)
      && forall t :: t in done && Open(tasks[t].View()) ==> topology.Declares(tasks[t].envelope.team)
    }

    lemma CountOne(depth: map<string, nat>, done: set<string>, t: string)
      requires done <= tasks.Keys && t in tasks && t !in done && Counted(depth, done)
      ensures !Open(tasks[t].View()) ==> Counted(depth, done + {t})
      ensures var team := tasks[t].envelope.team;
        Open(tasks[t].View()) && team in depth ==> Counted(depth[team := depth[team] + 1], done + {t})
    {
      Topology.DeclaresIff(topology, tasks[t].envelope.team);
      forall team ensures |OpenIn(done + {t}, team)| ==
        |OpenIn(done, team)| + if Open(tasks[t].View()) && tasks[t].envelope.team == team then 1 else 0
      {
        OpenInStep(done, t, team);
      }
    }

    lemma AllCounted(depth: map<string, nat>)
      requires Valid() && Counted(depth, tasks.Keys)
      ensures QueueDepth(View()) == Ok(depth)
    {
      var s := View();
      assert forall t :: t in s.tasks ==> s.tasks[t] == tasks[t].View();
      forall team ensures OpenOf(s, team) == OpenIn(tasks.Keys, team) {
        assert forall t :: t in OpenOf(s, team) <==> t in OpenIn(tasks.Keys, team);
      }
      assert QueueDepth(s).Ok?;
      assert depth == QueueDepth(s).value;
    }

    lemma NoCounter(t: string)
      requires Valid() && t in tasks && Open(tasks[t].View()) && tasks[t].envelope.team !in topology.Names()
      ensures QueueDepth(View()) == Err(Crash)
    {
      Topology.DeclaresIff(topology, tasks[t].envelope.team);
      assert Open(View().tasks[t]);
    }

    method Depths() returns (r: Result<map<string, nat>>)
      requires Valid()
      ensures r == QueueDepth(View())
    {
      var depth: map<string, nat> := map team | team in topology.Names() :: 0;
      for i := 0 to |order|
        invariant CountedUpTo(depth, i)
      {
        FirstsStep(i);
        CountOne(depth, Firsts(i), order[i]);
        var record := tasks[order[i]];
        if !record.View().Terminal() && record.supersededBy.None? {
          var team := record.envelope.team;
          if team !in depth {
            NoCounter(order[i]);
            return Err(Crash);
          }
          depth := depth[team := depth[team] + 1];
        }
      }
      assert Firsts(|order|) == tasks.Keys;
      AllCounted(depth);
      r := Ok(depth);
    }

    ghost predicate CountedUpTo(depth: map<string, nat>, n: nat)
      reads this`tasks, this`order, Records()
    {
      n <= |order| && Firsts(n) <= tasks.Keys && Counted(depth, Firsts(n))
    }

    ghost function Firsts(n: nat): set<string>
      requires n <= |order|
      reads this`order
    {
      set t | t in order[..n]
    }

    lemma FirstsStep(n: nat)
      requires Valid() && n < |order|
      ensures order[n] in tasks && order[n] !in Firsts(n) && Firsts(n + 1) == Firsts(n) + {order[n]}
    {
      assert order[n] in order && order[..n + 1] == order[..n] + [order[n]];
    }

    // ---------- dispatch ----------

    /** The next sequence number is the length of the log. */
    method NextSeq() returns (n: int)
      requires Valid()
      modifies audit`cachedHead, audit`cachedSize
      ensures Valid() && n == |EventLog()| && EventLog() == old(EventLog())
    {
      var next := audit.NextSeq();
      n := next.value;
    }

    /** File a new record under its task id; a key that is assigned again keeps its place. */
    method AddRecord(e: Envelope, state: TaskState, ackDeadline: Option<int>)
      requires Valid() && e.taskId != ""
      modifies this`tasks, this`order
      ensures Valid() && fresh(Records() - old(Records()))
      ensures order == if e.taskId in old(tasks) then old(order) else old(order) + [e.taskId]
      ensures View() == old(View()).(tasks := old(View()).tasks[e.taskId := Record(e, state, ackDeadline, None, None, None, None)])
    {
      FileRecord(e, state, ackDeadline);
    }

    method FileRecord(e: Envelope, state: TaskState, ackDeadline: Option<int>)
      requires Valid() && e.taskId != ""
      modifies this`tasks, this`order
      ensures Valid() && fresh(Records() - old(Records()))
      ensures order == if e.taskId in old(tasks) then old(order) else old(order) + [e.taskId]
      ensures TaskViews() == old(TaskViews())[e.taskId := Record(e, state, ackDeadline, None, None, None, None)]
    {
      var record := new TaskRecord(e, state, ackDeadline);
      ListedGrows(order, e.taskId);
      if e.taskId !in tasks {
        order := order + [e.taskId];
      }
      tasks := tasks[e.taskId := record];
      RecordFiled(e.taskId, record);
    }

    twostate lemma RecordFiled(t: string, new record: TaskRecord)
      requires tasks == old(tasks)[t := record]
      requires forall u :: u in old(tasks) ==> old(tasks)[u].View() == old(tasks[u].View())
      ensures TaskViews() == old(TaskViews())[t := record.View()]
    {}

    /** Log and record a signed envelope. */
    method EnqueueSigned(ts: int, e: Envelope, lead: string, now: int)
      requires Valid() && IsTaskId(e.taskId) && AllValid(e.deliverables)
      modifies this`tasks, this`order, this`byNode, audit, audit.disk
      ensures Valid() && fresh(Records() - old(Records())) && old(order) <= order && View() == Enqueue(env, old(View()), e, lead, now)
      ensures Wrote(old(FilesOf(audit)), FilesOf(audit), audit.mirrored, ts)
    {
      EnqueueIs(env, View(), e, lead, now);
      DispatchWritable(env, e, lead);
      Log(ts, DispatchEvent(env, e, lead));
      OwnNode(e, Some(now + env.ackSlo));
    }

    method OwnNode(e: Envelope, ackDeadline: Option<int>)
      requires Valid() && e.taskId != ""
      modifies this`tasks, this`order, this`byNode
      ensures Valid() && fresh(Records() - old(Records())) && old(order) <= order
      ensures View() == WithOwner(old(View()), e, ackDeadline)
    {
      AddRecord(e, Issued, ackDeadline);
      NameNode(e.Key(), e.taskId);
    }

    method NameNode(key: (string, string), taskId: string)
      requires Valid()
      modifies this`byNode
      ensures Valid() && View() == old(View()).(byNode := old(View()).byNode[key := taskId])
    {
      byNode := byNode[key := taskId];
    }

    /** The envelope that a signed token goes out with. */
    method MakeEnvelope(node: WorkNode, graphId: string, payload: map<string, Json>, taskId: string, token: HandoffToken)
      returns (e: Envelope)
      requires Valid()
      modifies audit`cachedHead, audit`cachedSize
      ensures Valid() && View() == old(View()) && e == NewEnvelope(View(), node, graphId, payload, taskId, token)
    {
      var seqNo := NextSeq();
      e := Envelope(taskId, graphId, node.id, node.team, node.tierMax, payload, node.deliverables, node.exitGate,
                    Some(token), seqNo, node.deadline);
    }

    /** Sign and enqueue a node that nothing refuses. */
    method PlaceNode(ts: int, node: WorkNode, graphId: string, payload: map<string, Json>, taskId: string, ttl: int, draw: Draw)
      returns (r: Result<Envelope>)
      requires Valid() && node.Valid()
      modifies Footprint()
      ensures Valid() && fresh(Records() - old(Records())) && old(order) <= order
      ensures (View(), r) == Place(env, old(View()), node, graphId, payload, taskId, ttl, draw)
      ensures Wrote(old(FilesOf(audit)), FilesOf(audit), audit.mirrored, ts)
    {
      var full := Resolved(payload, node);
      var token := SignNode(node, graphId, full, taskId, ttl, draw);
      if token.Err? {
        return Err(token.error);
      }
      r := PlaceSigned(ts, node, graphId, full, taskId, token.value, draw.now);
    }

    /** Validate the signed envelope and enqueue it. */
    method PlaceSigned(ts: int, node: WorkNode, graphId: string, payload: map<string, Json>, taskId: string, token: HandoffToken, now: int)
      returns (r: Result<Envelope>)
      requires Valid() && AllValid(node.deliverables)
      modifies this`tasks, this`order, this`byNode, audit, audit.disk
      ensures Valid() && fresh(Records() - old(Records())) && old(order) <= order
      ensures var e := NewEnvelope(old(View()), node, graphId, payload, taskId, token);
        (View(), r) == if IsTaskId(taskId) then (Enqueue(env, old(View()), e, LeadOf(old(View()), node.team), now), Ok(e))
                       else (old(View()), Err(SchemaError))
      ensures Wrote(old(FilesOf(audit)), FilesOf(audit), audit.mirrored, ts)
    {
      if !IsTaskId(taskId) {
        return Err(SchemaError);
      }
      var e := SendOut(ts, node, graphId, payload, taskId, token, now);
      r := Ok(e);
    }

    /** Make the envelope and enqueue it for the team's lead. */
    method SendOut(ts: int, node: WorkNode, graphId: string, payload: map<string, Json>, taskId: string, token: HandoffToken, now: int)
      returns (e: Envelope)
      requires Valid() && IsTaskId(taskId) && AllValid(node.deliverables)
      modifies this`tasks, this`order, this`byNode, audit, audit.disk
      ensures Valid() && fresh(Records() - old(Records())) && old(order) <= order
      ensures e == NewEnvelope(old(View()), node, graphId, payload, taskId, token)
      ensures View() == Enqueue(env, old(View()), e, LeadOf(old(View()), node.team), now)
      ensures Wrote(old(FilesOf(audit)), FilesOf(audit), audit.mirrored, ts)
    {
      e := MakeEnvelope(node, graphId, payload, taskId, token);
      var team := topology.TeamNamed(node.team);
      EnqueueSigned(ts, e, if team.Some? then team.value.lead else "", now);
    }

    method SignNode(node: WorkNode, graphId: string, payload: map<string, Json>, taskId: string, ttl: int, draw: Draw)
      returns (r: Result<HandoffToken>)
      requires Valid()
      modifies keys
      ensures Valid()
      ensures var signing := Sign(env.hmac, old(keys.View()), SignRequest(env, node, graphId, payload, taskId, ttl), draw.clock, draw.key);
        View() == old(View()).(ring := signing.0) && r == signing.1
    {
      r := keys.SignToken(SignRequest(env, node, graphId, payload, taskId, ttl), draw.clock, draw.key);
    }

    /** Sign and enqueue one node, unless its task or its node already has an owner. */
    method DispatchNode(ts: int, node: WorkNode, graphId: string, payload: map<string, Json>, taskId: Option<string>,
                        ttl: int, draw: Draw) returns (r: Result<Envelope>)
      requires Valid()
      modifies Footprint()
      ensures Valid() && fresh(Records() - old(Records())) && old(order) <= order
      ensures (View(), r) == Dispatch(env, old(View()), node, graphId, payload, taskId, ttl, draw)
      ensures Wrote(old(FilesOf(audit)), FilesOf(audit), audit.mirrored, ts)
    {
      if readOnly {
        return Err(ReadOnlyMode);
      }
      if !node.Valid() {
        return Err(SchemaError);
      }
      r := DispatchNew(ts, node, graphId, payload, taskId, ttl, draw);
    }

    /** The idempotency lookups, then the checks and the placing. */
    method DispatchNew(ts: int, node: WorkNode, graphId: string, payload: map<string, Json>, taskId: Option<string>,
                       ttl: int, draw: Draw) returns (r: Result<Envelope>)
      requires Valid() && !readOnly && node.Valid()
      modifies Footprint()
      ensures Valid() && fresh(Records() - old(Records())) && old(order) <= order
      ensures (View(), r) == Dispatch(env, old(View()), node, graphId, payload, taskId, ttl, draw)
      ensures Wrote(old(FilesOf(audit)), FilesOf(audit), audit.mirrored, ts)
    {
      DispatchIs(env, View(), node, graphId, payload, taskId, ttl, draw);
      var existing := FindExisting(graphId, node.id, taskId);
      r := DispatchUnless(ts, existing, node, graphId, payload, ChosenId(taskId, draw), ttl, draw);
    }

    method DispatchUnless(ts: int, existing: Option<string>, node: WorkNode, graphId: string, payload: map<string, Json>, id: string,
                          ttl: int, draw: Draw) returns (r: Result<Envelope>)
      requires Valid() && node.Valid()
      modifies Footprint()
      ensures Valid() && fresh(Records() - old(Records())) && old(order) <= order
      ensures (View(), r) == if existing.Some? then (old(View()), EnvelopeAt(old(View()), existing.value))
                             else Admitted(env, old(View()), node, graphId, payload, id, ttl, draw)
      ensures Wrote(old(FilesOf(audit)), FilesOf(audit), audit.mirrored, ts)
    {
      if existing.Some? {
        return if existing.value in tasks then Ok(tasks[existing.value].envelope) else Err(Crash);
      }
      r := PlaceUnlessRefused(ts, node, graphId, payload, id, ttl, draw);
    }

    method PlaceUnlessRefused(ts: int, node: WorkNode, graphId: string, payload: map<string, Json>, taskId: string, ttl: int,
                              draw: Draw) returns (r: Result<Envelope>)
      requires Valid() && node.Valid()
      modifies Footprint()
      ensures Valid() && fresh(Records() - old(Records())) && old(order) <= order
      ensures (View(), r) == Admitted(env, old(View()), node, graphId, payload, taskId, ttl, draw)
      ensures Wrote(old(FilesOf(audit)), FilesOf(audit), audit.mirrored, ts)
    {
      var refusal := CheckNode(node);
      if refusal.Some? {
        return Err(refusal.value);
      }
      r := PlaceNode(ts, node, graphId, payload, taskId, ttl, draw);
    }

    /** The two idempotency lookups. */
    method FindExisting(graphId: string, nodeId: string, taskId: Option<string>) returns (existing: Option<string>)
      requires Valid()
      ensures existing == Existing(View(), graphId, nodeId, taskId)
    {
      if taskId.Some? && taskId.value in tasks {
        return taskId;
      }
      if (graphId, nodeId) in byNode {
        return Some(byNode[(graphId, nodeId)]);
      }
      existing := None;
    }

    method CheckNode(node: WorkNode) returns (refusal: Option<Error>)
      requires Valid()
      ensures refusal == Refusal(View(), node)
    {
      if !topology.Declares(node.team) {
        return Some(TopologyError);
      }
      if !Gates.Known(node.exitGate) {
        return Some(SchemaError);
      }
      if topology.TeamForGate(node.exitGate).None? {
        return Some(TopologyError);
      }
      if node.team in paused {
        return Some(DispatchRejected);
      }
      if node.tierMax !in TIERS {
        return Some(AuthorityError);
      }
      refusal := None;
    }

    /** Dispatch the nodes in order, skipping those that are not ready, until one fails. */
    method DispatchLoop(ts: int, nodes: seq<WorkNode>, graphId: string, readyOnly: bool, satisfied: set<string>, draws: seq<Draw>)
      returns (r: Result<seq<Envelope>>)
      requires Valid() && |draws| == |nodes|
      modifies Footprint()
      ensures Valid() && fresh(Records() - old(Records())) && old(order) <= order
      ensures (View(), r) == DispatchNodes(env, old(View()), nodes, graphId, readyOnly, satisfied, draws)
      ensures Wrote(old(FilesOf(audit)), FilesOf(audit), audit.mirrored, ts)
    {
      var out: seq<Envelope> := [];
      ghost var all := DispatchNodes(env, View(), nodes, graphId, readyOnly, satisfied, draws);
      NothingDone(env, View(), nodes, graphId, readyOnly, satisfied, draws);
      for i := 0 to |nodes|
        invariant Valid() && fresh(Records() - old(Records())) && old(order) <= order
        invariant Wrote(old(FilesOf(audit)), FilesOf(audit), audit.mirrored, ts)
        invariant all == LoopLeft(env, View(), nodes[i..], graphId, readyOnly, satisfied, draws[i..], out)
      {
        r := DispatchTurn(ts, nodes, graphId, readyOnly, satisfied, draws, i, out, all, old(FilesOf(audit)));
        if r.Err? {
          return;
        }
        out := r.value;
      }
      AllDone(env, View(), nodes, graphId, readyOnly, satisfied, draws, out);
      r := Ok(out);
    }

    /** One turn, which adds an envelope unless it skips the node; `all` is what the loop will
        end with, and `first` are the files it began with. */
    method DispatchTurn(ts: int, nodes: seq<WorkNode>, graphId: string, readyOnly: bool, satisfied: set<string>, draws: seq<Draw>,
                        i: nat, out: seq<Envelope>, ghost all: (Control, Result<seq<Envelope>>), ghost first: Files)
      returns (r: Result<seq<Envelope>>)
      requires Valid() && |draws| == |nodes| && i < |nodes| && Wrote(first, FilesOf(audit), audit.mirrored, ts)
      requires all == LoopLeft(env, View(), nodes[i..], graphId, readyOnly, satisfied, draws[i..], out)
      modifies Footprint()
      ensures Valid() && fresh(Records() - old(Records())) && old(order) <= order
      ensures r.Ok? ==> all == LoopLeft(env, View(), nodes[i + 1..], graphId, readyOnly, satisfied, draws[i + 1..], r.value)
      ensures r.Err? ==> all == (View(), r)
      ensures Wrote(first, FilesOf(audit), audit.mirrored, ts)
    {
      if readyOnly && !IsReady(nodes[i], satisfied) {
        LoopSkips(env, View(), nodes, graphId, readyOnly, satisfied, draws, i, out);
        return Ok(out);
      }
      LoopDispatches(env, View(), nodes, graphId, readyOnly, satisfied, draws, i, out);
      ghost var before := FilesOf(audit);
      var answer := DispatchNode(ts, nodes[i], graphId, map[], None, DEFAULT_TTL, draws[i]);
      WroteBoth(first, before, FilesOf(audit), audit.mirrored, ts);
      r := if answer.Ok? then Ok(out + [answer.value]) else Err(answer.error);
    }

    method SatisfiedNodes(graphId: string) returns (satisfied: set<string>)
      requires Valid()
      ensures satisfied == Satisfied(View(), graphId)
    {
      satisfied := set t | t in tasks && tasks[t].state.Passed? && tasks[t].envelope.graphId == graphId :: tasks[t].envelope.nodeId;
      SatisfiedHere(graphId);
    }

    lemma SatisfiedHere(graphId: string)
      requires Valid()
      ensures Satisfied(View(), graphId)
        == set t | t in tasks && tasks[t].state.Passed? && tasks[t].envelope.graphId == graphId :: tasks[t].envelope.nodeId
    {
      var s := View();
      assert forall t :: t in s.tasks ==> s.tasks[t] == tasks[t].View();
    }

    method DispatchReady(ts: int, graph: WorkGraph, graphId: string, readyOnly: bool, draws: seq<Draw>)
      returns (r: Result<seq<Envelope>>)
      requires Valid() && |draws| == |graph.nodes|
      modifies Footprint()
      ensures Valid() && fresh(Records() - old(Records())) && old(order) <= order
      ensures (View(), r) == DispatchGraph(env, old(View()), graph, graphId, readyOnly, draws)
      ensures Wrote(old(FilesOf(audit)), FilesOf(audit), audit.mirrored, ts)
    {
      var valid := Graph.Validate(graph);
      GraphDispatchIs(env, View(), graph, graphId, readyOnly, draws, valid.Ok?);
      r := DispatchIf(ts, valid.Ok?, graph.nodes, graphId, readyOnly, draws);
    }

    method DispatchIf(ts: int, ok: bool, nodes: seq<WorkNode>, graphId: string, readyOnly: bool, draws: seq<Draw>)
      returns (r: Result<seq<Envelope>>)
      requires Valid() && |draws| == |nodes|
      modifies Footprint()
      ensures Valid() && fresh(Records() - old(Records())) && old(order) <= order
      ensures (View(), r) == if ok then DispatchNodes(env, old(View()), nodes, graphId, readyOnly, Satisfied(old(View()), graphId), draws)
                             else (old(View()), Err(SchemaError))
      ensures Wrote(old(FilesOf(audit)), FilesOf(audit), audit.mirrored, ts)
    {
      if !ok {
        return Err(SchemaError);
      }
      r := DispatchValid(ts, nodes, graphId, readyOnly, draws);
    }

    method DispatchValid(ts: int, nodes: seq<WorkNode>, graphId: string, readyOnly: bool, draws: seq<Draw>)
      returns (r: Result<seq<Envelope>>)
      requires Valid() && |draws| == |nodes|
      modifies Footprint()
      ensures Valid() && fresh(Records() - old(Records())) && old(order) <= order
      ensures (View(), r) == DispatchNodes(env, old(View()), nodes, graphId, readyOnly, Satisfied(old(View()), graphId), draws)
      ensures Wrote(old(FilesOf(audit)), FilesOf(audit), audit.mirrored, ts)
    {
      ghost var s := View();
      var satisfied := SatisfiedNodes(graphId);
      r := DispatchLoop(ts, nodes, graphId, readyOnly, satisfied, draws);
      assert satisfied == Satisfied(s, graphId);
    }

    // ---------- reclaim ----------

    method CheckReclaim(taskId: string) returns (refusal: Option<Error>)
      requires Valid()
      ensures refusal == ReclaimRefusal(View(), taskId)
    {
      if readOnly {
        return Some(ReadOnlyMode);
      }
      if taskId !in tasks || tasks[taskId].state.Passed? || tasks[taskId].supersededBy.Some? {
        return Some(DispatchRejected);
      }
      refusal := None;
    }

    /** Mark the record abandoned and log the reclaim. */
    method AbandonTask(ts: int, taskId: string, reason: string)
      requires Valid() && taskId in tasks
      modifies Records(), audit, audit.disk
      ensures Valid() && View() == Abandon(old(View()), taskId, reason)
      ensures Wrote(old(FilesOf(audit)), FilesOf(audit), audit.mirrored, ts)
    {
      var record := tasks[taskId];
      record.SetState(TaskState.Abandoned);
      OnlyRecordMoved(taskId);
      Log(ts, Reclaimed(taskId, record.envelope.team, reason));
    }

    /** Point the reclaimed record at its replacement. */
    method LinkTask(taskId: string, next: string)
      requires Valid() && taskId in tasks
      modifies tasks[taskId]
      ensures Valid() && View() == Supersede(old(View()), taskId, next)
    {
      tasks[taskId].Link(next);
      OnlyRecordMoved(taskId);
    }

    method FreeNode(key: (string, string))
      requires Valid()
      modifies this`byNode
      ensures Valid() && View() == old(View()).(byNode := old(View()).byNode - {key})
    {
      byNode := byNode - {key};
    }

    method Redispatch(ts: int, key: (string, string), node: WorkNode, draw: Draw) returns (r: Result<Envelope>)
      requires Valid()
      modifies Footprint()
      ensures Valid() && fresh(Records() - old(Records())) && old(order) <= order
      ensures (View(), r) == Dispatch(env, old(View()).(byNode := old(View()).byNode - {key}), node, key.0, map[], None, DEFAULT_TTL, draw)
      ensures Wrote(old(FilesOf(audit)), FilesOf(audit), audit.mirrored, ts)
    {
      FreeNode(key);
      r := DispatchNode(ts, node, key.0, map[], None, DEFAULT_TTL, draw);
    }

    /** Free the node, dispatch it again, and link the old record to the new task. */
    method Reassign(ts: int, taskId: string, node: WorkNode, draw: Draw) returns (r: Result<Envelope>)
      requires Valid() && taskId in tasks
      modifies Footprint()
      ensures Valid() && fresh(Records() - old(Records())) && old(order) <= order
      ensures (View(), r) == Reassigned(env, old(View()), taskId, node, draw)
      ensures Wrote(old(FilesOf(audit)), FilesOf(audit), audit.mirrored, ts)
    {
      r := Redispatch(ts, tasks[taskId].envelope.Key(), node, draw);
      assert taskId in View().tasks;
      if r.Ok? {
        LinkTask(taskId, r.value.taskId);
      }
    }

    /** Reclaim a task and reassign its node under a fresh token. The task id drawn for the
        replacement is new. */
    method ReclaimTask(ts: int, taskId: string, reason: string, graph: WorkGraph, draw: Draw) returns (r: Result<Envelope>)
      requires Valid() && draw.taskId !in tasks
      modifies Footprint()
      ensures Valid() && fresh(Records() - old(Records())) && old(order) <= order
      ensures (View(), r) == Reclaim(env, old(View()), taskId, reason, graph, draw)
      ensures Wrote(old(FilesOf(audit)), FilesOf(audit), audit.mirrored, ts)
    {
      var refusal := CheckReclaim(taskId);
      ReclaimIs(env, View(), taskId, reason, graph, draw);
      r := ReclaimUnless(ts, refusal, taskId, reason, graph, draw);
    }

    method ReclaimUnless(ts: int, refusal: Option<Error>, taskId: string, reason: string, graph: WorkGraph, draw: Draw)
      returns (r: Result<Envelope>)
      requires Valid() && (refusal.None? ==> taskId in tasks)
      modifies Footprint()
      ensures Valid() && fresh(Records() - old(Records())) && old(order) <= order
      ensures (View(), r) == if refusal.Some? then (old(View()), Err(refusal.value))
                             else Retaken(env, Abandon(old(View()), taskId, reason), taskId, graph, draw)
      ensures Wrote(old(FilesOf(audit)), FilesOf(audit), audit.mirrored, ts)
    {
      if refusal.Some? {
        return Err(refusal.value);
      }
      r := AbandonAndRetake(ts, taskId, reason, graph, draw);
    }

    method AbandonAndRetake(ts: int, taskId: string, reason: string, graph: WorkGraph, draw: Draw) returns (r: Result<Envelope>)
      requires Valid() && taskId in tasks
      modifies Footprint()
      ensures Valid() && fresh(Records() - old(Records())) && old(order) <= order
      ensures (View(), r) == Retaken(env, Abandon(old(View()), taskId, reason), taskId, graph, draw)
      ensures Wrote(old(FilesOf(audit)), FilesOf(audit), audit.mirrored, ts)
    {
      ghost var s := View();
      AbandonTask(ts, taskId, reason);
      assert View() == Abandon(s, taskId, reason) && taskId in View().tasks;
      ghost var between := FilesOf(audit);
      r := Retake(ts, taskId, graph, draw);
      WroteBoth(old(FilesOf(audit)), between, FilesOf(audit), audit.mirrored, ts);
    }

    method Retake(ts: int, taskId: string, graph: WorkGraph, draw: Draw) returns (r: Result<Envelope>)
      requires Valid() && taskId in tasks
      modifies Footprint()
      ensures Valid() && fresh(Records() - old(Records())) && old(order) <= order
      ensures (View(), r) == Retaken(env, old(View()), taskId, graph, draw)
      ensures Wrote(old(FilesOf(audit)), FilesOf(audit), audit.mirrored, ts)
    {
      var key := tasks[taskId].envelope.Key();
      var node := graph.Node(key.1);
      if node.Err? {
        return Err(node.error);
      }
      if key !in byNode {
        return Err(Crash);
      }
      r := Reassign(ts, taskId, node.value, draw);
    }

    // ---------- restore ----------

    /** Rebuild one record from what the log says about its task. */
    method RestoreTask(state: Replay.ReplayState, taskId: string) returns (r: Result<()>)
      requires Valid() && taskId in state.dispatched && taskId != ""
      modifies this`tasks, this`order, this`byNode
      ensures Valid() && fresh(Records() - old(Records())) && old(order) <= order
      ensures r == if taskId !in old(tasks) && state.dispatched[taskId].deliverables.None? then Err(SchemaError) else Ok(())
      ensures r.Ok? ==> View() == RestoreOne(old(View()), state, taskId)
      ensures r.Err? ==> View() == old(View())
    {
      if taskId in tasks {
        return Ok(());
      }
      if state.dispatched[taskId].deliverables.None? {
        return Err(SchemaError);
      }
      if state.dispatched[taskId].Listed() == [] {
        return Ok(());
      }
      RestoreRecord(state, taskId);
      r := Ok(());
    }

    method RestoreRecord(state: Replay.ReplayState, taskId: string)
      requires Valid() && taskId in state.dispatched && taskId != ""
      requires taskId !in tasks && state.dispatched[taskId].Listed() != []
      modifies this`tasks, this`order, this`byNode
      ensures Valid() && fresh(Records() - old(Records())) && old(order) <= order && View() == RestoreOne(old(View()), state, taskId)
    {
      var e := RestoredRecord(state, taskId).envelope;
      var was := RestoredState(state, taskId);
      AddRecord(e, was, None);
      if !was.Abandoned? {
        NameNode(e.Key(), taskId);
      }
    }

    /** The loop over the replayed tasks raises at the first new one whose deliverables do not
        parse, and leaves the records restored so far. */
    method Restore(state: Replay.ReplayState) returns (r: Result<()>)
      requires Valid() && state.Ordered() && "" !in state.dispatched
      modifies this`tasks, this`order, this`byNode
      ensures Valid() && fresh(Records() - old(Records()))
      ensures r == if Restores(old(View()), state) then Ok(()) else Err(SchemaError)
      ensures r.Ok? ==> View() == RestoreFrom(old(View()), state, state.order)
      ensures r.Err? ==> exists n | 0 <= n < |state.order| :: RestoredSoFar(old(View()), state, n, View())
    {
      ghost var s := View();
      RestoreBegins(s, state);
      for i := 0 to |state.order|
        invariant Valid() && fresh(Records() - old(Records())) && RestoredSoFar(s, state, i, View())
      {
        r := RestoreNext(state, i, s);
        if r.Err? {
          return;
        }
      }
      RestoreEnds(s, state, View());
      r := Ok(());
    }

    /** One turn of the loop, from the state s it began in. */
    method RestoreNext(state: Replay.ReplayState, i: nat, ghost s: Control) returns (r: Result<()>)
      requires Valid() && i < |state.order| && RestoredSoFar(s, state, i, View()) && "" !in state.dispatched
      modifies this`tasks, this`order, this`byNode
      ensures Valid() && fresh(Records() - old(Records()))
      ensures r.Ok? ==> r == Ok(()) && RestoredSoFar(s, state, i + 1, View())
      ensures r.Err? ==> r == Err(SchemaError) && !Restores(s, state) && RestoredSoFar(s, state, i, View())
    {
      RestoreTurn(s, state, i, View());
      r := RestoreTask(state, state.order[i]);
    }

    /** The loop that pauses the teams again stops at the first undeclared one. */
    method PauseEach(ts: int, teams: seq<string>) returns (r: Result<()>)
      requires Valid()
      modifies Footprint()
      ensures Valid() && Records() == old(Records()) && order == old(order) && (View(), r) == PauseAll(old(View()), teams)
      ensures Wrote(old(FilesOf(audit)), FilesOf(audit), audit.mirrored, ts)
    {
      ghost var s := View();
      ghost var all := PauseAll(s, teams);
      assert teams[0..] == teams;
      for i := 0 to |teams|
        invariant Valid() && Records() == old(Records()) && order == old(order) && View() == s
        invariant all == PauseAll(s, teams[i..])
        invariant Wrote(old(FilesOf(audit)), FilesOf(audit), audit.mirrored, ts)
      {
        ghost var before := FilesOf(audit);
        assert teams[i..][0] == teams[i] && teams[i..][1..] == teams[i + 1..];
        var paused := Pause(ts, teams[i], "restored from audit replay");
        WroteBoth(old(FilesOf(audit)), before, FilesOf(audit), audit.mirrored, ts);
        if paused.Err? {
          return paused;
        }
        s := View();
      }
      r := Ok(());
    }

    method OpenForDispatch(ts: int, entriesReplayed: int)
      requires Valid()
      modifies Footprint()
      ensures Valid() && View() == old(View()).(readOnly := false, log := old(View()).log + [ColdStart(entriesReplayed)])
      ensures Wrote(old(FilesOf(audit)), FilesOf(audit), audit.mirrored, ts)
    {
      readOnly := false;
      assert View() == old(View()).(readOnly := false);
      Log(ts, ColdStart(entriesReplayed));
    }
  }

  // ---------- cold start ----------

  /** The step at which a cold start fails; the last two are exceptions that leave it. */
  datatype Failure = ManifestRefused | ChainBroken | NoMirror | MirrorDiverged | NotReconciled | RestoreRaised | PauseRaised

  lemma {:induction false} NoUnnamedTask(log: seq<Event>)
    requires forall i :: 0 <= i < |log| && log[i].Dispatched? ==> log[i].taskId != ""
    ensures "" !in Replay.Replayed(log).dispatched
  {
    if log != [] { NoUnnamedTask(log[..|log| - 1]); }
  }

  lemma ViewsNamed(es: seq<Entry>)
    ensures "" !in Replay.Replayed(Views(es)).dispatched
  {
    assert forall i :: 0 <= i < |es| && Views(es)[i].Dispatched? ==> Views(es)[i].taskId != "";
    NoUnnamedTask(Views(es));
  }

  // ---------- the steps before the dispatcher ----------

  /** The audit file parses and chains. */
  ghost predicate Intact(audit: Audit.AuditLog)
    reads audit, audit.disk
  {
    ReadEntries(audit.codec, audit.disk.primary).Ok? && AuditChain.Chained(audit.codec, audit.Entries())
  }

  /** The manifest, the chain and the mirror, in this order. */
  ghost function FirstFailure(topology: Topology.Topology, audit: Audit.AuditLog): Option<Failure>
    reads audit, audit.disk
  {
    if !topology.Valid() then Some(ManifestRefused)
    else if !Intact(audit) then Some(ChainBroken)
    else if !audit.mirrored then Some(NoMirror)
    else if audit.disk.mirror != audit.disk.primary then Some(MirrorDiverged)
    else None
  }

  method CheckSinks(topology: Topology.Topology, audit: Audit.AuditLog)
    returns (failure: Option<Failure>, state: Replay.ReplayState)
    requires audit.Honest()
    ensures failure == FirstFailure(topology, audit)
    ensures failure.None? ==> audit.Valid() && state == Replay.Replayed(Views(audit.Entries()))
  {
    state := Replay.Empty();
    var manifest := Topology.Validate(topology);
    if manifest.Err? {
      return Some(ManifestRefused), state;
    }
    var replayed := Replay.ReplayLog(audit);
    if replayed.Err? {
      return Some(ChainBroken), state;
    }
    if !audit.mirrored {
      return Some(NoMirror), state;
    }
    var mirror := audit.CheckMirror();
    if mirror.Err? {
      return Some(MirrorDiverged), state;
    }
    failure, state := None, replayed.value;
  }

  // ---------- the dispatcher ----------

  method Finish(d: Dispatcher, state: Replay.ReplayState, entries: int, ts: int) returns (r: Result<()>)
    requires d.Valid()
    modifies d.Footprint()
    ensures d.Valid() && (d.View(), r) == Finished(old(d.View()), state, entries)
    ensures Wrote(old(FilesOf(d.audit)), FilesOf(d.audit), d.audit.mirrored, ts)
  {
    r := d.PauseEach(ts, Lex.Sorted(state.paused));
    if r.Ok? {
      ghost var s, before := d.View(), FilesOf(d.audit);
      d.OpenForDispatch(ts, entries);
      WroteBoth(old(FilesOf(d.audit)), before, FilesOf(d.audit), d.audit.mirrored, ts);
      assert d.View() == s.(readOnly := false, log := s.log + [ColdStart(entries)]);
      r := Ok(());
    }
  }

  /** When restoring raises, the half-restored dispatcher is lost and the log is as it was. */
  method Rebuild(d: Dispatcher, state: Replay.ReplayState, entries: int, ts: int) returns (r: Result<()>)
    requires d.Valid() && d.tasks == map[] && state.Ordered() && "" !in state.dispatched
    modifies d.Footprint()
    ensures d.Valid() && r == Rebuilt(old(d.View()), state, entries).1
    ensures r.Ok? ==> d.View() == Rebuilt(old(d.View()), state, entries).0
    ensures d.EventLog() == Rebuilt(old(d.View()), state, entries).0.log
    ensures Wrote(old(FilesOf(d.audit)), FilesOf(d.audit), d.audit.mirrored, ts)
  {
    if !Reconciled(state, d.topology) {
      return Err(DispatchRejected);
    }
    r := d.Restore(state);
    if r.Ok? {
      r := Finish(d, state, entries, ts);
    }
  }

  /** Where a cold start over good files fails, read off the log. */
  ghost function StartFailure(topology: Topology.Topology, log: seq<Event>): Option<Failure> {
    var state := Replay.Replayed(log);
    if !Reconciled(state, topology) then Some(NotReconciled)
    else if !state.Legible() then Some(RestoreRaised)
    else if exists team :: team in state.paused && !topology.Declares(team) then Some(PauseRaised)
    else None
  }

  /** What rebuilding answers for each of these failures. */
  function FailureOf(r: Result<()>): Option<Failure> {
    match r
    case Ok(_) => None
    case Err(DispatchRejected) => Some(NotReconciled)
    case Err(SchemaError) => Some(RestoreRaised)
    case Err(_) => Some(PauseRaised)
  }

  lemma StartFailureIs(topology: Topology.Topology, ring: Ring, now: int, created: int, draw: Fresh, log: seq<Event>)
    requires ring.keys != [] && topology.Valid()
    ensures FailureOf(ColdStarted(topology, ring, now, created, draw, log).1) == StartFailure(topology, log)
  {
    Restart.StartAnswers(Restart.Start(topology, ring, now, created, draw), log);
  }

  /** The events in the primary file. */
  ghost function Written(audit: Audit.AuditLog): seq<Event>
    reads audit, audit.disk
  {
    if Intact(audit) then Views(audit.Entries()) else []
  }

  /** The state that the steps over accepted files leave. */
  ghost function Left(topology: Topology.Topology, keys: KeyRing, audit: Audit.AuditLog, now: int, created: int, draw: Fresh): Control
    requires keys.Valid()
    reads keys, audit, audit.disk
  {
    ColdStarted(topology, keys.View(), now, created, draw, Written(audit)).0
  }

  /** The steps of a cold start over accepted files. */
  method BringUp(env: Env, topology: Topology.Topology, keys: KeyRing, audit: Audit.AuditLog, state: Replay.ReplayState,
                 ts: int, now: int, created: int, draw: Fresh) returns (r: Result<()>, d: Dispatcher)
    requires keys.Valid() && keys.hmac == env.hmac && audit.Valid() && topology.Valid()
    requires state == Replay.Replayed(Views(audit.Entries()))
    modifies keys, audit, audit.disk
    ensures d.Valid() && d.audit == audit
    ensures var (s, result) := ColdStarted(topology, old(keys.View()), now, created, draw, old(Views(audit.Entries())));
      r == result && d.EventLog() == s.log && (r.Ok? ==> d.View() == s)
    ensures Wrote(old(FilesOf(audit)), FilesOf(audit), audit.mirrored, ts)
  {
    StartedIs(topology, keys.View(), now, created, draw, Views(audit.Entries()));
    var _ := keys.Current(now, created, draw);
    r, d := BringUpWith(env, topology, keys, audit, state, ts);
  }

  /** The same once the keys are fresh. */
  method BringUpWith(env: Env, topology: Topology.Topology, keys: KeyRing, audit: Audit.AuditLog, state: Replay.ReplayState, ts: int)
    returns (r: Result<()>, d: Dispatcher)
    requires keys.Valid() && keys.hmac == env.hmac && audit.Valid()
    requires state == Replay.Replayed(Views(audit.Entries())) && state.Ordered()
    modifies keys, audit, audit.disk
    ensures d.Valid() && d.audit == audit
    ensures var log := old(Views(audit.Entries()));
      var (s, result) := Rebuilt(Boot(topology, old(keys.View()), log), state, |log|);
      r == result && d.EventLog() == s.log && (r.Ok? ==> d.View() == s)
    ensures Wrote(old(FilesOf(audit)), FilesOf(audit), audit.mirrored, ts)
  {
    ViewsNamed(audit.Entries());
    var entries := |audit.disk.primary|;
    d := NewDispatcher(env, topology, keys, audit);
    r := Rebuild(d, state, entries, ts);
  }

  method NewDispatcher(env: Env, topology: Topology.Topology, keys: KeyRing, audit: Audit.AuditLog) returns (d: Dispatcher)
    requires keys.Valid() && keys.hmac == env.hmac && audit.Valid()
    ensures d.Valid() && fresh(d.Footprint() - {keys, audit, audit.disk}) && d.audit == audit && d.tasks == map[]
    ensures d.View() == Boot(topology, keys.View(), Views(audit.Entries()))
  {
    d := new Dispatcher(env, topology, keys, audit);
  }

  lemma StartedIs(topology: Topology.Topology, ring: Ring, now: int, created: int, draw: Fresh, log: seq<Event>)
    requires ring.keys != [] && topology.Valid()
    ensures Replay.Replayed(log).Ordered()
    ensures ColdStarted(topology, ring, now, created, draw, log)
      == Rebuilt(Boot(topology, Renew(ring, now, created, draw), log), Replay.Replayed(log), |log|)
  {
    Replay.ReplayedOrdered(log);
  }

  /** `cold_start`, for a manifest that loads. A failure before the dispatcher leaves the
      files as they were and names the first step that fails. After that the outcome and the
      log are those of Control.ColdStarted, and an opened dispatcher is the one the log says. */
  method ColdStartUp(env: Env, topology: Topology.Topology, keys: KeyRing, audit: Audit.AuditLog,
                     ts: int, now: int, created: int, draw: Fresh) returns (failure: Option<Failure>, d: Option<Dispatcher>)
    requires keys.Valid() && keys.hmac == env.hmac && audit.Honest()
    modifies keys, audit, audit.disk
    ensures d.Some? <==> failure.None?
    ensures var first := old(FirstFailure(topology, audit));
      && (first.Some? ==> failure == first)
      && (first.Some? ==> audit.disk.primary == old(audit.disk.primary) && audit.disk.mirror == old(audit.disk.mirror))
      && (first.None? ==> failure == old(StartFailure(topology, Written(audit))))
      && (first.None? ==> Intact(audit) && Written(audit) == old(Left(topology, keys, audit, now, created, draw)).log)
      && (d.Some? ==> d.value.Valid() && d.value.View() == old(Left(topology, keys, audit, now, created, draw)))
    ensures Wrote(old(FilesOf(audit)), FilesOf(audit), audit.mirrored, ts)
  {
    d := None;
    var state;
    failure, state := CheckSinks(topology, audit);
    if failure.Some? {
      return;
    }
    StartFailureIs(topology, keys.View(), now, created, draw, Written(audit));
    var r, dispatcher := BringUp(env, topology, keys, audit, state, ts, now, created, draw);
    failure := FailureOf(r);
    if r.Ok? {
      d := Some(dispatcher);
    }
  }
}
