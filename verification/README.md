# Amnesic Pi orchestrator: a verified model

The orchestrator in `src/orchestrator/` hands work to team leads. Its `Dispatcher` keeps
task records in memory, writes every event to a hash-chained audit log, signs each handoff
with a rotating key, and rebuilds itself from the log after a restart. This project models
those parts and proves what holds between them: memory against log, before and after a
restart, graph acyclicity against dispatch progress, key rotation against token lifetime.

`dafny verify dfyconfig.toml` checks the whole project.

## How the model is laid out

| layer | files |
|---|---|
| text and order | `Basics`, `Lex`, `JsonText` (canonical JSON), `LogText` (line splitting), `Wording` (what the hashed texts say, and how entries of others are read) |
| audit log | `AuditChain` (entries, chain), `Rewrites` (what a rewritten line does to it), `Audit` (class `AuditLog`), `AuditWriters` (several writers), `Appends` (whose entries say what) |
| data shapes | `Schema`, `SchemaCodec`, `Parsers` (exactly which dictionaries parse), `Validators` (exactly what is refused), `Gates`, `Topology`, `Manifest` (the shipped one), `Graph`, `Ulid` |
| keys and tokens | `Tokens` (classes `KeyRing`, `ReplayLedger`), `KeyRotation` |
| control plane | `Events`, `Replay`, `Control` (each operation as a function of the state), `Dispatcher` (classes `TaskRecord`, `Dispatcher`) |
| answers of each operation | `Envelopes` (what goes out for a node), `Answers` (every other operation), `Restored` (what a start rebuilds, from any log), `Stamps` (who wrote the entries, and when) |
| properties of runs | `Moves`, `Projection`, `Restart`, `Recovery`, `Runs`, `Ownership`, `Owners`, `Chains`, `History`, `Evidence`, `Order`, `Readiness`, `Standing`, `Restartable`, `Progress`, `Waves`, `WaveCount`, `Ingress`, `Lifetime`, `Delivery`, `Silence`, `Witness` |
| ruleset rendering | `Firewall`, `Turns` (replacing in turn against replacing at once) |

Class `Dispatcher` changes fields and record objects in place, as the Python class does.
`View` is its whole state as a value (`Control.Control`), and each method is verified to do
to `View` exactly what the function of module `Control` says, including what it leaves
behind when it refuses, and to both audit files only what `Stamps.Wrote` allows. `Envelopes`,
`Answers` and `Restored` say case by case what those functions answer and leave, in words of
their own; the other theorems are about what runs of them keep. `Runs.Run` is any sequence
of operations and cold starts over one log; a cold start that fails leaves no process, and
then nothing happens until the next one.

## What is idealised

* SHA-256 and HMAC are arbitrary functions. Hash theorems end in "equal, or here are two
  inputs with one hash". For the MAC, `Ingress.Unforged` says of each delivery that a tag
  which verifies was made for an issued token with that key id and message.
* Task ids and key ids are drawn by the caller of an operation. `Runs.Legal` asks that drawn
  task ids are new, `Ingress.Sealed` that drawn key ids were never used.
* Clock readings are arguments, one for each reading the code makes, except that one reading
  stamps all the log entries of one operation. Instants are integers.
* The audit file is kept as its list of lines in `Audit` and above. `LogText` and
  `AuditChain.FileRoundTrip` say exactly when the text of the file gives those lines back.

## Where the code is weaker than its promise

Each weakness has its exact condition, and `Witness` shows that the first four are reached by
short runs from nothing, for every valid manifest, every node it admits and every graph with it.

* `dispatch_graph` counts a passing gate of any task of a node, even one that lost the node.
  Readiness agrees with shipping while every passed task owns its node; a gate result keeps
  that if and only if it does not pass a task that lost its node
  (`Readiness.JudgeKeepsIffLive`), and so does every run that passes gates only on the record
  `live_record` answers (`Readiness.ReadyMeansPassed`).
* `reclaim` logs and abandons before it can be refused, and a restart does not rebuild
  `superseded_by`, so every reclaimed task can be reclaimed again after it
  (`Witness.ReclaimableAgain`), which takes the node away from its owner. `Ownership.Careful` is
  the exact condition under which a reclaim keeps one owner per node. A restart gives every node
  to the latest unreclaimed task of the node, and changes owners exactly when one is reclaimed or
  an unreclaimed task's node has none (`Owners.AnyRunThenRestart`).
* A task that passed can outlive its team in the manifest. A failing verdict on it then leaves a
  process that neither cold_start nor `queue_depth` accepts, with the manifest it runs with
  (`Witness.ShippedManifestStrays` reaches this with the shipped manifest). No other operation
  does that to cold_start (`Restartable.KeepsRestartableIff`), and only this and a report on such
  a task do it to `queue_depth` (`Restartable.KeepsDepthsIff`).
* The memory can disagree with the log about a pass: a status report after a passing gate takes
  the pass away, and a restart gives it back. `Standing.PassedExactlyWhen` says when a task is
  held as passed, and `Standing.RestartChangesDecisionIff` when a restart changes the shipping
  decision.
* A restart forgets silence: `restore_from` sets no deadlines, so a restored task that nobody
  reports on is never stuck (`Silence.RestoredSilentNeverStuck`). `Silence.StuckExactlyWhen` says
  exactly when a record is stuck, over every run.
* The documentation of `cold_start` says that a failing step leaves the orchestrator read-only.
  A paused team that the manifest no longer declares makes it raise instead, after some pauses
  were logged again, and so do deliverables that do not parse, before anything is logged
  (`Dispatchers.ColdStartUp` and `Dispatchers.StartFailure` say which outcome comes when).
* The mirror is written outside the lock, so two honest writers can leave a mirror that
  `check_mirror` refuses (`AuditWriters.TwoWritersDiverge`); `AuditWriters.MirrorAgreesIffOrdered`
  is the exact condition.
* `canonical_json` leaves U+0085, U+2028 and U+2029 unescaped and `splitlines` splits at them
  (`LogText.DumpsBreak`, `AuditChain.FileRoundTrip`).
* A token lifetime beyond the deadline of `KeyRotation.Deadline` outlives its key
  (`KeyRotation.PastDeadlineStrands`); within it, it does not (`Lifetime.IssuedIsAccepted`).
* verify_chain hashes what the lines parse to, not the lines. It accepts a rewritten line exactly
  as `Rewrites.LineRewriteVerifies` says, and every line has another text that it accepts and
  that says the same (`Rewrites.EveryLineCanBeReworded`); only the mirror shows that.
* In `render`, an earlier value can complete a later token. Replacing in turn equals replacing at
  once, for all templates whose tokens do not overlap, if and only if the uplink interface name is
  no part of CLIENT_IF, TRANS_PORT, DNS_PORT or TOR_UID and the client interface name is no part
  of TRANS_PORT, DNS_PORT or TOR_UID (`Turns.RenderSimultaneousIff`). Names that fail this are
  valid, as PORT and DNS_PORT are (`Turns.InterfaceCompletesAToken`). Tokens that share an '@'
  with a following token of an earlier turn fail with every configuration
  (`Turns.OverlapAlwaysDiffers`).

## Model

| member | source | states |
|---|---|---|
| Ownership.RunThenRestart | src/orchestrator/dispatch.py:471-526 | From an empty log, after any run whose reclaims are careful, a restart brings back the same tasks with the same identities, the same owner of every node and the same paused teams; a task is restored as abandoned exactly when the log reclaims it, and otherwise as passed, failed or just dispatched exactly as its last logged gate result passed, failed or is missing |
| Recovery.RestartRefines | src/orchestrator/state.py:45-71 | The same for one state: memory that projects the log, then cold start, gives the same projection |
| Recovery.ShipsAfterRestart | src/orchestrator/dispatch.py:379-407 | After a restart a graph may ship exactly when the log gives every node an owner whose last gate result passed |
| Recovery.ShippableSurvives | src/orchestrator/dispatch.py:372-377 | What may ship before a restart may ship after it |
| Recovery.ReportUndoneByRestart | src/orchestrator/dispatch.py:318-324 | Any report that parses and is accepted for an owner stops a shippable graph, and a restart undoes that |
| Standing.RunAgrees | src/orchestrator/dispatch.py:318-361 | In every running state of every run the memory holds as passed exactly the tasks whose pass stands: verdicts add and remove, reports and reclaims remove, a cold start resets to the logged passes |
| Standing.PassedExactlyWhen | src/orchestrator/dispatch.py:507-515 | An unreclaimed task is held as passed exactly when the log has its pass and no report came after its last verdict in this process |
| Standing.RestartChangesDecisionIff | src/orchestrator/dispatch.py:379-407 | A restart changes the shipping decision exactly when every owner has a logged pass and one of them was reported on after its last verdict |
| Witness.UndoneReportReached | src/orchestrator/dispatch.py:318-324 | From nothing, a graph of one node passes, its owner reports, and a restart ships it again |
| Recovery.OpenWorkConserved | src/orchestrator/state.py:37-42 | Right after a cold start the open records are exactly the log's open tasks, each names a declared team and a known gate, and the queue depths add up to their number |
| Recovery.DepthPerTeam | src/orchestrator/dispatch.py:539-544 | Each team's queue depth is the number of the log's open tasks of that team |
| Restart.StartsExactlyWhen | src/orchestrator/state.py:142-174 | A cold start over a good chain and mirror opens exactly when the manifest is valid, the open tasks are reconciled, all deliverables parse and the paused teams are declared |
| Restart.StartReplays | src/orchestrator/state.py:171-174 | A cold start, successful or not, adds nothing to what replay reads |
| Restart.StartMemory | src/orchestrator/dispatch.py:487-526 | The restored memory projects the log; with one unreclaimed task per node it also has one owner per node |
| Owners.StartOwners | src/orchestrator/dispatch.py:487-526 | After any cold start a node belongs to the latest dispatched task of it that the log does not reclaim, and to none if there is none |
| Owners.AnyRunThenRestart | src/orchestrator/dispatch.py:471-526 | After any run from nothing, careful or not, a restart brings back the same tasks, identities and pauses, every record exactly as its last dispatch entry, its reclaims and its last logged verdict say, and those latest owners; the owners are the ones before exactly when every owner was unreclaimed and every unreclaimed task's node was owned |
| Restartable.RestartsUnlessStray | src/orchestrator/state.py:142-174 | Over every run from nothing, a running process can be started again with its own manifest exactly when no unreclaimed task of an undeclared team has failed its gate |
| Restartable.KeepsRestartableIff | src/orchestrator/dispatch.py:343-365 | An operation keeps that if and only if it is not the acceptance of a failing verdict for such a task |
| Restartable.StrayFreeRestarts | src/orchestrator/state.py:142-174 | So runs without such an acceptance keep every process restartable, through restarts and changes of manifest |
| Restartable.KeepsDepthsIff | src/orchestrator/dispatch.py:539-544 | An operation keeps queue_depth answering if and only if it is not an accepted report or failing verdict that opens a task of an undeclared team |
| Witness.ShippedManifestStrays | src/orchestrator/dispatch.py:539-544 | From nothing, with the shipped manifest: work of threat-research passes, the team leaves the manifest, the gate fails, and neither cold_start nor queue_depth succeeds any more |
| Projection.MoveMemory | src/orchestrator/dispatch.py:195-230 | Every move keeps the memory a projection of the log (invariant I6) |
| Projection.MoveAdmissible | src/orchestrator/state.py:49-70 | Every move appends only entries that the log so far allows: a new task for an unpaused team, reports, results and reclaims of dispatched tasks under their own team, results for the task's exit gate with the hash of some evidence |
| Projection.MoveOneOwner | src/orchestrator/dispatch.py:152-157 | Every move outside a reclaim keeps one owner per node |
| Runs.StepReaches | src/orchestrator/dispatch.py:135-454 | Every operation, refused or not, is a path of those moves |
| Runs.StepKept | src/orchestrator/state.py:90-178 | Every operation and every cold start keeps memory and log in agreement |
| Ownership.ReclaimKeepsOneOwnerIffCareful | src/orchestrator/dispatch.py:424-454 | A reclaim keeps one owner per node if and only if it is careful |
| Ownership.ReclaimOfOther | src/orchestrator/dispatch.py:437-451 | Reclaiming a task that does not own its node leaves the owner without the node |
| Witness.ReclaimableAgain | src/orchestrator/dispatch.py:517-524 | After any cold start every reclaimed task can be reclaimed again and owns nothing |
| Witness.RestartThenReclaim | src/orchestrator/dispatch.py:430-452 | Reclaiming it then leaves the task that replaced it without its node |
| Witness.OrphanReached | src/orchestrator/dispatch.py:424-454 | From nothing, dispatch, reclaim, restart and a second reclaim reach such a state |
| Ownership.RunOwned | src/orchestrator/dispatch.py:424-454 | One owner per node over every careful run, restarts included |
| Chains.Owner | src/orchestrator/dispatch.py:367-370 | Following superseded_by from any record ends at the record live_record answers, on the same node, at no smaller sequence number |
| Chains.RunChained | src/orchestrator/dispatch.py:453-454 | In one process whose reclaims complete, superseded_by is None exactly for owners, and every link leads to a later task of the same node |
| Chains.StartChained | src/orchestrator/dispatch.py:517-525 | A process started from a log without reclaims begins with such chains |
| Progress.NoDeadlock | src/orchestrator/dispatch.py:233-252 | If every owned node of a valid graph has passed and the graph may not ship, dispatch_graph succeeds and creates a task for an unowned node |
| Progress.AdmittedWhen | src/orchestrator/dispatch.py:159-175 | Declared, unpaused teams and known gates are enough for nothing to be refused |
| Waves.ShipsWithinWaves | src/orchestrator/dispatch.py:241-252 | Alternating dispatch_graph and passing gates makes the graph shippable within as many waves as it has nodes |
| Waves.WaveProgress | src/orchestrator/dispatch.py:343-365 | Each wave leaves fewer unowned nodes and passes all owned ones |
| WaveCount.ShipsExactlyAfterChains | src/orchestrator/dispatch.py:241-252 | A graph without tasks may ship after some waves if and only if no dependency chain of it is longer than they are many |
| WaveCount.ShipsWithinChains | src/orchestrator/dispatch.py:241-252 | From any state between waves, as many waves as the longest chain is long are enough |
| Ingress.IngressAtMostOnce | src/orchestrator/dispatch.py:256-306 | Over any run with restarts the log accepts a task at most once, and only after a dispatch entry of that task to that team |
| Ingress.AcceptedWasIssued | src/orchestrator/tokens.py:174-220 | What deliver accepts was issued for the same task, team, graph, node, gate, payload and deliverables with a tier no more authoritative, or two scopes collide under the digest |
| Ingress.AcceptedInRun | src/orchestrator/dispatch.py:285-306 | Every delivery accepted anywhere in a run with restarts is logged next and is of the one envelope issued before for its task: the same task and team, a tier no more authoritative, and the same graph, node, gate, deliverables and payload, which the dispatch entry of that envelope describes, or these two scopes collide under the digest |
| Ingress.ScopeInjective | src/orchestrator/schema.py:62-83 | The signed scope determines graph, node, gate, payload and deliverables |
| Tokens.MessageDecodes | src/orchestrator/tokens.py:55-59 | The signed message determines task, team, tier, digest and expiry, against any other token |
| Lifetime.IssuedIsAccepted | src/orchestrator/dispatch.py:188-209 | An envelope that dispatch placed is accepted from the team's lead exactly until its token expires or is consumed, after any further operations of the process, for a lifetime within the key's deadline |
| Delivery.RestartFailsClosed | src/orchestrator/dispatch.py:479-482 | After a restart with fresh keys every delivery of earlier work is refused |
| History.WorkGoesToLeads | src/orchestrator/dispatch.py:256-284 | Every dispatch and acceptance an operation logs names the declared lead of the team (invariant I1) |
| Delivery.FirstStart | src/orchestrator/state.py:90-178 | On an empty log every valid manifest opens a dispatcher, and the invariants of runs hold of it |
| Delivery.DispatchTwice | src/orchestrator/dispatch.py:146-157 | Dispatching a node again changes nothing and returns the same envelope |
| Silence.StuckExactlyWhen | src/orchestrator/dispatch.py:411-422 | Over every run a record is stuck exactly when it is open and past the moment it is due by: sending plus the acknowledgement time, or the last promised update, and no moment after a cold start |
| Silence.RestoredSilentNeverStuck | src/orchestrator/dispatch.py:517-522 | A restored task that is not reported on is never stuck, however long the process runs |
| KeyRotation.TokenLivesExactlyItsLifetime | src/orchestrator/tokens.py:103-133 | For every schedule of current and sign under a monotone clock, an unchanged token that expires by its deadline verifies at every time before its expiry and at none after |
| KeyRotation.PastDeadlineStrands | src/orchestrator/tokens.py:110-114 | Beyond the deadline two uses of the ring refuse a live token |
| KeyRotation.RingStaysInOrder | src/orchestrator/tokens.py:103-114 | The ring always holds one or two keys, newest first |
| KeyRotation.RevocationIsImmediate | src/orchestrator/tokens.py:116-127 | A revoking rotation refuses every earlier token at once |
| Order.RunInOrder | src/orchestrator/dispatch.py:241-252 | A graph dispatched only by ready-only dispatch_graph and reclaims has, before every dispatch entry, a passing gate result for each dependency, restarts included |
| Order.DispatchedNodesClosed | src/orchestrator/dispatch.py:249-251 | The dispatched nodes are closed under dependencies |
| Readiness.SatisfiedIffPassed | src/orchestrator/dispatch.py:242-246 | While every passed task owns its node, a node satisfies its dependants exactly when it counts for shipping |
| Readiness.JudgeKeepsIffLive | src/orchestrator/dispatch.py:343-352 | A gate result keeps that if and only if it does not pass a task that lost its node |
| Readiness.ReadyMeansPassed | src/orchestrator/dispatch.py:242-251 | From nothing, over careful runs that pass gates on the live record, readiness is exactly what shipping looks at |
| Witness.DisownedPassReached | src/orchestrator/dispatch.py:242-246 | From nothing, reclaiming a task and then passing it reaches such a state |
| History.PauseRespected | src/orchestrator/dispatch.py:166-169 | No dispatch entry goes to a team that stood paused, across restarts |
| History.PausedIffFrozen | src/orchestrator/state.py:65-68 | Replay holds a team paused exactly when some pause has no later resume |
| History.AnotherStartIsNeutral | src/orchestrator/state.py:171-174 | One more cold start leaves the replayed state and every pause as they were |
| Evidence.ShippingIsChecked | src/orchestrator/dispatch.py:389-407 | Whenever a graph may ship after a run, every node has an owner with a dispatch entry and a passing last gate result for its own exit gate, and the operation that wrote that result was handed it with non-empty evidence by the one team that owns the gate |
| Evidence.EveryVerdictWasChecked | src/orchestrator/gates.py:138-205 | Every gate result in the log of any run was written by an accept_gate call whose parsed argument has the same task, gate, verdict and evidence hash, with evidence, checked by the gate's owning team |
| History.ShippingIsProven | src/orchestrator/dispatch.py:343-365 | In one state, every node of a shippable graph has an owner with a dispatch entry and a passing last gate result for its exit gate |
| History.ShippingNeedsAPass | src/orchestrator/dispatch.py:343-365 | An operation makes a graph shippable if and only if it passes the gate of the task that owns every node that had not passed |
| History.NoReportShips | src/orchestrator/dispatch.py:308-341 | No status report makes a graph shippable |
| History.DispatchedOnce | src/orchestrator/dispatch.py:149-150 | A task id is dispatched at most once in the whole log |
| Envelopes.DispatchAnswers | src/orchestrator/dispatch.py:135-231 | Every answer of dispatch in the order of its checks; a new envelope carries the node's team, tier, gate, deliverables and deadline, the caller's payload with the node's id and acceptance criteria where the caller gave none, a token of the asked lifetime and the log position, and only its record, its node's owner, the key ring and one dispatch entry that describes it change |
| Envelopes.NodesAnswer | src/orchestrator/dispatch.py:233-252 | dispatch_graph answers with the envelopes of the ready nodes (or all) in graph order, or with the refusal of the first refused one after dispatching those before it |
| Envelopes.RunSends | src/orchestrator/dispatch.py:176-209 | In every running state of every run each envelope with a token was sent by an earlier operation for a node that this operation names, acceptance criteria, payload, deadline and lifetime included |
| Answers.GraphAnswers | src/orchestrator/dispatch.py:233-252 | dispatch_graph refuses an invalid graph before anything else, and counts as done exactly the nodes with some passed task of the graph |
| Answers.ReportAnswers | src/orchestrator/dispatch.py:308-341 | ingest_status refuses what does not parse, unknown tasks and self-reported passes, and accepts every other report in whatever state the task is: its state, percentage and next update, no acknowledgement deadline any more, and one entry with the report's hash |
| Answers.ReportInRun | src/orchestrator/dispatch.py:308-341 | So does it in every state of every run from nothing: every valid report on a known task other than a claimed pass is taken |
| Answers.VerdictAnswers | src/orchestrator/dispatch.py:343-365 | accept_gate refuses unknown tasks, results that do not parse and other gates, and accepts every other result in whatever state the task is |
| Answers.ReclaimAnswers | src/orchestrator/dispatch.py:424-454 | reclaim's refusals; otherwise it abandons and logs, stops without the node or its owner, and else dispatches the first node of that name again and links the task to the answer |
| Answers.DeliverAnswers | src/orchestrator/dispatch.py:256-306 | Every refusal of deliver in the order of its checks, and the consumed tag and entry of an acceptance |
| Answers.VerifyAnswers | src/orchestrator/tokens.py:174-220 | verify accepts exactly an unexpired token with the tag of a held key over its five fields for this digest and team, and a tier that covers the asked one |
| Answers.SignAnswers | src/orchestrator/tokens.py:135-172 | sign refuses other tiers and lifetimes that are not positive; otherwise the newest key, renewed when due, signs exactly the five fields |
| Answers.PlainRotationKeeps | src/orchestrator/tokens.py:116-127 | A forced rotation that does not revoke refuses no token of the newest key that was accepted before |
| Answers.PauseFreezes | src/orchestrator/dispatch.py:119-128 | While a team is paused nothing new is dispatched to it, and after a resume it is again |
| Answers.ListsAnswer | src/orchestrator/dispatch.py:379-407 | The two lists of assert_shippable are the nodes without an owner and those whose owner has not passed, in graph order |
| Answers.DepthAnswers | src/orchestrator/dispatch.py:539-544 | queue_depth counts, for exactly the declared teams, the tasks neither passed, abandoned nor superseded, and fails exactly when one of them is of another team |
| Answers.DispatchDeepens | src/orchestrator/dispatch.py:539-544 | A new task adds one to its team's depth and nothing to the others' |
| Answers.PassLightens | src/orchestrator/dispatch.py:539-544 | A passing verdict on a counted task takes one off its team's depth and nothing off the others' |
| Restored.StartRebuilds | src/orchestrator/dispatch.py:471-526 | After a cold start over any log the memory holds exactly the dispatched tasks with deliverables, every field as the last dispatch entry says, and the state as the reclaims and the last verdict say |
| Restored.StartNames | src/orchestrator/dispatch.py:523-524 | And a node belongs to the last unreclaimed of its tasks in the order of replay |
| Restored.VerdictsKnown | src/orchestrator/state.py:61-62 | Replay holds exactly the last verdict of every judged task |
| Restored.OrderKnown | src/orchestrator/state.py:51-60 | Replay lists tasks in the order of their first dispatch entries |
| Stamps.TimesStayInOrder | src/orchestrator/audit.py:152-184 | Operations called with clock readings that never go backwards leave the timestamps of the file in order after each of them |
| Dispatchers.AppendEvent | src/orchestrator/dispatch.py:37 | One more event, written by the orchestrator at the clock reading, to both files |
| Dispatchers.Dispatcher.DispatchNode | src/orchestrator/dispatch.py:135-231 | In place: state and answer are those of Control.Dispatch, which Envelopes.DispatchAnswers spells out; every new log entry is the orchestrator's, bears the clock reading and goes to both files |
| Dispatchers.Dispatcher.DispatchReady | src/orchestrator/dispatch.py:233-252 | In place: the loop over the nodes does what Control.DispatchGraph does (Answers.GraphAnswers), up to the first refusal; log entries as above |
| Dispatchers.Dispatcher.DeliverTo | src/orchestrator/dispatch.py:256-306 | In place: the checks in their order, then the ledger, then the log (Answers.DeliverAnswers); log entries as above |
| Dispatchers.Dispatcher.Ingest | src/orchestrator/dispatch.py:308-341 | In place: only the reported record and the log change (Answers.ReportAnswers); log entries as above |
| Dispatchers.Dispatcher.AcceptResult | src/orchestrator/dispatch.py:343-365 | In place: only a result for the record's own gate changes it (Answers.VerdictAnswers); log entries as above |
| Dispatchers.Dispatcher.Unshippable | src/orchestrator/dispatch.py:390-397 | The two lists are the nodes without a task and those whose task has not passed, in the order of the graph |
| Dispatchers.Dispatcher.AssertShippable | src/orchestrator/dispatch.py:379-407 | Refuses exactly the graphs that may not ship |
| Dispatchers.Dispatcher.StuckTasks | src/orchestrator/dispatch.py:411-422 | Returns exactly the stuck records, in dictionary order |
| Dispatchers.Dispatcher.Depths | src/orchestrator/dispatch.py:539-544 | The counting loop computes the number of open tasks of every team, or fails on an undeclared one |
| Dispatchers.Dispatcher.ReclaimTask | src/orchestrator/dispatch.py:424-454 | In place: state and answer are those of Control.Reclaim (Answers.ReclaimAnswers), also when it stops half way; log entries as above |
| Dispatchers.Dispatcher.Restore | src/orchestrator/dispatch.py:471-526 | The loop over the replayed tasks builds the records and owners of Control.RestoreFrom (Restored.StartRebuilds, Restored.StartNames), and raises exactly when the deliverables of a new task do not parse |
| Dispatchers.ColdStartUp | src/orchestrator/state.py:90-178 | Names the first step that fails and leaves the files alone, or ends as the log says, exceptions included, with the log and the dispatcher of Control.ColdStarted; log entries as above |
| Replay.ReplayLog | src/orchestrator/state.py:45-71 | Refuses a broken chain and otherwise folds the entries |
| Wording.VerdictRead | src/orchestrator/state.py:61-62 | An entry's verdict is a pass exactly when "passed" is there and not empty |
| Wording.DispatchRead | src/orchestrator/dispatch.py:487-497 | Deliverables that are missing or empty list none, and otherwise they are read exactly as artifacts parse |
| Wording.PassedOver | src/orchestrator/state.py:49-71 | Entries without a task id, and entries of other names, change nothing |
| Events.ViewUndoesFields | src/orchestrator/dispatch.py:211-224 | Every event reads back from its entry's fields as it was written |
| AuditChain.TamperEvident | src/orchestrator/audit.py:186-206 | Two verified logs that agree on entry k agree on all earlier entries, or show a hash collision |
| AuditChain.RewriteVerifies | src/orchestrator/audit.py:78-89 | Rewriting one entry is noticed exactly when something follows it, short of a collision; the tail is unbound |
| Rewrites.LineRewriteVerifies | src/orchestrator/audit.py:186-206 | A rewritten line is accepted exactly when it parses to an entry with the old sequence number and back link that is the last one or has the old entry's hash when written again |
| Rewrites.RewordingVerifies | src/orchestrator/audit.py:186-206 | A line that parses to the same entry is always accepted; another one before the last line only with a collision |
| Rewrites.EveryLineCanBeReworded | src/orchestrator/audit.py:112-123 | Every line of every accepted file has another text with which the file is accepted and says the same |
| Wording.EntryIff | src/orchestrator/audit.py:53-75 | A dictionary reads as an entry exactly when it is what that entry writes |
| AuditChain.EntryRoundTrip | src/orchestrator/audit.py:38-75 | An entry reads back exactly when its fields avoid the core names |
| AuditChain.FileRoundTrip | src/orchestrator/audit.py:112-123 | Written entries read back through line splitting exactly when no string holds a wide line break |
| LogText.ReadBackExactly | src/orchestrator/audit.py:112-115 | A file gives back its lines exactly when each is durable |
| LogText.DumpsBreak | src/orchestrator/schema.py:49-51 | Canonical text breaks across lines exactly when the value holds U+0085, U+2028 or U+2029 |
| Wording.ObjectText | src/orchestrator/schema.py:49-51 | The canonical text of an object lists its keys in code-point order, each once, without white space |
| Wording.EscapeIs | src/orchestrator/schema.py:49-51 | Exactly the quote, the backslash and the controls below U+0020 are escaped, each as json.dumps does |
| Wording.LessIff | src/orchestrator/schema.py:49-51 | The key order: a proper prefix first, else the first difference decides |
| JsonText.LoadsDumps | src/orchestrator/schema.py:49-51 | Reading canonical text gives back the value |
| Audit.AuditLog.Append | src/orchestrator/audit.py:152-184 | One more chained entry in the primary and the same line in the mirror; a refusal changes nothing |
| Audit.AuditLog.Head | src/orchestrator/audit.py:125-140 | The cached head is the last entry of the file whenever it is used |
| Audit.AuditLog.VerifyChain | src/orchestrator/audit.py:186-206 | Returns the number of entries exactly for a file that parses and chains |
| Audit.AuditLog.CheckMirror | src/orchestrator/audit.py:208-228 | Accepts exactly equal files |
| AuditWriters.InterleavedAppendsChain | src/orchestrator/audit.py:152-180 | For any number of interleaved writers the primary verifies, and a cache of the file's size is right |
| AuditWriters.MirrorIsPermutation | src/orchestrator/audit.py:182-183 | The mirror with the lines still to be written is a permutation of the primary, in order for each writer |
| Appends.NothingLostOrInvented | src/orchestrator/audit.py:152-184 | However writers interleave, each one's entries are exactly what it was asked to append, in that order, but for one that is prepared and not yet written |
| AuditWriters.MirrorAgreesIffOrdered | src/orchestrator/audit.py:208-228 | With all appends done the mirror is accepted exactly when it was written in the primary's order |
| AuditWriters.SingleWriterMirrors | src/orchestrator/audit.py:182-183 | One writer at rest leaves a mirror that is accepted |
| AuditWriters.TwoWritersDiverge | src/orchestrator/audit.py:182-184 | Two writers can leave one that is refused |
| Graph.RejectCycles | src/orchestrator/schema.py:287-297 | Accepts exactly the graphs with a rank over dependencies; a refusal reports a set that holds a concrete cycle |
| Graph.RejectSharedDeliverables | src/orchestrator/schema.py:299-311 | Accepts exactly the graphs where one team claims each artifact |
| Graph.Validate | src/orchestrator/schema.py:263-285 | Accepts exactly the valid graphs |
| Parsers.GraphParsedIff | src/orchestrator/schema.py:326-336 | A dictionary parses as a graph exactly when its keys are known, the required ones are there, each says the graph's value down to nodes and artifacts, lists left out being empty and nulls absent, and the graph is valid; every other one is refused with SchemaError |
| Parsers.NodeParsedIff | src/orchestrator/schema.py:219-252 | The same for nodes |
| Parsers.StatusParsedIff | src/orchestrator/schema.py:418-442 | The same for reports, with their artifacts and blocker |
| Parsers.ResultParsedIff | src/orchestrator/gates.py:163-205 | The same for gate results; one without a time is stamped with the clock |
| Parsers.NodeNearParses | src/orchestrator/schema.py:219-252 | A valid node is parsed back from its dictionary without any of its empty optional lists and with or without a null for an absent deadline |
| Parsers.StatusNearParses | src/orchestrator/schema.py:418-442 | The same for reports, the shortest included |
| Parsers.GraphNearParses | src/orchestrator/schema.py:326-336 | The same for graphs |
| Parsers.WrongKeysRefused | src/orchestrator/schema.py:95-102 | A missing required key or an unknown key is refused, in every shape |
| Validators.ArtifactRefusedIff | src/orchestrator/schema.py:128-136 | Refused exactly for an unknown kind, a path that is empty, padded, absolute or climbing between its slashes, or a malformed digest |
| Validators.NodeRefusedIff | src/orchestrator/schema.py:172-201 | Refused exactly for the listed defects of ids, title, criteria, tier, artifacts and dependencies |
| Validators.GraphRefusedIff | src/orchestrator/schema.py:263-285 | Refused exactly for a blank goal, no node, an unknown invariant, an invalid node, a repeated id, an unknown dependency, a cycle or a shared artifact |
| Validators.StatusRefusedIff | src/orchestrator/schema.py:391-403 | Refused exactly for a malformed id, an unknown state, a percentage outside 0 to 100, "blocked" without a blocker, or an invalid artifact or blocker |
| Validators.ResultRefusedIff | src/orchestrator/gates.py:138-152 | Refused exactly for an unknown gate, no evidence, or another checker than the gate's owner |
| Validators.TeamRefusedIff | src/orchestrator/topology.py:38-59 | Refused exactly for a short charter, no lead, no sub-agents, or a gate the registry gives to another team |
| Validators.ConfigRefusedIff | src/amnesic_pi/config.py:23-39 | Refused exactly for malformed or equal interfaces, malformed or equal ports, or a malformed user name |
| Validators.StripIs | src/orchestrator/schema.py:131-132 | strip takes off exactly the white space at both ends |
| SchemaCodec.GraphRoundTrip | src/orchestrator/schema.py:319-336 | Parsing undoes to_dict on every valid graph, its nodes and artifacts |
| SchemaCodec.NodeRoundTrip | src/orchestrator/schema.py:203-252 | Parsing undoes to_dict on every valid node |
| SchemaCodec.StatusRoundTrip | src/orchestrator/schema.py:405-442 | Parsing undoes to_dict on every valid status report |
| SchemaCodec.ResultRoundTrip | src/orchestrator/gates.py:154-205 | Parsing undoes to_dict on every valid gate result |
| Topology.GateOwnerIsUnique | src/orchestrator/topology.py:130-134 | In a valid topology a gate is looked up to its only owner, the team the registry names |
| Topology.ValidateGateCoverage | src/orchestrator/topology.py:105-121 | Accepts exactly the topologies where every gate is owned once |
| Topology.Validate | src/orchestrator/topology.py:77-103 | Accepts exactly the valid topologies |
| Manifest.ShippedIsValid | orchestration/topology.toml:31-132 | The shipped manifest, its teams, gates and sub-agents, is valid with any charters that are long enough |
| Manifest.GatelessTeamCanGo | src/orchestrator/topology.py:77-121 | A valid manifest stays valid without a team that owns no gate |
| Ulid.DecodesExactly | src/orchestrator/tokens.py:33-40 | The 26-digit shift loop decodes back exactly for the numbers that fit |
| Ulid.EncodeOrdered | src/orchestrator/tokens.py:30-40 | String order of ids is numeric order |
| Ulid.TaskIdsSortByTime | src/orchestrator/tokens.py:33-40 | Ids of an earlier millisecond sort strictly first |
| Schema.GeneratedIdsAreTaskIds | src/orchestrator/schema.py:42 | Every generated id is a well-formed task id |
| Firewall.RenderIsSimultaneous | src/amnesic_pi/firewall.py:20-39 | For a valid configuration and a separated template, replacing in turn, in any order, equals replacing at once and leaves no token |
| Firewall.InTurnIsSimultaneous | src/amnesic_pi/firewall.py:32-34 | The same for any set of names and '@'-free values |
| Turns.RenderSimultaneousIff | src/amnesic_pi/firewall.py:20-39 | For a valid configuration the replacements in turn equal one pass on all templates without overlapping tokens if and only if no interface name is part of the name of a later token; so on all calm templates |
| Turns.SimultaneousIff | src/amnesic_pi/firewall.py:32-34 | The same for any order of unnested names and values without '@' |
| Turns.InterfaceCompletesAToken | src/amnesic_pi/firewall.py:25-39 | With an interface name inside a later token's name, the token of the interface written in its place is rendered as the later value and leaves no token, where one pass gives the later token |
| Turns.OverlapAlwaysDiffers | src/amnesic_pi/firewall.py:32-34 | For every valid configuration the overlapping @CLIENT_IF@UPLINK_IF@ is rendered differently from one pass |
| Firewall.Render | src/amnesic_pi/firewall.py:20-39 | The loop of replacements and the check for leftovers, with its refusals |

## Left out

- Command lines, TOML loading of manifests, report rendering and error wording: errors keep only their class.
- `waive`, `record_decision`, `load_env`: single checks; a decision memo in the log is read by replay.
- Kernel, nftables, systemd and Tor behaviour, `verify.py`, shell procedures.
- JsonText.LoadsDumps: numbers are integers and the reader takes canonical text only.
- Rewrites.EveryLineCanBeReworded: the other text lists the keys in another order; spaces between tokens, which the Python reader also takes, are not read here.
- SchemaCodec.StatusRoundTrip: instants are integers, so time zones and ISO text are not modelled; a value of the wrong JSON type is refused with SchemaError where Python may raise TypeError or take a string apart into one-character items.
- Replay.ReplayLog: a text field of an entry that is missing or holds another JSON type reads as empty; the orchestrator writes none such.
- Audit.AuditLog.Append: a character counts as one byte, and write failures are not modelled.
- Dispatchers.Dispatcher.DispatchNode: the audit file is not corrupted by others while a dispatcher runs, so appending does not fail; other writers are modelled in AuditWriters only.
- Dispatchers.Dispatcher.ReclaimTask: the id drawn for the replacement is new to the memory.
- Dispatchers.Dispatcher.AssertShippable: the nodes named in the error are those of Unshippable; the wording is left out.
- `TaskRecord.history`, a list of log lines that nothing reads back.
- Tokens.MessageDecodes: `compare_digest` raises on non-ASCII text, and this model compares it.
- Ingress.IngressAtMostOnce: assumes no forged tag and key ids that are never drawn twice, and that digests hold no bar; so does Ingress.AcceptedInRun.
- Progress.NoDeadlock: the ids drawn for new tasks are well formed and new, as the generator makes them.
- Gates: the prose columns of the gate registry.
