# Verified model of the AI orchestrator's control plane

The orchestrator supervises command-line agents and keeps everything it decides in a durable store. This
project models the parts of it that carry its guarantees, and proves them for every input, every run, or every
reachable state:

- **PlanGraph** (`Graph`, `PlanGraph`, `PlanGraphStore`, `PlanGraphBatch`): the persisted dependency graph, its
  online cycle check, readiness, follow-ups of replans, and the serial batch that asks for ready nodes again
  after every node.
- **Action journal, leases and tool broker** (`ToolCalls`, `ActionJournal`, `LeaseProtocol`, `BrokerMachine`, `Secrets`,
  `ToolBroker`): the journal keyed by idempotency key, the guarded lease updates, what the classifier takes for a secret,
  and the broker that gates, replays and executes tool calls.
- **Approvals and their retries** (`ApprovalRetry`, `ApprovalHistories`, `ApprovalOverlaps`, `AskOverlaps`): which
  record a retry finds and what it runs, over histories in which retries overlap as they like; when an approval is
  named or orphaned; and what overlaps cost.
- **Supervisor** (`Supervisor`, `SupervisorLoop`): the loop that calls an agent, verifies, decides and stores,
  with operators, crashes and resumes between any two of its writes.
- **Policy** (`Policy`, `PolicyTable`): command segments, nested commands, wrapper peeling, the algebra of decisions, and
  what the default patterns match.
- **Event log** (`EventLog`) and **queue** (`Queue`, `QueueBatch`).
- **Configuration** (`Config`, `ConfigSetup`, `ConfigSections`): the line parser, the order of its sections, the round
  trip with the document that `setup` renders, and the parts that it does not render.

How to read it. A table is a sequence whose index gives the row id (`AUTOINCREMENT`, no deletes), or a set where
the primary key is the row. What the source updates in place is a `class` whose methods are proved equal to a
function of the old state; the laws are lemmas about those functions, and what each function writes or decides is also
stated over the columns and fields, without it. Protocols with crashes and interleavings
are step systems: any list of labels is a history, a label that does not fit where it comes up is skipped, so a
statement about every list is a statement about every history. `SupervisorLoop` and `ToolBroker` tie the two
forms together: each method is proved to make only moves of the step system. Timestamps are integers. The one
external answer a loop gets per turn (what an agent, a check or a run comes to) is a function from the turn to
the answer, so nothing is assumed about it. `shlex.split`, `list2cmdline` quoting, `int()` on text, the line
patterns of the queue loaders and text normalisation are parameters of the members that use them.

## What does not hold without conditions

Where the code meets a promise only under a condition, the condition is proved to be the exact one, or the failing
input is given.

- **A node keyed `replan-<id>`.** The follow-up loop inserts its edge without the cycle check. A user node that
  already holds the key of a follow-up can become both ends of a cycle (`PlanGraph.ReservedKeyCycle`). A run ends
  acyclic exactly when every follow-up call was safe where it ran (`PlanGraph.RunAcyclicIff`: the holder of the
  key is free, is the parent, or is not already upstream of the parent), and runs that leave those keys to follow-ups
  always are (`PlanGraph.RunKeepsInv`).
- **Overlapping brokers on one key.** The broker takes no lease before it executes, so two attempts that both find
  the record started both call the executor (`BrokerMachine.OverlapRunsTwice`). The calls under one record are at
  most one, plus the attempts abandoned before they completed the record, plus the attempts that began while
  another was under way (`BrokerMachine.AtMostOnce`). For a record nobody abandoned, that no attempt began while
  another was under way is the exact condition for its attempts to call the executor at most once
  (`BrokerMachine.OnceIffNoOverlap`).
- **Overlapping retries of one approval.** `approvals retry` takes no lock either, so two retries that overlap on an open
  record call the executor twice (`ApprovalOverlaps.OverlappingRetriesRunTwice` after any history,
  `ApprovalOverlaps.HeldCallRunsTwice` for any held call). The calls for an approval are at most one, plus the abandoned
  retries, plus those that began while another was under way (`ApprovalRetry.RetryCompletesOnce`); of retries that
  nobody abandoned, not to overlap is the exact condition (`ApprovalHistories.RetriesOnceIff`).
- **An ask beside another plain attempt on its key.** The last write of an attempt replaces the result of its record,
  and the lookup goes by that result. When two asks overlap on a key, the second takes the record from the first
  approval; the lookup then answers with the retry's own record, and the next retry calls the executor once more
  (`AskOverlaps.OverlappingAsksRunTwice`). When a run overlaps an ask, whichever began first, the run's last write erases
  the approval, and it is never found (`AskOverlaps.RunErasesAsk`, reached both ways in `AskOverlaps.RunsBesideAsks`).
  So the results about what a retry finds are over the histories in which no ask begins on a key while another plain
  attempt on it is under way, and no plain attempt goes on to execute while an ask on its key is. Everything else may
  overlap.
- **Approval ids and retry keys that come from elsewhere.** An executor that reports an approval id has its record found
  in place of the held call's (`AskOverlaps.ReportedIdMisleads`), and a plain call under a key ending in
  `:approval:<id>` makes the retry that uses the key replay that call (`AskOverlaps.TakenRetryKey`). The same histories
  exclude both.
- **A crash while an approval is asked for.** An approval is named by a record exactly when an attempt that carried it
  made its last write (`ApprovalHistories.NamedIffAsked`). A crash between creating the approval and that write orphans
  it for ever (`ApprovalHistories.CrashOrphans`).
- **A key used for two calls.** A known key keeps its record, so the approval of a second call under the key is looked
  up in the first call's record. If the first belongs to another task or iteration, the approval is never found; if not,
  a retry runs the first call in place of the one that was held and approved (`ApprovalRetry.ReusedKeyMisses`, for any
  two such calls). Over those histories, an approval is found exactly when the record of its key names it and was
  written for the asker's task and iteration, and what is rebuilt is the writer's call (`ApprovalRetry.RetryFindsIff`).
  When every key is used for one call, as the default keys are, which hash tool name, task, iteration and arguments, a
  retry finds and runs the call that was held (`ApprovalRetry.RetryRunsTheBlockedCall`).
- **A retried call whose type or name trims to `verification_command`.** Action types are trimmed when stored, and a call
  without a type takes its name for one, so a call that was not classified as a verification, because of surrounding
  white space or because it has no type and is named exactly so, is one after it is rebuilt
  (`ApprovalRetry.ReclassifiedCalls`). `ApprovalRetry.RebuildSameClass` proves that classification is kept exactly
  outside that family, and that whether a call is forbidden never changes.
- **A secret in the arguments beside a command.** The classifier looks for its markers in the name, the path, and the
  command or, only where the command is missing or blank, the argument vector. So no secret that the call names there
  ever reaches an executor (`Secrets.SecretsNeverExecute`), and one in an argument vector beside a command is not looked
  at (`Secrets.ArgvBesideCommand`). What is looked at is stated exactly by `Secrets.SecretIff`.
- **`max_iterations` below one.** The "Max iterations exhausted" tail is reached exactly there: it needs such a
  budget (`Supervisor.CallsBounded`) and an available agent then gets there (`Supervisor.TailReached`).

## Model

| member | source | states |
|---|---|---|
| `Graph.Upstream` | ai_orchestrator/storage/db.py:4074-4100 | the recursive closure query as a worklist: it terminates, and the set it collects is exactly the nodes upstream of the start by one edge or more |
| `Graph.AddEdgeAcyclicIff` | ai_orchestrator/storage/db.py:4074-4100 | adding an edge to an acyclic graph closes a cycle exactly when its dependency already reaches its dependent |
| `Graph.FreshNodeAcyclic` | ai_orchestrator/storage/db.py:3547-3643 | edges from a node that nothing points to never close a cycle, which is why inserting a node needs no check |
| `PlanGraph.RejectedIffCloses` | ai_orchestrator/storage/db.py:3880-3928 | between nodes of one graph an edge is refused exactly when it would close a cycle, and refused as a cycle exactly when it also is no self edge |
| `PlanGraph.AddNodeKeepsShape` | ai_orchestrator/storage/db.py:3547-3643 | adding a node keeps unique keys, edge ends in their own graph, every old edge, and acyclicity |
| `PlanGraph.AddDependencyKeepsShape` | ai_orchestrator/storage/db.py:3880-3928 | adding a dependency keeps the same, whatever it is given |
| `PlanGraph.FollowRowKeepsShape` | ai_orchestrator/storage/db.py:2129-2190 | one unchecked follow-up insertion keeps the tables whole, and keeps acyclicity exactly when its key's holder is not upstream of the parent |
| `PlanGraph.StepKeepsShape` | ai_orchestrator/storage/db.py:3452-3928 | every transaction keeps referential integrity and old edges; it keeps acyclicity exactly when it is safe, and only follow-up calls can be unsafe |
| `PlanGraph.RunAcyclicIff` | ai_orchestrator/storage/db.py:2097-2201 | for every sequence of transactions from the empty store and any keys: the tables are whole, and all graphs are acyclic exactly when each follow-up call was safe where it ran |
| `PlanGraph.StepKeepsInv` | ai_orchestrator/storage/db.py:3547-3928 | with `replan-<id>` keys left to follow-ups, every transaction is safe and keeps acyclicity and the ownership of those keys |
| `PlanGraph.RunKeepsInv` | ai_orchestrator/storage/db.py:3547-3928 | hence every run that leaves those keys alone ends with every graph acyclic and every edge inside its graph |
| `PlanGraph.ReservedKeyCycle` | ai_orchestrator/storage/db.py:2140-2190 | a run of three insertions and a replan decision reaches an acyclic store in which a user node keyed `replan-1` turns the next follow-up call into a cycle |
| `PlanGraph.FollowUpsTwice` | ai_orchestrator/storage/db.py:2097-2201 | creating follow-ups is idempotent: the second call inserts no node and no edge, in any store |
| `PlanGraph.FollowRowFollows` | ai_orchestrator/storage/db.py:2140-2190 | a turn leaves its decision's node and edge in place, disturbs no other decision's node, and changes nothing if they were there |
| `PlanGraph.FollowUpsWrite` | ai_orchestrator/storage/db.py:2097-2201 | what a follow-up call writes, over the columns: every old row stays, each selected decision then has a node under `replan-<id>` with an edge to its parent, and every new node and edge is that of a selected decision, each new node pending, with the task, the parent as its source and type `repair` |
| `PlanGraphStore.DecideIsReady` | ai_orchestrator/storage/db.py:3733-3774 | a readiness decision says ready exactly for nodes the ready query selects, and says blocked exactly when a pending node has an open dependency |
| `PlanGraphStore.AddedNode` | ai_orchestrator/storage/db.py:3547-3643 | an insertion adds one edge for each node asked for and no other, so a pending new node is ready exactly when all of them are done |
| `PlanGraphStore.ReadinessAgrees` | ai_orchestrator/storage/db.py:3715-3774 | the ready rows of the readiness report are the ready list, in the same order |
| `PlanGraphStore.Store.CreateGraph` | ai_orchestrator/storage/db.py:3452-3482 | a blank title is refused, then a status outside the vocabulary, with nothing written; else a fresh graph id with its status, nothing else changed |
| `PlanGraphStore.Store.AddPlanGraphNode` | ai_orchestrator/storage/db.py:3547-3643 | succeeds exactly for non-blank key, title and type, attempts not negative, a known graph that holds every node named, and a key new to it; then the row asked for and one edge to each node of `depends_on` are added and nothing else, and a pending node is ready exactly when all of those are done; blank texts are told apart, and an error writes nothing |
| `PlanGraphStore.Store.CreatesCycle` | ai_orchestrator/storage/db.py:4074-4100 | true exactly when the dependent is upstream of the dependency |
| `PlanGraphStore.Store.AddPlanGraphDependency` | ai_orchestrator/storage/db.py:3880-3928 | the whole new state, each refusal told by the ids and rows, one edge more on success and none otherwise, and, in an acyclic store, refusal exactly for edges that close a cycle |
| `PlanGraphStore.Store.UpdateStatus` | ai_orchestrator/storage/db.py:3821-3878 | both ways of giving attempts at once and negative attempts are refused with nothing written; else the row with its status, attempts and task id updated, or nothing for an unknown node |
| `PlanGraphStore.Store.RecordReplanDecision` | ai_orchestrator/storage/db.py:1342-1403 | a blank source and a node without its graph are refused; else a decision is recorded unless its link names an unknown graph or a node of another graph |
| `PlanGraphStore.Store.LinkReplanDecisions` | ai_orchestrator/storage/db.py:2072-2095 | the task's unlinked decisions, and only those, get the link; the answer lists all decisions of the task |
| `PlanGraphStore.Store.CreateFollowUps` | ai_orchestrator/storage/db.py:2097-2201 | one transaction or none: refused for an unknown graph or a parent outside it with nothing written; else every selected decision has its node among the ids answered, each id is such a node, and no row or edge is written besides follow-ups |
| `PlanGraphStore.Store.ListReadiness` | ai_orchestrator/storage/db.py:3733-3774 | one decision per node of the graph in id order, whose ready rows are the ready list |
| `PlanGraphStore.Store.ListReady` | ai_orchestrator/storage/db.py:3715-3731 | refused for a negative limit, else the longest prefix of the ready list within the limit |
| `PlanGraphBatch.Progress` | ai_orchestrator/storage/db.py:3715-3774 | in an acyclic graph every pending node is ready or reaches, through dependencies that are not done, a node that is ready or is in progress, blocked, failed or skipped |
| `PlanGraphBatch.SomethingReady` | ai_orchestrator/storage/db.py:3715-3774 | if all nodes are pending or done and one is pending, the ready list is not empty |
| `PlanGraphBatch.NewTask` | ai_orchestrator/storage/db.py:695-706 | the task a run creates is one that no replan decision names yet |
| `PlanGraphBatch.RunNodeEffect` | ai_orchestrator/cli/app.py:6410-6458 | running a node keeps the graph invariant, leaves every other old row as it was, gives old nodes no new edges, and ends done or blocked by the outcome |
| `PlanGraphBatch.RunNodeWrites` | ai_orchestrator/cli/app.py:6410-6458 | exactly what a node run leaves: one attempt more, done or blocked, with its task; one decision per replan of the run, linked to the graph and the node; as many new pending repair nodes keyed by those decisions, each with one edge to the node that ran, and no other row or edge; a refused run only blocks its node |
| `PlanGraphBatch.BatchRunsInOrder` | ai_orchestrator/cli/app.py:6331-6349 | a batch runs distinct nodes in topological order, each ready when it starts, with the same dependencies at the end as at its start and all of them done throughout, even while follow-ups are inserted |
| `PlanGraphBatch.BatchCompletes` | ai_orchestrator/cli/app.py:6331-6349 | if nothing is stuck, every run succeeds and none has replans, a batch as long as the pending nodes ends with all nodes done |
| `PlanGraphBatch.BatchKeeps` | ai_orchestrator/cli/app.py:6331-6349 | a batch keeps every old replan, edge, key, type and graph, and changes the rows of the nodes it ran only |
| `PlanGraphBatch.BatchFollowsUp` | ai_orchestrator/cli/app.py:6331-6349 | at the end of a batch the decisions and nodes have grown by the replans of its runs in total, and each replan of each run has its linked decision and its repair node with an edge to the node that ran |
| `PlanGraphBatch.BatchGoesOn` | ai_orchestrator/cli/app.py:6331-6349 | each node a batch runs is the ready one with the lowest id; all runs but the last end done, and so does the last unless it stopped the batch; one that was not stopped used up its budget or left nothing ready |
| `PlanGraphBatch.RunStoredNode` | ai_orchestrator/cli/app.py:6410-6458 | the store writes of one node run compose to the node-run function, told by its columns: the run node, its decisions, the follow-up nodes and their edges, or a blocked row alone |
| `PlanGraphBatch.RunBatch` | ai_orchestrator/cli/app.py:6299-6349 | nothing for an unknown graph or a budget below one, nothing written without execute; else the batch function's final state, processed nodes and exit code, run in order, going on exactly while runs end done, with the invariant kept and the follow-ups of every replan in the final tables |
| `ToolCalls.DestructiveForbidden` | ai_orchestrator/tools/types.py:315-333 | no argument or name takes a destructive-tier call out of the forbidden classes |
| `Secrets.SecretIff` | ai_orchestrator/tools/types.py:387-411 | a call is taken for secret exactly when one of the nine markers stands, in any letter case, in its name, its path, its command, or, where that is missing or blank, its arguments joined by blanks |
| `Secrets.ArgvBesideCommand` | ai_orchestrator/tools/types.py:360-369 | beside a command that is not blank the argument vector changes nothing about that |
| `Secrets.GateIff` | ai_orchestrator/tools/broker.py:469-495 | the gate by the fields of the call: denied for a denying policy, a secret or the destructive tier, held for an asking policy or any tier but read, and let through otherwise |
| `Secrets.SecretsNeverExecute` | ai_orchestrator/tools/broker.py:34-328 | after any history no attempt at the executor carries a call that names a secret or is destructive, nor, unless approved, one above the read tier |
| `Secrets.ClassIs` | ai_orchestrator/tools/types.py:315-333 | each class of a call by its fields: secret, then destructive, then the verification type or name prefix, then a command, then the tier |
| `Secrets.GitIff` | ai_orchestrator/tools/types.py:372-384 | a command is a git command exactly when its first word, that of the argument vector before that of the command, reads git in any letter case |
| `ActionJournal.ActionStore.RecordAction` | ai_orchestrator/storage/db.py:911-1017 | blank keys and types are refused; a key that some row holds writes nothing and answers with that row; else one row is added, key and type trimmed and without a lease; keys stay unique |
| `ActionJournal.ActionStore.CompleteActionRecord` | ai_orchestrator/storage/db.py:1019-1049 | the record gets its status and result and loses its lease; all others stay |
| `ActionJournal.ActionStore.AcquireActionLease` | ai_orchestrator/storage/db.py:1051-1093 | a blank owner or a time to live below one is refused; else granted exactly when the record is started and its lease is free, expired or the caller's own, and then owned until now plus the time to live; else nothing changes |
| `ActionJournal.ActionStore.HeartbeatActionLease` | ai_orchestrator/storage/db.py:1095-1130 | the same refusals; else granted exactly to the owner of a started record whose lease has not expired, extending it; else nothing changes |
| `ActionJournal.ActionStore.ReleaseActionLease` | ai_orchestrator/storage/db.py:1132-1155 | a blank owner is refused; else granted exactly to the owner, clearing all three lease columns; else nothing changes |
| `ActionJournal.ActionStore.RecordApprovalRetry` | ai_orchestrator/storage/db.py:2965-2996 | one more retry of a known approval, with what it came to; every other approval's columns stay |
| `LeaseProtocol.LeaseStaysWhole` | ai_orchestrator/storage/db.py:1019-1155 | after any trace owner, expiry and heartbeat are all null or all set, and a record that is not started holds no lease |
| `LeaseProtocol.GrantStands` | ai_orchestrator/storage/db.py:1051-1155 | with a clock that never goes back, a grant that its owner does not renew or give up stands until it expires or the record is completed, whatever others try |
| `LeaseProtocol.MutualExclusion` | ai_orchestrator/storage/db.py:1051-1155 | if another owner acquires after that, the last granted expiry is not later than that moment |
| `LeaseProtocol.OwnerSinceAcquire` | ai_orchestrator/storage/db.py:1051-1155 | whoever owns the record acquired it, has owned it at every step since, and nobody acquired it in between |
| `LeaseProtocol.HeartbeatProvesOwnership` | ai_orchestrator/storage/db.py:1095-1130 | a successful heartbeat proves that ownership was unbroken since the owner's last acquire |
| `LeaseProtocol.ExpiredIffOpenToOthers` | ai_orchestrator/storage/db.py:1157-1192 | a lease is listed as expired exactly when another owner could acquire the record |
| `BrokerMachine.NextKeeps` | ai_orchestrator/tools/broker.py:34-389 | every write and every executor call keeps the per-record counts, the risk containment and the safety of what executes, and never reopens a record; `record_result` of any call with any result is one of the writes |
| `BrokerMachine.RunKeeps` | ai_orchestrator/tools/broker.py:34-389 | the same over every history of overlapping runs, approved runs, audits, crashes and recoveries under any policies |
| `BrokerMachine.AtMostOnce` | ai_orchestrator/tools/broker.py:123-328 | executor calls under one record number at most one, plus abandoned attempts, plus attempts that began while another was under way |
| `BrokerMachine.NeverRestarted` | ai_orchestrator/tools/broker.py:594-619 | once a record leaves started it stays there for ever and gets no new executing attempt; key, payload and policy of a record never change |
| `BrokerMachine.RecoveryCloses` | ai_orchestrator/cli/app.py:2162-2174 | a recovery fails a started record, drops its result and lease and nothing else, and after it no history starts the record or executes for it again |
| `BrokerMachine.OnlySafeCallsExecute` | ai_orchestrator/tools/broker.py:469-495 | whatever is handed to an executor is neither destructive nor secret-sensitive nor dangerous, and is read-tier unless approved |
| `BrokerMachine.OverlapRunsTwice` | ai_orchestrator/tools/broker.py:123-170 | the overlap term is needed: two overlapping runs of one call make two executor calls under one record |
| `BrokerMachine.OnceIffNoOverlap` | ai_orchestrator/tools/broker.py:123-328 | for a record nobody abandoned, after any history: no attempt began while another was under way exactly when its attempts under way cannot bring its executor calls above one |
| `BrokerMachine.UnsafeActionCount` | ai_orchestrator/cli/app.py:2066-2089 | the counter loop counts exactly the rows whose stored class or tier is risky and that were neither denied nor held |
| `BrokerMachine.UnsafeBounded` | ai_orchestrator/cli/app.py:2066-2089 | over any history that count is at most the number of non-denied approved runs of network-tier calls, plus the recorded results of network-tier calls that were neither denied nor held |
| `BrokerMachine.UnsafeZero` | ai_orchestrator/cli/app.py:2066-2089 | hence plain runs, recoveries, and approved runs and recorded results of other than network-tier calls, the supervisor's verifications among them, leave it at zero |
| `ToolBroker.RunGrantedPath` | ai_orchestrator/tools/broker.py:34-183 | the tables a `run` leaves that the gate lets through: a started record is executed once and completed with the result, any other is replayed |
| `ToolBroker.RunBlockedPath` | ai_orchestrator/tools/broker.py:34-183 | the tables a `run` leaves that the gate stops, as a path of the step system: it never executes, and a held one completes its record with the approval it names or a new one |
| `ToolBroker.ApprovedPaths` | ai_orchestrator/tools/broker.py:185-328 | the same for an uninterrupted `run_approved` |
| `ToolBroker.Broker.CallExecutor` | ai_orchestrator/tools/broker.py:161-173 | one executor result, with the approval id put in place where there is one, completes the record |
| `ToolBroker.Broker.ReplayOrExecute` | ai_orchestrator/tools/broker.py:134-173 | a finished record is replayed and nothing changes; a started one makes exactly one executor call and is completed with what it came to; either way the journal then holds the result under the record's key |
| `ToolBroker.Broker.AskApproval` | ai_orchestrator/tools/broker.py:75-121 | a held call reuses the approval its record names, else creates one for its task and iteration, and the record names it |
| `ToolBroker.Broker.Run` | ai_orchestrator/tools/broker.py:34-183 | by the fields of the call: denied or held exactly under the gate's conditions, with no call; a held one names the approval of its record or a new one of its task and iteration; otherwise executed once, or replayed if the key's record is finished; a new row describes the call and its result, a row that held the key gets the result only if the run closes it, and no other row changes; all of it a path of the step system |
| `ToolBroker.Broker.RunApproved` | ai_orchestrator/tools/broker.py:185-328 | an approval id below one is refused with nothing written; a denied call is stored as denied and executes nothing; any other, held tiers included, is executed once or replayed under the key followed by `:approval:<id>`, with rows written as by `run` and the approval in the result; all of it a path of the step system |
| `ToolBroker.Broker.RecordResult` | ai_orchestrator/tools/broker.py:330-389 | a call the gate denies is answered and stored as denied, a success above the read tier as held, any other result as given; a row describing the call and that result is added unless the key has one |
| `ApprovalRetry.RebuildSameCall` | ai_orchestrator/cli/app.py:4546-4567 | the record of a call gives back that call with key and type trimmed, and exactly that call where they are trimmed already |
| `ApprovalRetry.RebuildSameClass` | ai_orchestrator/cli/app.py:4546-4567 | it is classified as the original exactly outside the `verification_command` family, and is forbidden exactly when the original is |
| `ApprovalRetry.ReclassifiedCalls` | ai_orchestrator/cli/app.py:4546-4567 | a call named `verification_command` without a type is in the reclassified family, and so is one with a blank before that type |
| `ApprovalRetry.FindAction` | ai_orchestrator/cli/app.py:4522-4533 | the lookup loop finds the first listed record of the task and iteration whose result names the approval, or there is none |
| `ApprovalRetry.SerialKeeps` | ai_orchestrator/cli/app.py:4346-4406 | every step of a history in which asks keep apart, retries of one approval overlapping or not, keeps which records are blocked originals and which are retry records, and every named approval |
| `ApprovalRetry.RetryFindsIff` | ai_orchestrator/cli/app.py:4522-4567 | after any such history, for every approval the broker asked for: the lookup answers with the record of the asking call's key, never a retry's own, exactly when that record names the approval and was written by a call of the asker's task and iteration; what is rebuilt is the writer's call, so it is the asking call exactly when the two are the same up to trimming |
| `ApprovalRetry.AskedStaysNamed` | ai_orchestrator/tools/broker.py:93-121 | once the asking attempt made its last write, its record names the approval for ever, whatever comes after |
| `ApprovalRetry.RetryFindsBlockedAction` | ai_orchestrator/cli/app.py:4522-4533 | so from that write on, after any number of retries and anything in between, the approval is found exactly when the record of its key was written for the asker's task and iteration |
| `ApprovalRetry.RetryRunsTheBlockedCall` | ai_orchestrator/cli/app.py:4522-4567 | if every key is used for one call, the approval is found and the call rebuilt from its record is the call that was held, up to trimming |
| `ApprovalRetry.ReusedKeyMisses` | ai_orchestrator/tools/broker.py:93-120 | the failing inputs: of any two calls sharing a key, the first denied and the second held, the second's approval finds nothing if their task or iteration differs, and else the first call's record |
| `ApprovalRetry.RetryCompletesOnce` | ai_orchestrator/cli/app.py:4346-4406 | all retries of one approval, of whatever source, share one record; it sees the executor at most once, plus once per crashed retry, plus once per retry that began while another was under way, and completes at most once plus the latter |
| `ApprovalHistories.NamedIffAsked` | ai_orchestrator/tools/broker.py:93-121 | after any such history a record names an approval exactly when some attempt that carried it made its last write |
| `ApprovalHistories.CrashOrphans` | ai_orchestrator/tools/broker.py:97-121 | a crash between the creation of an approval and the last write of its ask leaves it unnamed and unfound whatever comes after |
| `ApprovalHistories.RetriesOnceIff` | ai_orchestrator/cli/app.py:4346-4406 | of retries nobody abandoned: none began while another was under way exactly when those under way cannot bring the executor calls for the approval above one |
| `ApprovalHistories.ApartRetriesCompleteOnce` | ai_orchestrator/cli/app.py:4346-4406 | if each retry of an approval begins with no other under way, its call completes at most once and is made at most once plus once per crashed retry |
| `ApprovalHistories.UnsafeReached` | ai_orchestrator/cli/app.py:2066-2089 | the bound on the unsafe count is reached: n approved runs of a network-tier call leave a count of n |
| `ApprovalOverlaps.RetriedCallStays` | ai_orchestrator/cli/app.py:4522-4567 | once there is a call a retry would run, no step changes it, so it does not matter when the lookup is made |
| `ApprovalOverlaps.OverlappingRetriesRunTwice` | ai_orchestrator/cli/app.py:4346-4406 | the overlap term is needed: after any history, two retries of an approval that overlap on an open record make two executor calls, with no more abandoned |
| `ApprovalOverlaps.HeldCallRunsTwice` | ai_orchestrator/cli/app.py:4346-4406 | and such a history exists for any call that can be held |
| `AskOverlaps.OverlappingAsksRunTwice` | ai_orchestrator/tools/broker.py:93-121 | a failing input for any held call: after two overlapping asks the first approval is found in its retry's own record, and the next retry calls the executor again under a new key, though nothing was abandoned and no retry overlapped |
| `AskOverlaps.RunErasesAsk` | ai_orchestrator/storage/db.py:1019-1049 | wherever a run is about to execute while an ask is under way on its record, finishing the ask and then the run leaves the approval in no record |
| `AskOverlaps.RunsBesideAsks` | ai_orchestrator/tools/broker.py:123-173 | such a state is reached for any read-tier call, with the run first and with the ask first, and both lose the approval |
| `AskOverlaps.ReportedIdMisleads` | ai_orchestrator/cli/app.py:4522-4533 | if an executor reports the approval id a later held call of the same task gets, a retry of that approval runs the executor's call |
| `AskOverlaps.TakenRetryKey` | ai_orchestrator/tools/broker.py:208-254 | if a plain call was run under the key of a retry, that retry executes nothing and answers with the plain call's result |
| `ApprovalRetry.Retry` | ai_orchestrator/cli/app.py:4214-4406 | an approval that is not granted, of an unknown task, without a record, or whose call cannot be rebuilt or is not registered, changes nothing, and only those do; any other is the approved run of the call told by the found record's columns, or for another source of its command as a write-tier process call, and one more retry is noted |
| `Supervisor.DoneIff` | ai_orchestrator/core/decision.py:21-76 | done is decided exactly when the agent succeeded and there are checks, all passed |
| `Supervisor.ContinueIff` | ai_orchestrator/core/decision.py:21-76 | another attempt is decided exactly when the agent succeeded, attempts are left, some check failed and none was denied or held by policy |
| `Supervisor.DoKeepsInv` | ai_orchestrator/core/supervisor.py:99-801 | every store write, agent call, crash, resume and operator action keeps numbering, replan rule, call count and verification gate |
| `Supervisor.DoneIsVerified` | ai_orchestrator/reporting/markdown.py:628-646 | in every reachable store state a done task has a last iteration decided done with a non-empty, all-passed set of stored runs, which is the report's verified verdict |
| `Supervisor.IterationsRight` | ai_orchestrator/core/supervisor.py:1020-1046 | in every reachable state iteration indices are exactly 1 to n, and a finished iteration has one replan decision if some stored check failed other than by policy, none otherwise |
| `Supervisor.CallsBounded` | ai_orchestrator/core/supervisor.py:225-324 | a run makes at most `max_iterations` agent calls and reaches the exhausted tail only with a budget below one |
| `Supervisor.TailReached` | ai_orchestrator/core/supervisor.py:784-801 | with a budget below one the tail is reached |
| `SupervisorLoop.TaskStore.AddIteration` | ai_orchestrator/storage/db.py:2604-2682 | one iteration is appended with its index and decision, no runs and no replans |
| `SupervisorLoop.TaskStore.AddVerificationRun` | ai_orchestrator/storage/db.py:2684-2736 | the run is added to the last iteration, everything else stays |
| `SupervisorLoop.TaskStore.RecordReplanDecision` | ai_orchestrator/core/supervisor.py:1020-1046 | one replan is recorded exactly for a decision that is not done with a check that failed on its own account |
| `SupervisorLoop.Loop.StoreOutcome` | ai_orchestrator/core/supervisor.py:582-676 | the writes after a decision, move by move and none skipped: the iteration, the operator's move if there is one, each check's run, the replan decision, the end |
| `SupervisorLoop.Loop.BeforeAgent` | ai_orchestrator/core/supervisor.py:227-273 | stops exactly for the runtime budget first, else for a task cancelled by then; the moves made and the status left are stated exactly |
| `SupervisorLoop.Loop.AfterAgent` | ai_orchestrator/core/supervisor.py:373-450 | stops exactly for a cancelled agent or task, else, after a success, for the budget, else for a late cancel; the moves and the status are stated exactly |
| `SupervisorLoop.Loop.JudgeAttempt` | ai_orchestrator/core/supervisor.py:524-580 | done exactly for a success with checks, all passed, and where required a changed file or repository; continue exactly for a failed check with none by policy, attempts left, and no stall; else blocked; the judgement, the count and the move are the reference's |
| `SupervisorLoop.Loop.Conclude` | ai_orchestrator/core/supervisor.py:678-782 | a done decision ends the run as done, a blocked one as blocked, a continue goes on; the moves and the status are stated exactly |
| `SupervisorLoop.Loop.Attempt` | ai_orchestrator/core/supervisor.py:225-782 | one attempt as a whole: how it stops, whether it called the agent, the count and every move are the reference's |
| `SupervisorLoop.Loop.Run` | ai_orchestrator/core/supervisor.py:99-280 | result, number of agent calls, no-change count and every move are those of the reference run over the same turns, and how it ends is told by the turns alone; the store holds the returned status, done means verified, and the session is stopped once after start and never otherwise |
| `SupervisorLoop.Loop.RunLoop` | ai_orchestrator/core/supervisor.py:225-801 | the same for the loop itself, from any attempt and any state of the detector |
| `SupervisorLoop.StalledIff` | ai_orchestrator/core/supervisor.py:551-580 | the detector blocks an attempt exactly when its limit is on, the attempt has a signature, and the last `max_no_change_iterations` signatures are all that one |
| `SupervisorLoop.JudgedDecides` | ai_orchestrator/core/supervisor.py:524-580 | the decision with both overrides, by the fields of the turn and the signatures seen: exactly when it is done, exactly when it is to go on, and blocked otherwise |
| `SupervisorLoop.RunEnds` | ai_orchestrator/core/supervisor.py:225-801 | how a run ends, told by its turns: after attempts that all failed on checks without a stall or a stop, one ends it; done exactly if that one was judged with all checks passed and the required change, cancelled exactly for a cancel seen before the budget stops it, blocked otherwise, a stall included; the calls and judged attempts are counted by it |
| `SupervisorLoop.NoChangeIsTrailingRun` | ai_orchestrator/core/supervisor.py:551-580 | whatever the turns, the no-change count a run ends with is the length of the run of equal signatures at the end of those of its judged continue iterations with an observed snapshot |
| `SupervisorLoop.AttemptsCount` | ai_orchestrator/core/supervisor.py:225-580 | the calls and the judged attempts counted are the agent calls and the judgements among the moves, at most one call is not judged, the tail is reached exactly from past the budget, and the loop neither crashes nor begins again |
| `SupervisorLoop.RunCalls` | ai_orchestrator/core/supervisor.py:99-324 | the same for a whole run: at most `max_iterations` calls, one begin, at its front, and the tail exactly for an available, uncancelled run with a budget below one |
| `SupervisorLoop.PathKeeps` | ai_orchestrator/core/supervisor.py:99-801 | along such a path, on which no move is skipped, done means verified, and the call bounds hold |
| `Policy.CommandSegments` | ai_orchestrator/policy/engine.py:99-112 | the token loop gives the non-empty stretches between separators |
| `Policy.SegmentsJoin` | ai_orchestrator/policy/engine.py:99-112 | the segments of two token lists joined by a separator are those of the one followed by those of the other |
| `Policy.SkipWrapperOptions` | ai_orchestrator/policy/engine.py:138-153 | the index loop terminates inside the tokens and skips exactly the leading options and their values |
| `Policy.PeelWrappers` | ai_orchestrator/policy/engine.py:124-136 | the peeling loop terminates and gives a suffix that starts with neither an assignment nor a wrapper |
| `Policy.PeelIdempotent` | ai_orchestrator/policy/engine.py:124-136 | peeling twice is peeling once |
| `Policy.Engine.PolicySegments` | ai_orchestrator/policy/engine.py:114-122 | the segments judged are the peeled ones of the tokens and then of every nested command |
| `Policy.StrongestIsMax` | ai_orchestrator/policy/engine.py:50-70 | the decision of a list of segments is the maximum of the decisions of its peeled segments, allow for none |
| `Policy.Engine.EvaluateTokens` | ai_orchestrator/policy/engine.py:50-70 | the early-return passes give that maximum, raised by custom patterns: all denials before any ask |
| `Policy.DefaultIsHomomorphism` | ai_orchestrator/policy/engine.py:50-122 | with default patterns the action on two token lists joined by a separator is the stronger of their actions, for all token lists and nested commands |
| `Policy.JoiningNeverWeakens` | ai_orchestrator/policy/engine.py:50-122 | with custom patterns it is at least that |
| `Policy.PatternsNeverWeaken` | ai_orchestrator/policy/engine.py:26-88 | adding configured deny and ask patterns never weakens a decision |
| `Policy.ItemsPeeled` | ai_orchestrator/policy/engine.py:124-159 | a prefix of wrappers, assignments, wrapper options and double dashes peels away down to the plain command |
| `Policy.WrappersAreTransparent` | ai_orchestrator/policy/engine.py:114-159 | with default patterns such a prefix of white-space-free tokens leaves the action of the bare command unchanged, whatever follows it |
| `PolicyTable.CalledIff` | ai_orchestrator/policy/engine.py:220-224 | a token names a command exactly when that name stands, in any letter case and with or without `.exe`, after its last slash of either kind and inside its quotes |
| `PolicyTable.SegmentTable` | ai_orchestrator/policy/engine.py:161-224 | the default patterns on one peeled segment: exactly which are denied and which are asked about, by the names and arguments that stand in it |
| `PolicyTable.SegmentsAre` | ai_orchestrator/policy/engine.py:99-112 | the segments are exactly the non-empty stretches between separators or the ends |
| `PolicyTable.NestedAre` | ai_orchestrator/policy/engine.py:114-122 | the nested segments are exactly those of what a token with white space splits into, where that is more than the token |
| `PolicyTable.DefaultIff` | ai_orchestrator/policy/engine.py:50-122 | a command is denied by default exactly if some own or nested segment is once peeled, and allowed exactly if all are |
| `PolicyTable.ActionIff` | ai_orchestrator/policy/engine.py:26-88 | the whole decision: denied exactly by default or for a denying pattern in the text, allowed exactly if neither the defaults nor a pattern of either list objects |
| `PolicyTable.WrapperIff` | ai_orchestrator/policy/engine.py:124-136 | a token is peeled as a wrapper exactly if it names one of the eight |
| `PolicyTable.ValueOptions` | ai_orchestrator/policy/engine.py:138-153 | which options take the next token as their value, wrapper by wrapper |
| `PolicyTable.AssignmentIff` | ai_orchestrator/policy/engine.py:155-159 | a token is peeled as an assignment exactly if a name of word characters stands before an equals sign in it |
| `EventLog.Log.AppendTaskEvent` | ai_orchestrator/storage/db.py:738-851 | a blank type or actor is refused; a key that the task already used answers with the stored event and writes nothing; else an event with the trimmed texts and a sequence above all of the task's is appended |
| `EventLog.Log.ListTaskEvents` | ai_orchestrator/storage/db.py:853-879 | the task's events in order |
| `EventLog.AppendKeepsLogs` | ai_orchestrator/storage/db.py:738-851 | an append keeps every task's log gap-free with distinct keys and leaves other tasks' logs untouched |
| `EventLog.LogsStayWhole` | ai_orchestrator/storage/db.py:738-851 | after any appends each task's sequences are 1 to n in insertion order and its keys are distinct |
| `EventLog.EventsStay` | ai_orchestrator/storage/db.py:738-851 | stored events never change or move |
| `EventLog.RepeatedKeyFindsFirst` | ai_orchestrator/storage/db.py:738-851 | however much later, a repeated key answers with the first event and writes nothing |
| `Queue.LoadPlanTasks` | ai_orchestrator/autopilot/queue.py:49-84 | the loop gives the checkbox tasks, and the numbered ones of the implementation track, in line order |
| `Queue.LoadBacklogTasks` | ai_orchestrator/autopilot/queue.py:87-143 | the loop with its open item gives each bullet of a wanted section with the continuation lines that follow it |
| `Queue.LoadersGiveOneTaskPerLine` | ai_orchestrator/autopilot/queue.py:49-143 | no file gives two tasks on one line |
| `Queue.PlanTasksAre` | ai_orchestrator/autopilot/queue.py:49-84 | the plan's tasks are exactly the lines that offer one, a checkbox anywhere or a number in the implementation track, each under the header last seen |
| `Queue.BacklogTasksAre` | ai_orchestrator/autopilot/queue.py:87-143 | the backlog's tasks are exactly the bullets under a wanted header whose text, with its continuation lines joined, is not empty and does not say that nothing is open |
| `Queue.SyncTwice` | ai_orchestrator/autopilot/queue.py:203-260 | a sync keeps every row and leaves each task recorded on its line; a second one records nothing, for any prior queue |
| `Queue.SyncAdds` | ai_orchestrator/autopilot/queue.py:203-236 | a sync adds only created items without a task, each from a task of the file whose line last held something else |
| `Queue.RefreshTwice` | ai_orchestrator/autopilot/queue.py:263-308 | refreshing changes line numbers only; afterwards nothing is shifted and a second refresh changes nothing |
| `Queue.ShiftedIff` | ai_orchestrator/autopilot/queue.py:263-308 | an item is shifted exactly if it is created and the only such one of its file with its section and text, and exactly one task of the file has these, on another line; it moves to that line |
| `Queue.StaleItems` | ai_orchestrator/cli/app.py:5045-5065 | the loop with its per-file cache lists exactly the created items whose line and text are no open task of their file |
| `Queue.RefreshCuresStale` | ai_orchestrator/cli/app.py:5045-5065 | after a refresh the stale items are exactly those that were stale and not shifted |
| `QueueBatch.Store.SyncItems` | ai_orchestrator/autopilot/queue.py:203-236 | records exactly the tasks whose line last held something else, as created items without a task, against the queue as it was read |
| `QueueBatch.Store.RefreshRefs` | ai_orchestrator/autopilot/queue.py:263-308 | reports exactly the shifted items and moves them only when asked to apply |
| `QueueBatch.Store.UpdateSourceRef` | ai_orchestrator/storage/db.py:3348-3381 | moves a row to the line and section given exactly when it is still created |
| `QueueBatch.RunTakesFirst` | ai_orchestrator/cli/app.py:7556-7636 | running the first created item takes it, and only it, off the listing and changes no other row |
| `QueueBatch.ListingOrder` | ai_orchestrator/storage/db.py:3225-3263 | the listing holds exactly the rows of the file with the status, ordered by line and then by id |
| `QueueBatch.BatchRunsPrefix` | ai_orchestrator/cli/app.py:7556-7636 | the items a batch runs by asking again are a prefix of those selected at its start, all but a last failure are done, and no other row changes |
| `QueueBatch.BatchRunsWhile` | ai_orchestrator/cli/app.py:7556-7636 | the items run are the first created ones in order up to and including the first failure, every row they leave is what its outcome says, and without a failure as many as the budget allows are run |
| `QueueBatch.SelectionAfterBatch` | ai_orchestrator/cli/app.py:7448-7454 | among the selected items exactly those run are finished, and only the one that stopped the batch is blocked |
| `QueueBatch.RecountIsRun` | ai_orchestrator/cli/app.py:7448-7454 | counting finished items again gives the number of items run |
| `QueueBatch.CountIs` | ai_orchestrator/cli/app.py:7448-7454 | the recount counts exactly the positions of selected items that are done, blocked or skipped |
| `QueueBatch.LettersStayUnique` | ai_orchestrator/cli/app.py:7421-7445 | a dead-letter pass never gives an item a second letter |
| `QueueBatch.AtMostOneLetter` | ai_orchestrator/cli/app.py:7421-7445 | with at most one blocked item selected, a pass adds at most one letter and removes none |
| `QueueBatch.LettersAre` | ai_orchestrator/cli/app.py:7421-7445 | after a pass exactly the blocked selected items, and those that had one before, have a letter, and a new letter carries the attempts given |
| `QueueBatch.Select` | ai_orchestrator/cli/app.py:7833-7860 | the first created items of the file, or exactly the item asked for if it is a created item of that file, else nothing |
| `QueueBatch.RotationIsBatch` | ai_orchestrator/cli/app.py:7652-7766 | fixing the first created items at the start, as rotated worktrees do, runs the same items with the same rows at the end as asking for the next one every time |
| `QueueBatch.Store.RunBatch` | ai_orchestrator/cli/app.py:7498-7766 | a budget below one, an unselectable item, a missing base or too few worktrees changes nothing and fails, and nothing else does so before an item is run; a dry run changes nothing; an item id runs that item only; else, rotated or not, the batch function's final rows, processed items and exit code |
| `QueueBatch.Store.RecordDeadLetters` | ai_orchestrator/cli/app.py:7421-7445 | nothing when more attempts are allowed; else exactly the blocked selected items get a letter if they had none, and the answer is how many are new |
| `QueueBatch.Store.ProcessedCount` | ai_orchestrator/cli/app.py:7448-7454 | how many selected items exist and are done, blocked or skipped |
| `QueueBatch.Store.RunLoop` | ai_orchestrator/cli/app.py:7269-7370 | budgets below one do nothing, a refusing preflight and a dry run write only the ledger; else as many of the first created items are selected as both budgets allow, and run in order up to and including the first failure, each leaving the row its outcome says; the code is 0 exactly without a failure, the processed count is that of the items run, dead letters are the new ones, at most one, and no item ever has two |
| `Config.ParseMinimalConfig` | ai_orchestrator/config/loader.py:107-448 | the line loop, which finishes only the open section at a header and lets unclaimed lines fall through to the verification commands, equals the parser that hands each line to its own section |
| `Config.LineKeepsOneOpen` | ai_orchestrator/config/loader.py:143-418 | between any two lines only the current section has anything open or any flag up |
| `Config.LinesAreLocal` | ai_orchestrator/config/loader.py:178-418 | the lines of a section read and change the results of that section only |
| `Config.DocumentIsBlocks` | ai_orchestrator/config/loader.py:149-176 | a document is its sections read one after the other, each from a settled state |
| `Config.SectionDecides` | ai_orchestrator/config/loader.py:149-176 | what a document with distinct sections says about a section is what that section alone says |
| `Config.SectionOrderIndependence` | ai_orchestrator/config/loader.py:107-448 | files made of the same distinct sections parse to the same configuration in whatever order the sections come and whatever stands before the first, agent profiles resolved |
| `ConfigSetup.RowRead` | ai_orchestrator/config/loader.py:143-148 | a rendered line is read as its text at its indent, a gap is not read, and neither is a header |
| `ConfigSetup.PairIs` | ai_orchestrator/config/loader.py:576-590 | a `key: value` text gives back its key and its value, for any quoted value, quotes and colons inside included |
| `ConfigSetup.SetupOrchestrator` | ai_orchestrator/config/loader.py:274-322 | the orchestrator section as setup writes it is read back: default agent, fallbacks in order, the three limits |
| `ConfigSetup.SetupAgents` | ai_orchestrator/config/loader.py:226-272 | the agents section is read back agent by agent, with command, arguments in order, time limit and enabled flag, the last of a name winning |
| `ConfigSetup.SetupVerification` | ai_orchestrator/config/loader.py:324-418 | the verification section is read back: the strict flag and every check in order |
| `ConfigSetup.SetupPolicy` | ai_orchestrator/config/loader.py:334-344 | the policy section is read back: deny and ask patterns, each list in its place and order |
| `ConfigSetup.SetupMemory` | ai_orchestrator/config/loader.py:358-390 | the memory section is read back, lessons at least one |
| `ConfigSetup.SetupRoundTrip` | ai_orchestrator/cli/app.py:3784-3879 | for any values: the configuration document that `setup` renders, its sections in any order, parses to exactly the configuration it stands for |
| `ConfigSetup.SetupIsWritable` | ai_orchestrator/cli/app.py:3769-3920 | what `setup` fills in for any chosen agent, tools found and profile is a document the round trip holds for |
| `ConfigSetup.SetupReadsBack` | ai_orchestrator/cli/app.py:3769-3920 | so the parser reads back what `setup` writes: the chosen agent, strict verification, the profile's checks, and every other agent as a fallback |
| `ConfigSections.SandboxRead` | ai_orchestrator/config/loader.py:346-356 | both path lists of a sandbox section are read back, each in its place and order |
| `ConfigSections.EnvRead` | ai_orchestrator/config/loader.py:226-272 | an agent's `env:` block is read back, the last of a name winning |
| `ConfigSections.ProfileAndEnv` | ai_orchestrator/config/loader.py:482-512 | a finished agent has the profile and the variables that were read |
| `ConfigSections.ResolvedFields` | ai_orchestrator/config/loader.py:515-573 | an agent takes kind, command, arguments and time limit from its profile where it leaves them open, and of the environment its own variables win |
| `ConfigSections.UnresolvedFields` | ai_orchestrator/config/loader.py:515-553 | without a known profile an agent keeps its fields, and is of the kind of its name if it gives none |
| `ConfigSections.ArgvRead` | ai_orchestrator/config/loader.py:392-418 | a check's `argv:` list is read back in order |
| `ConfigSections.ArgvFinished` | ai_orchestrator/config/loader.py:451-479 | a finished check has the vector that was read, and runs even without a command line |
| `ConfigSections.RuntimeRead` | ai_orchestrator/config/loader.py:292-312 | the runtime limit is the seconds given, before or after the minutes, and else sixty times the minutes |
| `ConfigSections.FinishedIff` | ai_orchestrator/config/loader.py:451-479 | a check is kept exactly if it has a name and a command line or arguments to run |
| `ConfigSections.Defaults` | ai_orchestrator/config/loader.py:451-512 | an agent with a name only, and a check with a name and a command line, have the defaults: not enabled, no profile, no arguments given, 300 seconds |
| `ConfigSections.EmptyConfig` | ai_orchestrator/config/loader.py:107-142 | what an empty file parses to, setting by setting |
| `ConfigSections.UnreadableLimits` | ai_orchestrator/config/loader.py:274-301 | limits that cannot be read are two iterations and no runtime limit |
| `ConfigSections.UnreadableMemory` | ai_orchestrator/config/loader.py:376-388 | numbers of the memory section that cannot be read are its defaults |
| `ConfigSections.GapsDrop` | ai_orchestrator/config/loader.py:143-145 | a blank line or a comment may stand anywhere: the file parses to the same configuration without it |

## Left out

- SQLite, SQL text, migrations, connections and concurrency inside one transaction: each transaction is one step. The
  state store is modelled in slices by table family, which no transaction modelled here crosses.
- Subprocesses, git, worktrees, file-system executors, sandbox paths, agent adapters, prompts and excerpts: outside
  effects or bounded text. Their answers are arbitrary inputs.
- Printing, JSON envelopes, reports, reasons, titles, blocked reasons, timestamps of rows and attempts text: presentation.
- Regular expressions, `shlex`, `list2cmdline`, `int()` and redaction: parameters or, for redaction, the identity on
  data without secrets. Lower case, digits and `str.isalnum` are ASCII; white space
  is the blank, the tab, the line feed and the carriage return.
- Events that `run`, `run_approved` and the supervisor record beside their tables: the event log has its own model,
  and the events carry no decision.
- BrokerMachine.RunKeeps: recovery may fail any started record at any time; the lease and age conditions under which
  `recover --apply` lists one are not required, which only adds histories.
- ApprovalRetry.SerialKeeps: histories without an ask beside another plain attempt on its key; runs and audits use keys
  that do not end in `:approval:<id>` and report no approval id; approved runs are the ones `approvals retry` makes. What
  happens otherwise is in `AskOverlaps`.
- ApprovalRetry.RetryFindsIff: the same histories.
- ApprovalRetry.AskedStaysNamed: the same histories.
- ApprovalRetry.RetryFindsBlockedAction: the same histories.
- ApprovalRetry.RetryRunsTheBlockedCall: the same histories.
- ApprovalRetry.RetryCompletesOnce: the same histories.
- ApprovalHistories.NamedIffAsked: the same histories.
- ApprovalHistories.CrashOrphans: the same histories.
- ApprovalRetry.Retry: exit code, error text and time of a retry are not kept; whether the task is known and an executor
  is registered are predicates.
- ToolBroker.Broker.Run: a call always names its task; the source refuses a call without one before it writes anything.
- ToolBroker.Broker.RunApproved: the same.
- SupervisorLoop.TaskStore.AddVerificationRun: for the iteration stored last, the only one the supervisor adds runs to.
- The statuses of approvals: resolving one is unconditional. Which other part of the program asks, and why, is free.
- Supervisor.DoneIsVerified: one live supervisor per task. A `KeyboardInterrupt` is a crash between two steps, and
  `recover --apply` is one step that may block the task at any time, with no age condition.
- Supervisor.IterationsRight: the replan rule is stated for iterations whose last write was made; a crash can leave one
  without its replan decision.
- PlanGraphBatch.NewTask: task ids are random; were one ever drawn again, the model takes another.
- PlanGraphBatch.RunNodeEffect: what a supervised run comes to is an outcome with the number of replans it recorded; the
  supervisor's own writes are modelled in `Supervisor`.
- Policy.JoiningNeverWeakens: the command line is the quoted tokens joined by blanks, with quoting an arbitrary function of
  a token; that joined lines contain their parts is proved, not assumed.
- Queue.LoadPlanTasks: what the line patterns say of a line is an input, so the patterns themselves are not modelled.
- QueueBatch.Store.RefreshRefs: items are visited in id order and not through dictionaries of groups; the shifted items are
  the same set.
- QueueBatch.Store.RunBatch: how many worktrees are clean and available is a parameter; the PlanGraph nodes linked to queue
  items are not part of this model.
- QueueBatch.Store.RunLoop: whether the preflight refuses is a parameter.
- PlanGraphStore.Store.AddPlanGraphNode: node and replan statuses are a datatype, so refusing other texts is not modelled;
  titles, criteria and plan item ids are not kept.
- Config.SectionOrderIndependence: the order of agents in the result, a dictionary, is not kept. Documents that repeat a
  section are excluded, as repeated keys are in YAML 1.2.2 section 3.2.1.1.
- ConfigSetup.SetupRoundTrip: a document is a list of lines, so values are without line breaks; agent names do not start with
  white space or `#`, and every check runs something. An empty argument list is read back as none. Sections `setup` does
  not write, adapter profiles and sandbox paths, are not rendered.
- Memory, reflections, lessons, evaluation suites, the TUI, argument parsing and release checks: they would add easy members.
