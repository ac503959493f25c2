# k8s-ts-mcp: a verified model

k8s-ts-mcp is a hub that troubleshoots Kubernetes clusters it cannot reach directly. Agents dial in
from the clusters and hold one stream each; several hub replicas share a registry saying which of
them holds which cluster; some clusters are reached through an AWS role instead. A caller's question
becomes a diagnosis, a policy decision, perhaps an escalation ladder run against the cluster, and an
entry in an append-only audit trail. This project models that system in Dafny and proves what its
parts keep, in every interleaving and under every failure of the cluster API.

`dafny verify dfyconfig.toml` checks everything.

## How it is laid out

| file | what it models |
|---|---|
| `Policy.dfy` | the rule set of `policy.rego`, the tier lookup, the engine's decision |
| `Wire.dfy` | the messages, and the one conversion from a handler's result to a response |
| `AgentConn.dfy` | one agent's stream: pending table, receive loop, the agent's goroutines, any number of calls |
| `Outcomes.dfy` | how each call on a stream ends, and from which step of it |
| `Registry.dfy` | the TTL directory of who holds which cluster, and how long a heartbeat loop keeps a record |
| `Sessions.dfy` | the session tables and heartbeat loops of all replicas, with crashes |
| `Heartbeats.dfy` | exactly which loops can never be stopped again, over whole runs |
| `Leases.dfy` | the lease bound carried over to runs of the fleet |
| `Fleet.dfy` | a request's way: role resolver, own table, registry, one peer, a stream |
| `Routes.dfy` | why each request fails, or which session it reaches, from the answers it met |
| `ExecEngine.dfy` | the escalation ladder: snapshot, run, validate, roll back |
| `Records.dfy` | what the record of a rung says, read off the action's own closures |
| `Playbooks.dfy`, `Cluster.dfy`, `CoreK8s.dfy` | the playbook interface, a cluster whose API calls may fail, the core ladders |
| `Readiness.dfy` | what a rung's validation reads, call by call, before it calls a deployment healthy |
| `AgentCore.dfy` | the agent's handler: diagnose, execute, approve |
| `McpTools.dfy` | the hub's tools: the risk of a ladder, troubleshoot, approve_action, the audit trail |
| `Incidents.dfy` | the core playbooks seen through the hub, across calls |
| `Text.dfy`, `Runbooks.dfy`, `RunbookFormat.dfy` | Go's string splitting and trimming, the runbook parser, its documented format |
| `SparseVectors.dfy`, `Similarity.dfy` | cosine of sparse vectors, TF-IDF ranking, the runbook store |
| `RoleCluster.dfy` | the cache of role-based handlers |

Code that updates fields is a class whose methods are proved against functions on values; code with
goroutines is, beside that, a step machine over those same functions, in which each lock section,
registry call, channel operation and message is one step, and a run is any sequence of enabled steps.
An action's closures are functions of a world that also decides which calls fail, so a theorem about
all worlds is one about all failure patterns.

## What does not hold, and exactly when it does

- **An undeclared tier.** `HighestTier` documents `ok` as false when no group maps to a known tier; the
  code ranks an unknown tier 0 and accepts it, and such a tier may run safe actions where `readonly`
  may not. Joining a group can therefore cost a caller a permission: `MonotoneInGroupsIff` says a
  mapping is free of this exactly when it does not hold both an undeclared tier and `readonly`.
- **An undeclared risk.** `maxRisk` skips risks it does not know, so the gate passes on a ladder holding
  one. `GateDecidesForEveryRung` says the gate answers for every rung exactly when all are declared.
- **A ladder that grows.** `Execute` derives the ladder again. If the deployment's owner could not be
  read while diagnosing but can be now, medium rungs appear that the policy was never asked about:
  `GateCoversCrashLoopIff` gives the exact condition, `LadderMayOutgrowItsGate` a concrete world.
- **A lost replica count.** If scaling back up and the rollback both fail, the deployment is left at 0.
  `ReplicasAreConserved` gives exactly the failure patterns, and says the failed rollback is recorded.
  The next rung then wants 0 ready replicas, so a ladder may be reported resolved without its replicas.
  `FalselyResolvedIff` says exactly when: the count was lost, and the last rung's four calls worked.
  `FalseResolutionExists` is its instance for every starting count but 0.
- **Overlapping sessions.** `unregister` is told a cluster, not a connection. When an agent reconnects
  before its old session has ended, the old one removes the new one's entry. `TableExactIff` says
  exactly when the tables are right. `LoopNeverStopsIff` says exactly which heartbeat loops nothing can
  ever stop again: those whose session's entry another registration overwrote, or was removed by a
  session that called for the cancel function before it was stored. `OverlapLeaksHeartbeat` and
  `EarlyCancelLeaksHeartbeat` are runs in which each happens.
- **Two failed heartbeats.** The defaults of 10s and 30s suggest a lease survives two failures in a row.
  `LeaseBound` gives the exact bound, and `DefaultLease` shows two are survived only if a heartbeat call
  takes no time.
- **A body that begins with an indented heading.** Parsing trims it to a bare `## `. Writing the entry
  out in the documented format then starts a new section there: `RoundTripIff`,
  `ReparsingIsStableIff`, and the example `IndentedHeadingIsLost`.

## Model

| member | source | states |
|---|---|---|
| Policy.RulesAgree | internal/policy/policy.rego:17-74 | The eight rules never conflict on any input; a request runs for real exactly under the documented tier, environment, risk and flag combinations; high and undeclared risks always stay dry-run |
| Policy.HighestTier | internal/policy/types.go:61-77 | Returns the tier of the first group of highest rank among the caller's mapped groups, and ok exactly when some group is mapped at all |
| Policy.ExecutesExactly | internal/policy/engine.go:47-88 | Decide always has an answer, and lets a request run exactly when the caller has a mapped group and the rules let that tier run it |
| Policy.DecisionTable | internal/policy/policy.rego:17-74 | Every decision spelled out by mapped group, tier, risk, environment and flag: who is denied, who is shown a dry run, what runs, and by which rule |
| Policy.ExecutionAntitoneInRisk | internal/policy/policy.rego:30-74 | Whoever may run something at one declared risk may run it at every lower one |
| Policy.UnlistedRiskNeverExecutes | internal/policy/policy.rego:17-22 | No tier, environment or flag makes a high or undeclared risk run |
| Policy.MonotoneInGroupsIff | internal/policy/types.go:53-77 | More groups never cost a permission, for all requests, if and only if the mapping does not mix an undeclared tier with readonly |
| Wire.ToResponse | internal/transport/handlerresponses.go:16-68 | A response is of its handler result's own RPC kind and, read back, gives that result in full, unless the error had no text |
| Wire.ResponseLosesNothingIff | internal/transport/handlerresponses.go:16-68 | Of all six kinds, a response determines everything its handler returned if and only if the handler did not fail with an empty error text |
| Wire.FieldsKeepTheirNames | internal/transport/handlerresponses.go:16-68 | Each value a handler returned travels in the response field of its own name |
| AgentConn.PendingTable.Await | internal/transport/server.go:120-126 | A fresh empty one-slot channel replaces whatever the ID held |
| AgentConn.PendingTable.Forget | internal/transport/server.go:128-132 | Exactly that ID goes |
| AgentConn.PendingTable.Dispatch | internal/transport/server.go:134-161 | A reply whose ID is pending is put in that ID's channel and the ID is removed; any other message changes nothing |
| AgentConn.RunIsSafe | internal/transport/server.go:120-161 | In every interleaving, with any agent at all: pending IDs belong to calls in flight, channels receive at most one message, and a call still waiting can still be reached |
| AgentConn.ChannelNeverBlocks | internal/transport/server.go:120-161 | The receive loop's channel send always finds its slot free, and no channel ever gets a second message |
| AgentConn.PendingMeansInFlight | internal/transport/server.go:443-464 | Every pending ID is that of a call that has not returned; when all have, the table is empty |
| AgentConn.StrayReplyChangesNothing | internal/transport/server.go:134-161 | A late, duplicate or unknown reply, or a second Hello, changes no call and no entry |
| AgentConn.CallGetsItsOwnAnswer | internal/transport/server.go:443-579 | With any number of concurrent calls, replies in any order and cancellations anywhere, a call that succeeds returns the response of its own kind computed by the one invocation of the handler made for it, from its own arguments; it never fails with an unexpected reply |
| Outcomes.OutcomeHasOneCause | internal/transport/server.go:443-579 | Over every run with any agent: a call still selecting has met none of the three steps that end one; any other has met exactly one, and its outcome is what that step gives - the error, the cancellation, or the reply in its channel |
| Outcomes.FailuresAreCaused | internal/transport/server.go:443-464 | A call comes back cancelled if and only if its caller cancelled it while it waited, and with a send failure if and only if its request could not be sent |
| Outcomes.TakingSucceeds | internal/transport/server.go:455-464 | With agents that run client.go, taking the reply is success with that very response |
| Outcomes.AtRestMeansAnswered | internal/transport/server.go:443-579 | In a run at rest, every call that was sent, was not cancelled and whose reply the agent did not fail to send has succeeded |
| Outcomes.AnyWaitingCallCanSucceed | internal/transport/client.go:126-194 | At every point of every run, a waiting call whose reply has not been lost can still succeed, with nobody but the agent, the streams and the receive loop doing their work |
| AgentConn.RequestIsConserved | internal/transport/client.go:126-194 | Every request sent is in exactly one place, and its handler runs at most once, whether or not the caller still waits |
| AgentConn.NoReplyIsMislaid | internal/transport/server.go:134-161 | The machinery runs down, and when it has, every call still waiting has its reply in its channel unless the agent failed to send it |
| Registry.InMemory.Announce | internal/registry/inmemory.go:27-32 | The cluster's record names this replica until now + TTL; no other record changes |
| Registry.InMemory.Heartbeat | internal/registry/inmemory.go:34-36 | The same as announcing: a record that is gone comes back |
| Registry.InMemory.LookUp | internal/registry/inmemory.go:38-46 | Finds the record's replica up to and including the instant it expires |
| Registry.InMemory.Erase | internal/registry/inmemory.go:48-53 | Exactly that cluster's record goes, whoever wrote it |
| Registry.InMemory.List | internal/registry/inmemory.go:55-66 | Every unexpired cluster once, in whatever order the map is ranged over |
| Registry.ListAgreesWithLookup | internal/registry/inmemory.go:38-66 | List and Lookup agree about every cluster except at the exact instant of expiry, where only Lookup answers |
| Registry.LookupReadsHistory | internal/registry/inmemory.go:27-53 | A lookup's answer is a function of the last operation on that cluster alone |
| Registry.LeaseIsSound | internal/registry/inmemory.go:27-53 | A lookup names a replica if and only if that replica made the last write for the cluster, no longer ago than its TTL |
| Registry.LeaseBound | internal/transport/server.go:220-233 | Whatever state the record was left in, a late Forget included, a heartbeat loop that never fails more than k times running holds its lease, up to when its next call must have ended, if and only if k + 1 intervals and one call's delay fit in the TTL |
| Registry.DefaultLease | internal/transport/server.go:33-36 | With 10s and 30s one failed heartbeat is always survived, two in a row only if calls take no time |
| Sessions.Server.Register | internal/transport/server.go:203-213 | The new connection takes the cluster's entry from whoever held it |
| Sessions.Server.Unregister | internal/transport/server.go:235-242 | Removes and cancels whichever connection holds the cluster's entry, which need not be the one leaving |
| Sessions.Server.Get | internal/transport/server.go:254-259 | Finds a connection exactly when the cluster has an entry, and then that one |
| Sessions.RunIsSound | internal/transport/server.go:166-252 | The invariant of the whole fleet over every run: tables, session handlers and the history of registry writes fit together |
| Sessions.TableNamesRegisteredSessions | internal/transport/server.go:203-252 | Unconditionally, a replica's entry for a cluster is a session that announced that cluster to it and is registered and not yet unregistered |
| Sessions.LookupIsFresh | internal/transport/server.go:203-233 | A lookup names a replica an agent of that cluster connected to, which wrote the record within the TTL; a crashed replica is never named more than a TTL after it stopped |
| Sessions.RegistryCallsTakeEffect | internal/transport/server.go:203-242 | What each step does to every lookup, at every instant: announcements and heartbeats that work name this replica for a TTL, a Forget that works leaves no answer, no other step counts |
| Sessions.TableExactIff | internal/transport/server.go:203-252 | Throughout a run the tables are exactly the registered sessions if and only if no two sessions of one cluster on one replica ever overlap |
| Sessions.HeartbeatsMatchTable | internal/transport/server.go:203-252 | Without overlap the heartbeats that go on are, one to one, those of the sessions in the table, but for one between its two unregister steps |
| Sessions.UnregisterStopsOwnLoop | internal/transport/server.go:235-242 | Taken by itself, the unregistering of a session cancels its own heartbeat if and only if the table still holds that very session |
| Heartbeats.OrphanIff | internal/transport/server.go:203-242 | Over every run, a session on a replica that is up is out of the table, uncancelled and beyond everybody's reach if and only if an earlier step overwrote its entry or called its cancel function before it was stored |
| Heartbeats.LoopNeverStopsIff | internal/transport/server.go:203-252 | Over every run, for every started loop, its session still there or departed: however the fleet goes on the loop beats while its replica is up, if and only if such a step happened |
| Heartbeats.OverlapLeaksHeartbeat | internal/transport/server.go:166-252 | A concrete run for any cluster and replica after which no agent is left, the table is empty, and a heartbeat has announced the cluster again and never stops |
| Heartbeats.EarlyCancelLeaksHeartbeat | internal/transport/server.go:203-242 | A concrete run in which a session whose entry was never overwritten leaks its heartbeat, because it was removed before its cancel function was stored |
| Leases.RunHasOnlyLoopWrites | internal/transport/server.go:203-252 | A stretch of a run in which only one loop writes or removes a cluster's record is what the lease bound is about: its successful heartbeats and nothing else |
| Leases.LeaseHoldsInRun | internal/transport/server.go:220-252 | Handover in a run: from the first success of the only loop left, whatever the record was and whoever had erased it, every lookup finds its replica while it never fails more than k times running and k + 1 intervals and one call fit in the TTL |
| Fleet.RunKeepsInv | internal/transport/server.go:318-688 | Over every run of all replicas, streams and calls: a call is only ever bound to a session that announced its cluster, and is forwarded at most once |
| Fleet.AnswerIsFromTheRightAgent | internal/transport/server.go:318-441 | End to end, whatever the registry says and whoever crashes: a successful answer was computed by the agent that announced exactly the requested cluster, from this request's arguments, after at most one hop |
| Fleet.RoutingTerminates | internal/transport/server.go:584-688 | Each routing step of a call brings it closer to the end, no other step moves it, and it is never forwarded twice; which way it goes is what Routes.FailedIff and Routes.ConnectedIff say |
| Routes.FailedIff | internal/transport/server.go:294-345 | Over every run, a call has failed if and only if it was told to: claimed but not servable; registry unreadable; nobody registered, or the dialled replica it was named had no entry for the cluster at that moment; or that replica could not be dialled |
| Routes.ConnectedIff | internal/transport/server.go:584-688 | Over every run, a call is connected to a session if and only if its own replica's table held that session when it looked (no hop), or the dialled replica the registry named for it did (one hop) |
| Routes.PeerIsNamed | internal/transport/server.go:584-600 | A call waits at exactly the replica the registry named for it |
| Routes.RoutingNeverStuck | internal/transport/server.go:318-345 | While a call is on its way its next step can be taken, whatever resolver, registry and dialling come back with |
| Fleet.RoleClustersStayOffStreams | internal/transport/server.go:294-345 | A cluster the role resolver claims, served or failed, never falls through to an agent, the registry or a peer |
| Fleet.RoleAnswerIsFromTheHandler | internal/transport/server.go:318-324 | Over every run, an in-process answer is, in full and of the request's own kind, what one invocation of the cluster's handler for that call returned |
| ExecEngine.Rollback | internal/execengine/execengine.go:186-195 | Undoes nothing without a closure or a snapshot; otherwise records either that it rolled back or, appended and scrubbed again, why it could not |
| ExecEngine.RunOne | internal/execengine/execengine.go:148-184 | The world and the record after snapshot, run, validation and rollback, each able to fail |
| ExecEngine.Run | internal/execengine/execengine.go:98-129 | Refuses an empty or overlong ladder with nothing touched; otherwise climbs until a rung is healthy or a high-risk one stops it |
| ExecEngine.RunApproved | internal/execengine/execengine.go:139-141 | Runs the one action whatever its risk |
| ExecEngine.OneRungCommitsOrUndoes | internal/execengine/execengine.go:148-195 | With snapshots, rollbacks and validations that may all fail, a rung leaves its whole effect and is validated, or leaves the tracked state as it was, or its record reports a failed rollback |
| ExecEngine.ClimbIsInOrder | internal/execengine/execengine.go:98-129 | The attempts of any ladder are its first rungs in order, all but the last failures, the last validated exactly when the incident is resolved |
| ExecEngine.OnlyTheWinnerCommits | internal/execengine/execengine.go:86-129 | Unless an attempt's record reports a failed rollback, an unresolved ladder of any length ends in its initial state and a resolved one in the initial state transformed by the one winning action, as if no earlier rung had run |
| ExecEngine.InvokedBeforeHigh | internal/execengine/execengine.go:108-118 | Whatever a ladder really invokes stands before its first high-risk rung, and is not high |
| ExecEngine.NothingFromHighOnMatters | internal/execengine/execengine.go:92-118 | No closure at or after the first high-risk rung has any influence on the world or the record |
| ExecEngine.RecordIsScrubbed | internal/execengine/execengine.go:148-195 | Every output, error and snapshot a run records has been through the scrubber, joined rollback errors included |
| Records.RecordSays | internal/execengine/execengine.go:148-195 | The record and the final world of a rung from its closures alone: the scrubbed output of the Run that was made, what was snapshotted, whether it was validated or rolled back, and as error the scrubbed text of whichever of snapshot, Run or validation failed, joined and scrubbed again with a rollback's failure |
| Records.SilentIff | internal/execengine/execengine.go:148-195 | An error text is empty if and only if nothing failed or the scrubber left nothing of what did; with one that never empties a text, only a Run or a validation whose error has no text can fail silently |
| Records.ClimbIsATrail | internal/execengine/execengine.go:98-129 | Any ladder's attempts are such records, each made in the world the one before it left; they stop at the first healthy rung, or at the first high one, recorded as skipped with its reason; what was really invoked is the rungs among them that are not high and whose snapshot worked |
| CoreK8s.WaitFor | internal/playbooks/corek8s/common.go:57-78 | The polling loop ends for every check that returns, with the result its specification gives for that deadline |
| CoreK8s.WaitForIsBounded | internal/playbooks/corek8s/common.go:57-78 | It polls between 1 and timeout + 2 times, says true exactly when its last poll was, and gives up silently only after a failed poll past the deadline |
| Readiness.WaitReadyIff | internal/playbooks/corek8s/crashloopbackoff.go:71-80 | Waiting for replicas ends healthy if and only if one of the reads it made worked and found as many ready as are wanted, and that one was its last call; each earlier read worked and found too few; it gives up silently only after the whole timeout, and reads at most timeout + 2 times |
| Readiness.ValidateRestartIff | internal/playbooks/corek8s/common.go:34-53 | The restart is validated if and only if a look within 30 seconds found the pod gone and then, with an owner, a read within 60 found it ready |
| Readiness.RungsArePatient | internal/playbooks/corek8s/crashloopbackoff.go:71-103 | The scale rung waits 60 seconds and the rollout rung 90 before they give up silently |
| CoreK8s.RestartTouchesNothing | internal/playbooks/corek8s/common.go:18-55 | Under every failure pattern the restart rung changes no deployment |
| CoreK8s.ScaleRung | internal/playbooks/corek8s/crashloopbackoff.go:51-86 | Down, up, validation and rollback leave the desired count as it was, except in exactly the listed failure patterns, where it is 0 and the attempt reports a failed rollback |
| CoreK8s.RolloutKeepsReplicas | internal/playbooks/corek8s/crashloopbackoff.go:87-104 | The rollout rung rolls its deployment out once if its read and its update both work, and changes nothing else |
| CoreK8s.ReplicasAreConserved | internal/playbooks/corek8s/crashloopbackoff.go:42-109 | The whole ladder leaves the desired count, and every other deployment, as they were, unless the scale rung was reached and lost it; then it is 0 and recorded as a failed rollback |
| CoreK8s.FalselyResolvedIff | internal/playbooks/corek8s/crashloopbackoff.go:42-109 | A ladder is reported resolved without its replicas back if and only if the restart did not help, the scale rung lost the count, and the four calls of the last rung worked; resolved at all means Readiness.ResolvedEndedReady |
| CoreK8s.FalseResolutionExists | internal/playbooks/corek8s/crashloopbackoff.go:51-109 | That happens in some world for every starting count but 0 |
| Readiness.ResolvedEndedReady | internal/playbooks/corek8s/crashloopbackoff.go:42-109 | A CrashLoopBackOff ladder with an owner that is reported resolved ended with a call that worked and read at least as many ready replicas as the owner then wants |
| Readiness.OOMResolvedEndedReady | internal/playbooks/corek8s/oomkilled.go:54-85 | The same of an OOMKilled ladder |
| CoreK8s.ScaleIsDisciplined | internal/playbooks/corek8s/crashloopbackoff.go:51-86 | In all worlds: the snapshot and validation only look, a Run that works keeps the desired count, a rollback that works gives back what the snapshot saw |
| CoreK8s.CrashLoopIsATransaction | internal/playbooks/corek8s/crashloopbackoff.go:42-109 | The CrashLoopBackOff ladder keeps the desired count it found, whatever fails, unless an attempt's record reports a failed rollback |
| CoreK8s.OOMLadderChangesNothing | internal/playbooks/corek8s/oomkilled.go:54-85 | Climbed automatically, the OOMKilled ladder changes no deployment |
| AgentCore.Diagnose | internal/agentcore/agentcore.go:50-85 | No playbook is a normal answer; otherwise the ladder is proposed, not run, with every text scrubbed |
| AgentCore.DiagnosisIsScrubbed | internal/agentcore/agentcore.go:50-85 | Every text and meta value a diagnosis carries is the scrubbed form of the playbook's own, rungs keep their names and risks, and having no playbook is told apart from failing |
| AgentCore.Execute | internal/agentcore/agentcore.go:87-119 | Derives finding and ladder afresh, refuses if another playbook now matches, refuses an empty or overlong ladder, and otherwise returns exactly what climbing that ladder from the current world records |
| AgentCore.ApproveAction | internal/agentcore/agentcore.go:121-192 | Runs exactly the first action of that name on the ladder as rechecked or derived now, or refuses with nothing run |
| AgentCore.HubSeesEveryFailure | internal/agentcore/agentcore.go:50-192 | No error of the agent's is without text, so the hub reads back exactly what Diagnose, Execute and ApproveAction returned, field by field, and sees an error exactly when there was one |
| AgentCore.NamedIsFirst | internal/agentcore/agentcore.go:167-176 | The chosen action is the first on the ladder with that name, and none is chosen exactly when no rung has it |
| Playbooks.FindIsFirst | internal/playbooks/playbooks.go:89-97 | The playbook for a signal is the first registered one that detects it, and there is none exactly when none does |
| McpTools.ComputeMaxRisk | internal/mcptools/mcptools.go:118-144 | High exactly when nothing else is there; otherwise the highest declared non-high risk, unknown risks never raising it |
| McpTools.GateIsItsRungs | internal/mcptools/mcptools.go:118-144 | The policy lets a ladder with a safe or medium rung run if and only if each such rung may run at its own risk, whatever high rungs it has; a ladder of high rungs only is never run |
| McpTools.AuthorizedIff | internal/mcptools/mcptools.go:531-570 | An approval is allowed exactly when execution is on, the trail readable, an entry with that ID exists, the caller is in scope, the first action of that name on the first such entry is high, and the caller's highest tier is prod-admin; otherwise the first failing check is the refusal |
| McpTools.GateDecidesForEveryRung | internal/mcptools/mcptools.go:380-414 | If the policy lets a ladder run at its single risk, every rung before the first high one may run at its own risk if and only if all of those risks are declared |
| McpTools.InvokedActionsAreAllowed | internal/mcptools/mcptools.go:380-414 | With the diagnosed risks, declared up to the first high one, every action a run really invokes is one the policy would itself let run |
| McpTools.AuditStore.Append | internal/audit/filestore.go:39-57 | The trail grows by that entry, or is unchanged if the append failed |
| McpTools.AuditStore.Get | internal/audit/filestore.go:103-114 | The first entry with that ID, and none exactly when there is none |
| McpTools.TrailTellsTheRun | internal/mcptools/mcptools.go:399-411 | The attempts on the trail are the ladder's own, all but their snapshots: an entry that says resolved ends in the one validated, non-high action, and those before it are the earlier rungs, failed |
| McpTools.Troubleshoot | internal/mcptools/mcptools.go:361-482 | Executes exactly when in scope, diagnosed without error, covered by a playbook and let run by the policy at the ladder's risk; records a diagnosis with its whole ladder, or a runbook entry proposing nothing, or else nothing, with the error of the first step that failed |
| McpTools.ApproveAction | internal/mcptools/mcptools.go:531-608 | Sends an approval exactly when every check passes, for the recorded cluster, signal and meta; otherwise returns that check's refusal; records an approval proposing nothing, only if the agent answered |
| McpTools.RunIsGuarded | internal/mcptools/mcptools.go:531-608 | Over every run of tools and agents, from any trail an earlier hub left: only diagnoses propose, every approval sent was authorised for its incident and goes back to an approve_action call, in scope and with every check passed, that sent it; every high-risk invocation has one |
| McpTools.HighRiskNeedsApproval | internal/mcptools/mcptools.go:531-608 | Whenever a high-risk action is invoked, execution was enabled, an approve_action call earlier in the run, in scope and passing every check, had sent the approval, the approver's highest tier was prod-admin, an earlier diagnosis on the trail, of that cluster, playbook and signal, had proposed that name at high risk, and the agent had just derived or rechecked it |
| McpTools.ApprovalIsSentIff | internal/mcptools/mcptools.go:531-570 | A step sends an approval if and only if it is an approve_action call that passes every check |
| Incidents.HighRiskCanRun | internal/mcptools/mcptools.go:531-608 | A concrete run at whose end an approved high-risk action has been invoked |
| Incidents.GateCoversCrashLoopIff | internal/playbooks/corek8s/crashloopbackoff.go:36-49 | What the policy allowed for the diagnosed ladder covers every rung of the one derived later if and only if the owner was known then, is unknown now, or the caller may run medium actions anyway |
| Incidents.LadderMayOutgrowItsGate | internal/agentcore/agentcore.go:87-101 | A world in which a caller limited to safe actions in production gets a medium one invoked through an allowed call |
| Incidents.ProposedMeansRecorded | internal/playbooks/corek8s/oomkilled.go:37-85 | "increase memory limit" is proposed if and only if an owner with a name was found, and that name, scrubbed, is in the recorded meta |
| Incidents.CoreDiagnosesSay | internal/playbooks/corek8s/oomkilled.go:37-52 | Both core diagnoses fail exactly when their first read of the pod does, change nothing, and record the owning deployment exactly when both reads that look for it worked and found one |
| Incidents.RecheckOnRecordedOwner | internal/playbooks/corek8s/oomkilled.go:87-118 | Without a recorded deployment checking again is an error and asks nothing; with one, two reads decide between an error, no longer needed, and the ladder for that very deployment |
| Incidents.OOMApprovalIsComplete | internal/playbooks/corek8s/oomkilled.go:87-118 | An authorised approval ends, in every later state of the cluster, in exactly one of: a failed read, enough replicas ready again, or that action on the deployment the incident names |
| Incidents.OOMApprovalHappens | internal/mcptools/mcptools.go:531-570 | Such approvals exist: on a hub that executes, any prod-admin can be authorised on an incident the playbook recorded |
| Incidents.MemoryRunIsOneChange | internal/playbooks/corek8s/oomkilled.go:61-81 | The run raises the limit by the factor and rolls out once, or is not validated and rolled nothing out, the limit having grown exactly if only the rollout failed; nothing is rolled back and no other deployment touched |
| Text.SplitAt | internal/runbooks/runbooks.go:162 | At an unbordered separator Split cuts, and splits the two sides independently |
| Runbooks.AppendListed | internal/runbooks/runbooks.go:186-197 | Adds the trimmed, non-empty items of a comma-separated list, in order |
| Runbooks.ParseEntry | internal/runbooks/runbooks.go:172-214 | The title, the metadata lines up to the first other line, and the rest as body without its rule |
| Runbooks.Parse | internal/runbooks/runbooks.go:155-170 | One entry per section that has a kind or a keyword, in document order |
| Runbooks.SectionsAreIndependent | internal/runbooks/runbooks.go:155-170 | For all texts, parsing distributes over a section heading: no section changes what another parses to |
| RunbookFormat.ParsedIsCanonical | internal/runbooks/runbooks.go:160-214 | Every entry of every document has one-line trimmed fields, clean list items, and a trimmed body that holds no later heading and starts with no field |
| RunbookFormat.EntryReads | internal/runbooks/runbooks.go:172-214 | A canonical entry written in the documented format is read back whole, field by field |
| RunbookFormat.ScanList | internal/runbooks/runbooks.go:186-197 | Each keywords or log_signatures line adds its items to those before it |
| RunbookFormat.ScanField | internal/runbooks/runbooks.go:183-199 | Each kind or log_source line replaces the value before it |
| RunbookFormat.SectionStaysWhole | internal/runbooks/runbooks.go:160-170 | A written entry stays one section if and only if its body does not begin with a heading |
| RunbookFormat.RoundTripIff | docs/runbooks/kubernetes-errors.md:11-21 | Canonical entries written in the documented format after any text parse back as exactly those entries if and only if none of their bodies begins with a heading |
| RunbookFormat.ReparsingIsStableIff | internal/runbooks/runbooks.go:160-214 | For every document, writing its entries out and parsing again changes nothing if and only if no parsed body begins with a heading |
| RunbookFormat.IndentedHeadingIsLost | internal/runbooks/runbooks.go:207-212 | A concrete section whose indented heading becomes the body's start and whose body the rewriting loses |
| SparseVectors.DotPick | internal/runbooks/similarity.go:108-118 | The sums do not depend on the order in which a map is ranged over |
| SparseVectors.ComputeCosine | internal/runbooks/similarity.go:108-123 | The loops compute the normalised inner product, 0 if either vector is |
| SparseVectors.CosineIs | internal/runbooks/similarity.go:108-123 | Cosine times the two lengths is the inner product, and it is 0 if either length is |
| SparseVectors.CosineOfSelf | internal/runbooks/similarity.go:108-123 | A vector with any weight has cosine 1 with itself |
| SparseVectors.CauchySchwarz | internal/runbooks/similarity.go:108-123 | For sparse vectors of any size the square of the inner product is at most the product of the squared norms |
| SparseVectors.CosineIsBounded | internal/runbooks/similarity.go:108-123 | Cosine lies between -1 and 1 whatever the weights |
| SparseVectors.CosineIsPositiveIff | internal/runbooks/similarity.go:108-123 | With non-negative weights it lies between 0 and 1, and is positive if and only if some term weighs positively in both |
| SparseVectors.CosineIsSymmetric | internal/runbooks/similarity.go:108-123 | Swapping the vectors changes nothing |
| SparseVectors.CosineIgnoresScale | internal/runbooks/similarity.go:108-123 | Scaling either vector by a positive factor changes nothing |
| Similarity.Tokenize | internal/runbooks/similarity.go:61-72 | Exactly the words that are not stopwords, in order |
| Similarity.KeptAre | internal/runbooks/similarity.go:61-72 | Every word that is no stopword is kept as often as it occurs, and no stopword is |
| Similarity.KeptSplits | internal/runbooks/similarity.go:61-72 | Filtering distributes over concatenation, so the order of words stays |
| Similarity.CountDocument | internal/runbooks/similarity.go:78-87 | One more document adds one to each term it holds, however often it holds it |
| Similarity.DocsWithCounts | internal/runbooks/similarity.go:78-87 | A term's document frequency is the number of documents holding it |
| Similarity.BuildIDF | internal/runbooks/similarity.go:74-94 | Exactly the terms of the corpus, each weighed by the logarithm of 1 plus the corpus size over its document frequency, plus 1 |
| Similarity.IDFMeans | internal/runbooks/similarity.go:74-94 | Spelled out: a term has a weight exactly when some document holds it, and it is log(1 + documents / documents holding it) + 1 |
| Similarity.RarerTermsWeighMore | internal/runbooks/similarity.go:88-92 | Of two terms the one in fewer documents weighs more, whenever the logarithm grows |
| Similarity.TfIdfVector | internal/runbooks/similarity.go:96-106 | Each token weighs its occurrences times its inverse document frequency, 0 if unseen in the corpus |
| Similarity.VectorsAdd | internal/runbooks/similarity.go:96-106 | Weights add up over concatenated tokens: each occurrence counts once |
| Similarity.SimilarIffSharesWord | internal/runbooks/similarity.go:16-37 | An entry's similarity to a query lies between 0 and 1, and is positive if and only if they share a word that is not a stopword |
| Similarity.Score | internal/runbooks/similarity.go:16-37 | The earliest entry of maximal similarity, and ok if and only if some entry shares a non-stopword with the query |
| Similarity.Store.Open | internal/runbooks/runbooks.go:73-81 | A new store holds its document parsed, and there is none if the file cannot be read |
| Similarity.Store.Reload | internal/runbooks/runbooks.go:83-97 | The new document's entries replace the old, which stay if the file cannot be read |
| Similarity.Store.Find | internal/runbooks/runbooks.go:106-132 | The first entry of exactly that kind if there is one; otherwise the earliest most similar entry, and only if some entry reaches the threshold |
| Similarity.AppendingKeepsKindLookups | internal/runbooks/runbooks.go:112-122 | Sections appended to a document never change what a lookup by kind finds |
| RoleCluster.Manager.Handler | internal/rolecluster/rolecluster.go:86-134 | Whatever other callers did while the lock was dropped: the cached handler if there is one by then, otherwise the one built here from the inventory's answer, for that account's role, region and EKS name; every failure leaves the cache as others left it |
| RoleCluster.CacheOnlyGrows | internal/rolecluster/rolecluster.go:94-134 | Over every interleaving of any number of callers no key goes and none changes its handler |
| RoleCluster.OneHandlerPerCluster | internal/rolecluster/rolecluster.go:123-133 | Any two successful calls, at whatever points of a run, get the same handler if and only if they asked for the same cluster |
| RoleCluster.FailuresLeaveNoTrace | internal/rolecluster/rolecluster.go:102-120 | A cluster is cached if and only if some call for it has been served, and every such call was served the cached handler |
| RoleCluster.CachedFromInventory | internal/rolecluster/rolecluster.go:113-121 | With an inventory that does not change, every cached handler assumes that cluster's account role, in its region, under its EKS name or else the cluster ID |
| RoleCluster.UndisturbedCall | internal/rolecluster/rolecluster.go:94-134 | A call with nobody in between serves the cached handler, or says the cluster is not its own, or fails as the inventory or the build did, or caches and serves the handler built for the inventory's answer |

## Left out

- gRPC, TLS, dialing and reconnect backoff, Redis, AWS, client-go: I/O. A stream is two ordered queues that fail per message, the registry a log of successful writes, the cluster API a function from call numbers to outcomes.
- Generated protobuf code, command-line wiring, YAML loading, MCP registration, list_clusters, list_playbooks and get_postmortem: plumbing and formatting.
- The regular expressions of internal/redact and its structural walk: a scrubber is any pair of functions, on text and on snapshots.
- internal/agentauth, internal/inventory and the scope check of the tools: a parameter says whether the caller is in scope, another what the inventory answered.
- Request IDs: that 8 random bytes repeat is taken not to happen; a new call's ID differs from all earlier ones on its stream.
- Calls stranded when an agent disconnects: they wait for their own cancellation, so no liveness is claimed for them; a dead session's stream simply makes no more steps.
- Single-replica mode without a Registry: forwarding covers it (nobody is found), the heartbeat model does not.
- The peer connection cache and the order of sends on one stream beyond first-in-first-out.
- The in-memory registry under concurrent callers: its methods are single lock sections, so the log of writes is their order.
- Time is a natural number of seconds; sleeps and API calls may take longer than asked.
- float64: weights, factors and scores are reals; `log` is any function positive above 1, `sqrt` any function that squares back.
- Tokenising: lower-casing and cutting at characters that are neither letters nor digits is a parameter; the stopword filter is modelled.
- Strings are sequences of characters, not UTF-8 bytes: invalid encodings are not modelled.
- MatchesLogs and the confirmation of a runbook by pod logs: a single loop and text; troubleshoot takes the fallback's text as a parameter.
- McpTools.Troubleshoot: does not model a failing policy evaluation, because RulesAgree shows the rules never fail to produce a result; an evaluator's own error is not part of the model.
- Decision.Tier, timestamps and the wording of reasons, summaries, descriptions and errors: reasons are told apart, not spelled out.
- At-most-once approval: nothing in the code consumes an approval, and the model lets one be delivered any number of times.
- Whether enough ready replicas really mean a healthy deployment: docs/HANDOFF.md says they need not; it is used only as the code's own test.
- Sessions.UnregisterStopsOwnLoop: does not model steps of other sessions in between, because Heartbeats.LoopNeverStopsIff covers every interleaving.
- Ready replicas are natural numbers, as the API counts them.
- AgentCore.HubSeesEveryFailure: does not model the details put into a message, only its constant words and the error it wraps; listing nodes, scanning and reading logs are left to the cluster client.
- Calico, KEDA, image-pull and exec-format playbooks, pod classification and scanning: string matching and one-rung ladders.
- ExecEngine.RunApproved: does not model an action without a Run, which the exec-format playbook builds and which would crash.
- Incidents.MemoryRunIsOneChange: does not model a deployment with no containers, nor the rounding of a float64 product.
- Replica counts are unbounded integers: the code only copies an int32 it has read, and never computes with it.
- Goroutines are steps of a machine over values, so data races within a lock section are not modelled; the classes beside it model each lock section in place.
