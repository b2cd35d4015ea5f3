# A verified model of the durable remediation agent

This Dafny project models the interlock agent: a graph of fourteen nodes that diagnoses an incident, proposes an
action, has its risk classified, sleeps until a human decides, revalidates, executes, verifies, and rolls back or
replans. Its state is four parts - the checkpointed channels, the sandbox (mock services and a record table), the
idempotency ledger and the audit log - and its processes may die between any two effects of a node run.

How the files fit together:

- `MockService`, `Records`, `Tools`, `ToolContext`: services, records, the six mutating tools with their ledger and
  compensations, as values (functions) and as the objects the program mutates (classes proved against the functions).
- `Actions`, `Observations`: action strings and keys; the sweep, fingerprints, proposal validation, risk policy.
- `Effects`, `Readings`: what those mean in plain fields and numbers: what each action, by its text, does to the sandbox,
  how it is verified and undone; what a sweep shows, which proposals it admits and which fields decide drift.
- `Workflow`: the nodes' updates and the edges of both graphs, with and without `revalidate`.
- `Hearing`: what one node run takes over from each answer, which channels it writes, where it leads, when it raises.
- `Durable`: the transition system. An event is a node run that survives or dies before its effect, before the ledger
  write, before the audit write or before the commit; a new start from START with the channels kept; or a change of
  world and ledger by others. Reasoner, classifier and human are an arbitrary oracle. A history of facts, read by no
  step, records what really happened; the theorems compare channels, ledger and log with it.
- `ExactlyOnce`, `Conservation`, `Restarts`, `Reproposals`, `LostWrites`, `AuditLog`, `HumanGate`, `Evidence`,
  `Termination`, `ConcurrentRollback`, `ApprovedDeletes`, `LogDerived`: theorems over all runs.
- `Legs`, `Witnesses`, `EditedKeys`, `MidExecution`: concrete runs for the cases in which a promise fails or a bound is met.
- `AuditStore`, `Engine`, `RunRegistry`, `Api`, `Runner`, `Metrics`: the imperative shell. `Engine.GraphThread` drives a
  checkpoint over the mutable objects and is proved to produce exactly a run of `Durable`; the API keeps its registry in
  step with it; the evaluation harness reads its summary off the log; the metrics are computed from those summaries.

`dafny verify dfyconfig.toml` checks everything.

Where the code keeps less than its comments or documentation say, the model follows the code, a theorem states the
exact condition and a witness run shows the failing case:

- *Exactly once* (`src/tools/mutating.py` header): under one key the tools act once for every death between acting and the
  ledger write, and once more if a call was recorded; so at most once exactly if there was no such death, or one that no
  recorded call followed.
- *Compensation* after such a death: what the second call registers leads back to where the first call left the world. The
  run can then escalate with the durable world changed exactly if the lost call scaled to another count, set another
  value, or rolled back with more than one version left; never for restarts, cleaned caches and deletes.
- *Started again* (`src/chaos/harness.py`, `src/agent/graph.py`): a start from START forgets the pending compensation. The
  run can then escalate with the durable world changed exactly if running the undo that checkpoint and ledger show as
  pending would change the durable world, or fails. If the same action is executed again before any other, which a
  reasoner that always proposes one action does, nothing is lost.
- *Killed mid-EXECUTING* (`src/chaos/harness.py`, which expects COMPLETED): the restart is not repeated, but the second
  attempt's sweep counts it, the floor makes a lone service's restart medium, and the run goes to sleep instead; it
  completes, by replay, once approved.
- *Thrashing floor* (`src/risk/policy.py`, "already restarted once this run"): only restarts counted by the last sweep
  matter; a low-risk loop never sweeps again and misses the run's own restart.
- *Replan reason* (`_replan_reason`): wrong for a failed verification in an unapproved cycle after an earlier rejection or
  drift.
- *"There's nothing to replay"* (`apply_compensation`): compensations are replayed; they still conserve the durable world.
- *Scoped drift* (`src/revalidation/fingerprint.py` header): true for service actions; for deletes other record kinds cause
  drift exactly if some row of the kind gets 1000 rows of smaller id before it, or no longer has them.
- *Undo*: a configuration key that did not exist before cannot be put back; the endpoint refuses the null value and the
  node raises.
- *State diagram* (`README.md`): the code adds ACTION_PROPOSED to REPLANNING and the self-loops on EXECUTING and
  AWAITING_APPROVAL.
- *Edited actions* are not validated, so a colon in an edited target can make two runs share a ledger key: exactly if one
  action is the other with some text and a colon in front, and its run id is the other's without them. In the witness an
  edited delete of one run is executed, and another run's approved delete is taken for its replay and completes.

## Model

| member | source | states |
|---|---|---|
| MockService.RepInvariant | src/env/mock_service/state.py:112-193 | after any sequence of requests the fault list has no repeats and contains each fault exactly if its metric is off baseline, and the version history is non-empty without adjacent repeats |
| MockService.RestartThenCleanHeals | src/env/mock_service/state.py:131-145 | whatever was requested before, restart followed by clean_disk on a disk service gives status healthy |
| MockService.RestartHealsCompute | src/env/mock_service/state.py:131-139 | a service without a disk is healthy after a restart, whatever was requested before |
| MockService.RollbackUndo | src/env/mock_service/state.py:157-181 | deploying the popped version restores the history, and deploying it again changes nothing |
| MockService.HistoryKept | src/env/mock_service/state.py:157-181 | no request creates two equal adjacent versions |
| MockService.HealthExactly | src/env/mock_service/state.py:74-82 | a service is healthy exactly if it is up, fails under a tenth of its requests, and memory, cpu and its disk if it has one are below 75 percent; unhealthy exactly if it is down, fails half of them, or one of these is at 90 |
| MockService.FaultMeans | src/env/mock_service/state.py:112-129 | a fault is refused exactly for a disk that is not there, and otherwise sets one metric to the 65, 80 or 95 percent, or the error rate to the 0.15, 0.3 or 0.6, of its rate, an outage to down with every request failing, lists the fault once and changes nothing else |
| MockService.FaultSickens | src/env/mock_service/state.py:74-129 | a fault makes a new service unhealthy exactly if it is an outage or its rate is high, and leaves it healthy exactly if it is a low load on memory, cpu or disk |
| MockService.RequestMeans | src/env/mock_service/state.py:131-193 | every other request in fields and numbers: restart and rollback set memory to 20, cpu to 15 and errors to 0, bring the service up and keep of the faults only a full disk; clean_disk sets the disk to 30; scale, config and deploy touch one field; refusals are those of a missing disk and of a last version |
| MockService.ServiceState.constructor | src/env/mock_service/state.py:53-68 | a new service is at baseline |
| MockService.ServiceState.ApplyFault | src/env/mock_service/state.py:112-129 | the in-place fault equals the value function, and is refused exactly for a disk fault without a disk |
| MockService.ServiceState.Restart | src/env/mock_service/state.py:131-139 | in place: everything transient cleared, the disk kept, the restart counted |
| MockService.ServiceState.CleanDisk | src/env/mock_service/state.py:141-145 | in place: only the disk and its fault are cleared; refused without a disk |
| MockService.ServiceState.Scale | src/env/mock_service/state.py:147-150 | in place: sets the replicas and returns the old count |
| MockService.ServiceState.SetConfig | src/env/mock_service/state.py:152-155 | in place: sets one key and returns its old value if there was one |
| MockService.ServiceState.Rollback | src/env/mock_service/state.py:157-170 | in place: pops the newest version unless it is the only one, clears what restart clears |
| MockService.ServiceState.Deploy | src/env/mock_service/state.py:172-181 | in place: appends a version unless it is current |
| MockService.ServiceState.Reset | src/env/mock_service/state.py:183-193 | in place: back to baseline |
| Records.ReinsertRestores | src/tools/context.py:108-117 | reinserting a snapshot of the removed rows restores the whole record map, and the next id where it was above every id |
| Records.RecordsRepository.constructor | src/tools/context.py:95-97 | the later of two seeded rows with one id wins, and new ids start above the highest |
| Records.RecordsRepository.GetByKind | src/tools/context.py:99-103 | ids strictly increase, every row returned is the stored one and matches the kind, there are min(limit, matching) of them, and no matching row left out has a smaller id |
| Records.ByKindMeans | src/tools/context.py:99-103 | the same of the value function, for every table, kind and limit |
| Records.RowInserted | src/tools/context.py:112-117 | each inserted row goes under its own id, or the next one, which then lies above it; no other row changes |
| Records.RecordsRepository.DeleteAll | src/tools/context.py:108-110 | exactly the named rows go |
| Records.RecordsRepository.InsertAll | src/tools/context.py:112-117 | rows are added one by one, keeping given ids and raising the next id above them |
| Actions.KeysAreUnique | src/agent/nodes.py:158-165 | two (run, action) pairs whose actions, validated or edited, name a known tool and a target without a colon share a ledger key only if they are the same pair, whatever characters the run ids hold |
| Actions.KeysEqualExactly | src/agent/nodes.py:164-165 | for all strings: two pairs share a key exactly if they are the same, or one action is the other's with some x and a colon in front and the other run id is its run id followed by a colon and x |
| Actions.EditedKeysCanCollide | src/agent/nodes.py:101-110 | for every run id there is an edited delete, and another run id, whose key is that of a validated delete |
| EditedKeys.EditReachesExecution | src/agent/nodes.py:86-165 | a delete edited to any non-empty target, colons included, passes await_approval and revalidate and is prepared under its key |
| EditedKeys.EditedDeleteWaits | src/agent/nodes.py:86-155 | a new run whose proposed delete is edited and approved comes to revalidate as the theorem on approved deletes asks |
| EditedKeys.EditTakesAnothersKey | src/agent/nodes.py:86-181 | two runs over one sandbox: the edited delete of the first is executed, and the approved delete of the second is replayed from its entry and ends COMPLETED with every row of its kind still there |
| Actions.SplitJoin | src/agent/execution.py:41 | splitting tool:target at the first colon gives both parts back |
| Actions.ParseSound | src/agent/execution.py:41-69 | an action parsed to a tool is that tool's name, a colon and the target |
| Tools.UndoTwice | src/agent/execution.py:91-124 | executing any tool and compensating restores replicas, configuration, versions and records; compensating again changes nothing; the compensation fails only for a configuration key that was absent |
| Tools.PerformUndone | src/tools/mutating.py:58-163 | every compensation a tool registers carries the old values and leads back to the durable world it started from |
| Tools.AnchoredRestores | src/agent/execution.py:91-124 | a replayed compensation whose old values are the current ones changes nothing |
| Tools.PerformKeepsHistories | src/tools/mutating.py:58-163 | no tool makes two adjacent versions equal |
| Effects.RestartDoes | src/agent/execution.py:43-44 | executing restart_service:x under a new key: load and outage to baseline, disk kept, one restart more, no other service and no record touched, nothing to undo; raised exactly for an unknown service |
| Effects.ScaleDoes | src/agent/execution.py:45-49 | scale_service:x sets the replicas to the given count, or 2, registers the old count, and changes nothing else |
| Effects.ClearDoes | src/agent/execution.py:50-51 | clear_cache:x sets the disk to 30 percent and changes no other metric; raised exactly without the service or its disk |
| Effects.ConfigDoes | src/agent/execution.py:52-61 | apply_config_change:x gives the given key the given value, keeps every other, and registers the old value; raised exactly without service, key or value |
| Effects.RollbackDoes | src/agent/execution.py:62-63 | rollback_deployment:x drops the newest of at least two versions and clears what a restart clears, without counting one |
| Effects.DeleteDoes | src/agent/execution.py:64-67 | delete_records:kind removes exactly the given ids that exist, or the first million of the kind, no other row, and registers each of them as it was |
| Effects.OthersRaise | src/agent/execution.py:41-69 | nothing but one of the six names, a colon and a target is ever executed |
| Effects.ServiceVerdict | src/agent/execution.py:74-88 | a service action passes its verification exactly if the target is up and its metrics are below the thresholds |
| Effects.DeleteVerdict | src/agent/execution.py:80-85 | a delete passes exactly if no id it reports is that of a row among the first million of its kind |
| Effects.FaultVerdicts | src/agent/execution.py:74-88 | with one fault in an otherwise new service, scaling it passes exactly for low loads, restarting it exactly unless the fault is a disk at medium or high |
| Effects.UndoDoes | src/agent/execution.py:91-124 | a compensation sets just the replicas, the configuration value or the version it names, or puts its rows back; it raises exactly for an unknown service and for a value that was absent |
| ToolContexts.ExecutedActionsStore.Record | src/tools/context.py:33-39 | first write wins |
| ToolContexts.ToolContext.RunOnce | src/tools/mutating.py:26-55 | over the mutable objects: a known key returns its entry and changes nothing, a new key performs and records; an error changes nothing |
| ToolContexts.ToolContext.PerformCall | src/tools/mutating.py:58-163 | the six tools over the mutable services and table equal their functions on the world |
| ToolContexts.ToolContext.Execute | src/agent/execution.py:36-71 | dispatch and input checks, then the idempotent run |
| ToolContexts.ToolContext.Verify | src/agent/execution.py:74-88 | health of the target, or no deleted id still listed |
| ToolContexts.ToolContext.Undo | src/agent/execution.py:91-124 | compensations over the mutable objects equal their function on the world |
| Observations.GatherObservations | src/agent/observations.py:26-44 | the service-by-service loop yields the sweep of the world, or raises exactly when a service or its disk endpoint is missing |
| Observations.ValidatedHasFingerprint | src/revalidation/fingerprint.py:54-81 | a proposal that passes validation can be fingerprinted without a failing lookup |
| Observations.ValidatedIsGrounded | src/revalidation/fingerprint.py:54-74 | a validated proposal names a known tool and a known target |
| Readings.SweepPossible | src/agent/observations.py:26-44 | a sweep succeeds exactly if the three services are there and the third has its disk |
| Readings.SweepShows | src/agent/observations.py:26-44 | it shows status, load, replicas, restarts and newest version of the three services, the disk of the third alone, and the first thousand rows by id |
| Readings.ValidExactly | src/revalidation/fingerprint.py:54-74 | on a sweep of any world a proposal is accepted exactly if it deletes one of the three kinds, clears the cache of service_c, or applies another known tool to one of the three services; each refusal carries its own reason exactly in its own case |
| Readings.DriftExactly | src/revalidation/fingerprint.py:28-51 | for every accepted action and any two worlds that can be swept, fingerprints agree exactly if: for restart and scale, status, memory, cpu and error rate of the target agree; for clear_cache its disk; for rollback its status and newest version; for a config change its status; for a delete, the same rows of the kind are among the first thousand |
| Readings.PrintsDecide | src/revalidation/fingerprint.py:77-81 | the same on any two sweeps: the ids of a delete as multisets, whatever their order |
| Observations.VisibleIsPrefix | src/agent/observations.py:42 | the ids of a kind the sweep shows are the first of all its ids in order, and all of them exactly if they lie in the first 1000 rows |
| Observations.ApprovedDelete | src/tools/mutating.py:93-103 | a delete after a clean revalidation removes exactly the fingerprinted ids if and only if all rows of the kind were visible, and touches no other row |
| Observations.SmallTableAllVisible | src/agent/observations.py:42 | a table of at most 1000 rows hides nothing |
| Observations.ThousandAndOneRowsDiffer | src/tools/mutating.py:93-103 | with 1001 rows of one kind the sweep shows 1000 and the delete removes 1001, one of them never shown |
| Observations.DeleteDriftExactly | src/revalidation/fingerprint.py:47-49 | a delete sees no drift exactly if the same rows of its kind have fewer than 1000 rows of smaller id; where the rows of the kind are unchanged, exactly if each of them had fewer than 1000 before it just when it has now |
| Observations.OtherKindCanDrift | src/revalidation/fingerprint.py:47-49 | past the sweep limit, inserting a row of another kind causes drift |
| Observations.UntouchedNoDrift | src/revalidation/fingerprint.py:28-51 | for every action: a world that shows its target service, or the rows of its kind, as another does gives the same fingerprint |
| Observations.ChangesElsewhereNoDrift | src/revalidation/fingerprint.py:28-51 | no sequence of changes to other services or to records makes a service action drift |
| Hearing.NodeHears | src/agent/nodes.py:21-237 | from any state, a node run that comes through writes its own channels and no other, with the answer it got - summary, proposal with parameters, tier, decision with approver and edit, sweep, key, result with compensation, verdict - leads where the answer says, touches sandbox and ledger only in execute and rolling_back, and adds one record telling it |
| Hearing.RaisesExactly | src/agent/nodes.py:21-237 | a node raises exactly where a lookup it relies on fails: a sweep, a missing channel, an action that does not split or cannot be fingerprinted, a refused call, verification or compensation |
| Hearing.DeathLeaves | src/audit/hook.py:41-68 | a node run that dies leaves the sandbox from the act on, the ledger from its write on, the log from the audit write on as the surviving one would, and never the checkpoint |
| Hearing.TierDecides | src/risk/policy.py:87-102 | in any run, a classification goes on to execution without a human exactly if the model said low, the tool is neither delete nor rollback, and the last sweep does not show the target with fewer than two replicas and a restart |
| Hearing.DriftDecides | src/agent/nodes.py:137-155 | in any run, an approved action is dropped at revalidation exactly if the world, in the fields its tool depends on, differs from the last sweep |
| Hearing.VerdictDecides | src/agent/nodes.py:184-193 | a service action completes exactly if its target is up and below the thresholds when verify looks |
| ExactlyOnce.ExactlyOnceUnderCrashes | src/tools/mutating.py:37-55 | for every crash pattern and interference the world is changed under one key at least k and at most 1 + k times, k the deaths between acting and recording; every later call returns the first recorded entry |
| ExactlyOnce.AtMostOnceExactly | src/tools/mutating.py:37-55 | for every run: a key acts exactly once per such death plus once if one of its calls was recorded; at most once if and only if there was no such death, or one and no recorded call; where nobody else writes the key, recorded means that the ledger holds it |
| ExactlyOnce.OnlyPerformedCallsAct | src/tools/mutating.py:37-55 | a committed execute changes the world only by a call that performed |
| Witnesses.LostWriteActsTwice | src/tools/mutating.py:47-48 | at any execute, for any tool: a death between acting and the ledger write makes the continued run act a second time |
| Conservation.EndsConserved | src/agent/nodes.py:158-237 | with quiet surroundings, no lost ledger write, continued crashes, and new starts from START wherever checkpoint and ledger show nothing in force: ESCALATED leaves the durable world as it was; COMPLETED implies a passed verification, exactly one acting, recorded call under the completed action's key since the last proposal and the start plus its effect - or, if that action was rolled back earlier, no acting call and nothing new |
| Conservation.EscalationConserves | src/agent/nodes.py:192-237 | ESCALATED leaves the durable world as it was also if new starts from START happen anywhere the world is as it was at the beginning, and ledger writes are lost of calls that changed nothing durable |
| Conservation.RunKeepsInv | src/agent/nodes.py:158-204 | the invariant behind it, over runs with harmless new starts: every ledger entry of the run carries the start's values and explains its key, and the channels account for what is in force |
| Restarts.RestartExactly | src/chaos/harness.py:178-181 | at any point of such a run, while the sandbox can be swept: a new start from START can be followed by a quiet escalation with the durable world changed if and only if running the undo that checkpoint and ledger show as pending would change the durable world or fails, which is if and only if the world is not as it was at the beginning; nothing is pending before an execution was recorded |
| Restarts.RestartCanGiveUp | src/agent/nodes.py:207-237 | from any checkpoint and replan counter a restart can escalate with the world as it finds it |
| Reproposals.RepeatedEndsConserved | src/chaos/harness.py:229-255 | a run may be started again anywhere if the action in force is the next one prepared: COMPLETED means a verified action that acted once and once more per loss, with the start plus its recorded effect (the start alone if it was rolled back earlier); ESCALATED means the start, or, with the action not come back to, the start plus that action with its undo in the ledger |
| MidExecution.ScriptedRepeats | src/chaos/agent_process.py:41-56 | a reasoner that always proposes the same action, unedited, always prepares the action in force first |
| MidExecution.KilledMidExecution | src/chaos/harness.py:229-255 | a lone service's restart, killed after its ledger write and started again: the second attempt is medium and goes to sleep with the service restarted once; approved, it completes by replay and has acted once |
| MidExecution.TrialGoesToSleep | src/chaos/harness.py:229-255 | that run on the sandbox as built, with service_a |
| Witnesses.LostWriteLosesTheUndo | src/tools/mutating.py:47-48 | a new run with one death between acting and the ledger write, continued without interference: its scaling acts exactly twice under one key and it escalates with the scaling in force |
| LostWrites.LostWriteExactly | src/tools/mutating.py:47-55 | at any point of a run whose restarts and earlier losses were harmless: dying between a call and its ledger write can be continued to an escalation away from the start - quietly, never restarted, without further harmful loss - if and only if the call scaled to another count, set another value, or rolled back with more than one version left |
| Witnesses.StartingAgainLosesTheUndo | src/chaos/harness.py:178-181 | started again from START, a run escalates with the executed scaling still in force |
| Witnesses.ReplayIgnoresParameters | src/agent/nodes.py:164-189 | a re-proposed action completes as a replay: new parameters ignored, old result reported, nothing in force |
| AuditLog.LogAheadOfCheckpoint | src/audit/hook.py:41-68 | for every crash pattern and forward clock the committed statuses are a subsequence of the replayed log, and the chain breaks exactly once per death between audit write and commit that changed the status, so that it is complete exactly without such a death but one still pending; without any death there the replay is the status trace |
| AuditLog.OrderedSorts | src/audit/replay.py:10-11 | ordering by timestamp keeps every record, sorts, and leaves records of one timestamp in their order of arrival |
| AuditLog.NoBreaksIsChain | src/audit/replay.py:20-28 | a log is a complete chain exactly if in the order of time it has no break, that is, each record continues from the one before |
| AuditLog.StatusesWalkTheDiagram | src/agent/graph.py:53-84 | the committed statuses of a run never started again are a walk in the documented diagram plus the named extra edges |
| AuditLog.DecisionsDontLeak | src/audit/hook.py:35-66 | for every crash pattern, restarts included, a record carries a decision exactly if it is the self-loop of await_approval, an approver only with it, and a human actor exactly for a decision that is no timeout |
| AuditLog.RecordsTellCommits | src/audit/hook.py:35-68 | over every run without a death between audit write and commit, the log is the committed nodes one by one: run id, both statuses, action, final tier and key as the node left them, the decision and its approver of await_approval alone, and the actor by node and decision |
| HumanGate.NoExecutionWithoutClearance | src/agent/nodes.py:54-121 | in both graphs and under every crash pattern each tool call follows, in its own cycle, either the model's own low for that action, left at low by the policy, or a favourable decision after which it did not change; deletes and rollbacks always the decision |
| Evidence.EvidenceIsSound | src/agent/nodes.py:54-155 | over every run: the replan reason names the real cause in all cases but one and never in that one; every tier is high for delete and rollback, medium for a model's low on a target the last sweep shows with fewer than two replicas and a restart, otherwise the model's; drift is reported exactly if a field the tool depends on differs from the last sweep; approved actions are prepared only after a clean revalidation; the channels hold the last decision, sweep, tiers and verdicts |
| Evidence.CommitIsSound | src/agent/nodes.py:207-225 | the same of one committed node, for any channels that remember what was committed before it |
| Witnesses.FailureBlamedOnTheHuman | src/agent/nodes.py:207-217 | a failed low-risk action after an earlier rejection is reported as rejected by a human |
| Witnesses.LowRiskLoopMissesItsRestart | src/risk/policy.py:87-102 | a sole instance restarted by this very run is classified low again |
| ApprovedDeletes.ApprovedDeleteRemovesWhatWasSeen | src/agent/nodes.py:137-181 | over every list of node runs, crashes and continuations from an approved delete whose fingerprint still shows, undisturbed and without a lost ledger write: the run stays between revalidate and verify, and at verify exactly the fingerprinted ids are gone if and only if the sweep shows every row of the kind, no other row being touched |
| ApprovedDeletes.FingerprintIsLastSweeps | src/agent/nodes.py:101-110 | before revalidation the fingerprint is that of the run's last sweep, also after an edit |
| ConcurrentRollback.NoDoublePop | src/agent/nodes.py:137-181 | for any number of runs in any interleaving, dying, continued and started again, and any changes by others: if one run pops a version and later a run approved for that version pops too, the second had passed revalidate before the first popped and been on its way to execute ever since, or some step in between brought the version back |
| ConcurrentRollback.OneRunOfMany | src/agent/graph.py:89-113 | what one node run, dying or not, or a new start does among many runs over one sandbox and ledger is what it does to that run alone; the other runs stay where they are |
| ConcurrentRollback.EveryRollbackRechecked | src/agent/graph.py:53-84 | in any such course every run about to execute a rollback has a passing revalidate behind it, since which its action and fingerprint did not change |
| ConcurrentRollback.AtomicNoDoublePop | src/agent/nodes.py:137-181 | if the second run was not yet cleared when the first popped, some step in between brought the version back |
| ConcurrentRollback.InterleavedBothPop | src/agent/nodes.py:137-181 | interleaved, two such runs both pop |
| ConcurrentRollback.InterleavedRunsBothPop | src/agent/nodes.py:86-181 | two new runs over one sandbox, each proposing and getting approved a rollback of one service, do so from their first node on: two versions are gone |
| ConcurrentRollback.BuiltSandboxLosesTwoVersions | src/env/mock_service/state.py:157-170 | on the sandbox as built that leaves one version of three |
| Termination.RunsAreShort | src/agent/graph.py:53-84 | a run never started again commits at most 3 proposals, 3 executions, 3 replans - which the counter counts - and 26 nodes plus 3 per sleep, at most 35 |
| Termination.CommitUsesBudget | src/agent/nodes.py:220-229 | every commit uses up a budget fixed by the replan counter; only going to sleep gives some back |
| Witnesses.BoundsAreTight | src/agent/state.py:17 | runs of exactly 35 and exactly 26 node runs exist |
| Witnesses.SickSandbox | src/env/registry.py:9-19 | the situations the witness runs start from exist: the sandbox as built, a full disk injected into its one disk service, and the same after clean_disk |
| AuditStores.InMemoryAuditStore.Record | src/audit/store.py:26-27 | appended records show up at the end of their own run's log and in no other |
| AuditStores.InMemoryAuditStore.GetRun | src/audit/store.py:29-30 | the records of one run, oldest first |
| Engine.GraphThread.Consult | src/agent/nodes.py:21-200 | what a node gets from the mutable sandbox is what the transition system says |
| Engine.GraphThread.RunOnce | src/audit/hook.py:41-68 | effects, then the audit record, then the commit: one surviving node run of the transition system; a raising node changes nothing |
| Engine.GraphThread.Drive | src/agent/graph.py:89-100 | a call ends, is a run of the transition system, and comes back suspended with AWAITING_APPROVAL, over with COMPLETED or ESCALATED, or raised exactly if its last node raises; no approval is consumed and at most its first node revalidates |
| Engine.GraphThread.Resume | src/agent/graph.py:103-113 | a resume consumes the decision first and then drives on as one run of the transition system, raised exactly if its last node raises |
| RunRegistries.InMemoryRunRegistry.Upsert | src/api/run_registry.py:38-40 | one row is set, insertion order kept |
| RunRegistries.InMemoryRunRegistry.ListPendingApproval | src/api/run_registry.py:45-46 | exactly the rows awaiting approval, each once |
| Api.App.CreateRun | src/api/main.py:51-61 | the run is driven from a new thread, or from START with the channels of a known one, as a run of the transition system, and its row is current; it fails exactly if the last node raises, and the registry then stays as it was; other runs are untouched |
| Api.App.SubmitDecision | src/api/main.py:75-91 | 404 exactly for unknown runs, 409 exactly for rows not awaiting approval, otherwise the run is driven on as a run of the transition system and its row is current, failing exactly if the last node raises; a refusal or a raise leaves the registry as it was; other runs are untouched |
| Api.App.PendingApproval | src/api/main.py:63-66 | while no call raised, the approval queue is exactly the set of suspended runs, each listed once |
| LogDerived.LogTellsTheRun | src/eval/runner.py:367-371 | over every crash-free run the proposed and executed lists and the rollback flag read off the log are what happened |
| LogDerived.TierWaits | src/agent/nodes.py:54-84 | a run never started again that holds a medium or high tier has gone to await_approval or is about to |
| Runner.RunScenario | src/eval/runner.py:280-403 | the record is read off the final channels and the log of a crash-free run of a new thread that starts from the injected fault and ends in the world left behind; there is none only if the sandbox refuses the fault, or a staleness change during the first suspension, or the next node of that run raises |
| Runner.RecordTellsTheRun | src/eval/runner.py:363-403 | such a record tells the run: proposals, executions, rollback, drift found by any revalidation, tiers and floor of the last classification, the last verdict, the number of replans, the approvals times the wait for one, a complete chain replaying the statuses, COMPLETED or ESCALATED, and an approval waited for whenever the final tier is medium or high |
| Runner.ApproveAll | src/eval/runner.py:345-362 | the approval loop ends, waits once per approval and accumulates drift over resumes |
| Runner.DriftOfResume | src/eval/runner.py:357-362 | the one revalidation of a resume is what the channel reports afterwards |
| Runner.ApplyChange | src/eval/runner.py:254-277 | the harness's sandbox changes over the mutable objects, refused without effect where the endpoint refuses |
| Runner.ChangeMeans | src/eval/runner.py:254-277 | in fields: a reset gives a new service, an injected fault what FaultMeans says, a rollback the previous version, a deletion takes the first million rows of the kind; each is refused exactly where the endpoint refuses, and nothing else changes |
| Metrics.GenuineRates | src/eval/metrics.py:72-78 | on any list of records each made from some crash-free run, gate compliance, audit completeness and rollback success are 100 or undefined |
| Metrics.GateComplianceMeans | src/eval/metrics.py:72-78 | on any records: the share, in percent, of runs that waited among those with final tier medium or high, undefined exactly without any |
| Metrics.ConfusionMatrix | src/eval/metrics.py:88-108 | cell (a, p) is the number of runs whose scenario expects a and whose model, not the policy, said p; the total is the number of runs for which both are known |
| Metrics.CellsSumToTotal | src/eval/metrics.py:94-122 | the nine cells sum to the number of classified runs |
| Metrics.ScoresAreCounts | src/eval/metrics.py:110-121 | a tier's scores are those of the runs the model rightly took for it, wrongly took for it, and wrongly did not |
| Metrics.F1Between | src/eval/metrics.py:110-121 | precision is 100tp/(tp+fp), recall 100tp/(tp+fn), each undefined exactly over zero; F1 is defined exactly with a true positive, is 200tp/(2tp+fp+fn), and lies between them |
| Metrics.PerToolAddsUp | src/eval/metrics.py:125-146 | the per-tool matrices add up cell by cell to that of all runs with a proposal |
| Metrics.ByTool | src/eval/metrics.py:125-146 | there is a matrix for each tool that some run proposed last, and it is that of the runs whose last proposal is the tool's |

## Left out

- LLM reasoners, the Ollama client and prompts: an arbitrary oracle answers; only the shape of its answers is used.
- FastAPI, httpx, asyncpg and LangGraph internals: requests are calls, a node run is atomic up to the modelled crash points, and the Postgres stores are represented by the in-memory ones that share their Protocol.
- SHA-256 and canonical JSON: a fingerprint is the tuple of relevant fields itself, as if the truncated hash were injective.
- Concurrent writes during one sweep: the GETs of one sweep see one world.
- Rationale, log lines, scenario id and the texts of replan reasons: the reasons are an enumeration, the texts are dropped.
- `initial_state` of a created run: a new thread holds its run id only.
- Coercion of free-form action parameters by the input schemas: a parameter is missing, refused or usable.
- Decision texts outside approved, edited, rejected and timeout, and tier texts outside the three, which the code lets through to the escalate and approval routes.
- Resuming a thread that is not suspended, which the API guards against: what the graph library then does is not part of this model.
- Timestamps are integers, percentages and rates are reals: floating-point rounding is not modelled.
- Wall-clock timing, percentiles, memory sampling, token counts, load tests, the chaos harness's processes and the command line: measurements or file handling.
- Unsafe-action, diagnosis-accuracy, staleness and remediation rates: single counts over given lists that would only add easy members.
- Frontend, scenario content and its validation: presentation or list checks.
- Conservation.EndsConserved: speaks of replicas, configuration, version histories and records; metrics and restart counts change for good, as the program intends.
- Conservation.EndsConserved: assumes the ledger holds none of the run's own keys at its start, which an edited action of another run can violate (EditedKeys.EditTakesAnothersKey).
- Api.App.SubmitDecision: requires of a row shown as awaiting approval that its run is suspended, which an earlier call on this run that raised on its way, or an overlapping one, can undo; resuming a thread that is not suspended is not part of this model.
- Runner.RunScenario: models the record's fields that are read off the run and its log; wait seconds are those requested, not measured.
