# nuzur-cli: verified model of the deploy lifecycle, the local agent and the code scanner

A Dafny 4.11 model of the parts of nuzur-cli whose correctness cannot be read off one function body, with proofs of
what they promise. `dafny verify dfyconfig.toml` checks everything.

**The deploy lifecycle** (`Records`, `Targeting`, `BoxDecision`, `Lifecycle`, `LifecycleInvariants`, `Handles`,
`LostVM`, `SecondServer`, `RunRecords`, `Redeploy`, `PlanApply`, `PlanTargets`, `PlanDiffers`, `DeployRun`, `Selector`,
`Catalog`). The state is what outlives a run: the record store and the provider's VMs. Every label of `Lifecycle` is one
atomic write or one outside event; a run can be cut off between any two of them, also after the provider made the VM and
before that is written down, or with that write failing. `BoxDecision` says which server a run gets,
`LifecycleInvariants` what holds after every sequence of runs, `Handles` and `LostVM` when no VM is lost, `RunRecords`
what a run leaves on disk after every cut, field by field, and `Redeploy` what the next run makes of it. `DeployRun` has
the same steps as methods that update a run's fields and mutate records, each proved to be one step of the state
machine. `PlanTargets` says for every combination of flags which database `deploy --plan` shows and which one `deploy`
reaches, `PlanApply` compares the two in any reachable store, and `PlanDiffers` gives the stores in which they are not
the same.

**The local agent** (`Threads`, `AgentRuntime`, `Requests`, `Handlers`, `TxPool`, `DbPool`). Goroutines have program
counters, mutex sections are atomic and everything else interleaves. Looking a transaction up and touching it are two
steps. `Requests` follows each request from its arrival to its end. `Handlers`, `TxPool` and `DbPool.DbCache` are the
same operations on the fields the source updates.

**The code scanner** (`Owners`, `PrimaryOwner`, `JsStrings`, `JsLiterals`, `Keyspaces`, `Sorting`, `EdgeFacts`,
`Routes`, `RoutePatterns`, `SuffixResolution`): fixpoints over the include graph, a tokenizer against a lexical grammar
that reads every source in one way, an abstract interpretation of key expressions against their run-time value,
canonical output, abstract route matching and suffix resolution.

**Text another parser reads** (`Shell`, `DsnParams`): shell quoting and here-documents against sections 2.2, 2.3 and
2.7.4 of the POSIX.1-2017 Shell Command Language, and the merge of connection parameters.

`Text`, `Paths` and `Wrappers` are shared helpers.

## What the proofs found

Each of these is a condition the code does not check; the lemma named states it exactly.

- `deploy --deployment X --new-vm`, and a second managed provider for an application whose record's host was adopted,
  write the new VM's pending record over the handles of the old one (the concrete
  `LostVM.NewVMOnARecordedHostLosesTheOldOne`). A start is safe when every VM its record names, by either handle, keeps
  that name or is named by another record. A run can leave a VM unnamed exactly when its start is not safe
  (`LostVM.SafeStartIsExact`), and over whole sequences no run can exactly when all starts are safe
  (`LostVM.OnlySafeRunsLoseNothing`).
- A record selected by id plans against its own box, but the apply goes to a newer box of the same project and
  identifier if there is one (`PlanApply.PlanMatchesApplyOnABox`, and `PlanDiffers.OlderBoxPlannedNewerDeployed` for
  stores where it is so). A team connection that turned from Postgres to MySQL plans a schema the apply does not use
  (`PlanApply.PlanMatchesApplyOnATeamConnection`, `PlanDiffers.EngineIsMisread`). With `--host` and `--identifier` the
  plan follows the recorded team connection and the apply does not (`PlanApply.HostPlanMatchesApply`,
  `PlanDiffers.TeamConnectionIsForgotten`).
- `--connection` of a MySQL connection together with `--db postgres` plans a database named by the Postgres schema, which
  the apply does not use (`PlanTargets.PlannedConnectionIsApplied`).
- `--deployment` of what a run deployed does not give back its provider when the run was an ssh run over a managed server,
  nor its database when the run had no team connection and continued a record that has one
  (`Redeploy.AdoptingAFinishedRun`).
- A `Get` that crosses `Close` may cache its handle behind it. However the `Get`s in flight go on, everything is closed
  at their end exactly when at `Close` none of a registered connection was between its arrival and its re-check
  (`DbPool.CloseIsExact`).
- The includes decide the owner of a file exactly when no include cycle lies above it
  (`PrimaryOwner.OnlyCyclesLeaveOwnersOpen`).
- A use stamped more than 60s before the last sweep outlives the 75s bound (`TxPool.LateStampBreaksTheBound`).
- A token's line is off by exactly the newlines hidden in earlier literals: escaped ones and those inside `${...}`
  (`JsStrings.LineIsExactUnlessHidden`).
- A keyspace is no prefix of the key when the static text starts with a space, or when its cut, spaces aside, runs past a
  `Sprintf` whose surplus arguments are reported (`Keyspaces.KeyspaceIsAPrefix`).
- A route matched with a marker in a last segment that has a dot is matched by none of the paths it stands for
  (`Routes.AbstractMatchIsSound`).
- A file whose content has a line `NUZUR_EOF` is cut short there (`Shell.ScriptReadsBack`). Its path is not quoted, so
  the file is the one named only when all characters of the path are literal to the shell (`Shell.PathsReadBack`).

## Assumptions

- One run at a time. Deployment ids, connection ids, VM names, instances, hosts and agent ids are new when minted.
- For `Handles` and `LostVM.NoVMIsEverLost` only: a run that creates a VM continues no recorded deployment. Managed runs
  without `--host` obey this by themselves (`Handles.RunsWithoutHostAreCareful`); nothing else assumes it.
- A run sees every record, in some order; a record that cannot be read is not modelled.
- The VM providers (ssh and the managed ones) only, in the lifecycle; k8s occurs in the record pickers.
- Hosts, project ids and record ids have no surrounding spaces where `PlanApply` says so.
- Characters stand for bytes where the code compares bytes (tokens, string order, shell text).

## Model

| member | source | states |
|---|---|---|
| Targeting.Latest | app/deploy_targeting.go:35-85 | the scan returns the first of the newest records that pass a test, and none only if none passes |
| Targeting.LatestIsUnique | app/deploy_targeting.go:35-85 | the listing alone fixes which record that is |
| Targeting.PickPriorDeployment | app/deploy_targeting.go:35-65 | the loop finds the newest usable record of a host and identifier |
| Targeting.PickBoxAgentUUID | app/deploy_targeting.go:70-85 | the loop finds the agent of the newest paired record of a host |
| Targeting.PickManagedBoxRecord | app/deploy_targeting.go:178-199 | the loop finds the newest managed record of a project and identifier |
| BoxDecision.CreatesExactly | app/deploy_targeting.go:232-306 | a managed run creates a VM exactly when no box of its project and identifier is recorded, the newest has another provider, or a new one is asked for |
| BoxDecision.RefusedExactly | app/deploy_targeting.go:232-306 | a run is refused exactly when the newest box is its own and has no host, or another project has its host and identifier; else it lands on its own box or the host it was given |
| BoxDecision.StartsExactly | app/deploy_pipeline.go:1460-1475 | nothing but a missing ssh host, identifier or project, its own box without a host, or another project's target keeps a run from starting |
| BoxDecision.ContinuesExactly | app/deploy_pipeline.go:1842-1880 | a run continues the paired record of its host and identifier under its id and connection, else the box it re-uses, else nothing; and takes the agent any record of the host has |
| RunRecords.WhatARunLeaves | app/deploy_pipeline.go:1010-1233 | after every cut the store is the one before but for the run's record, whose every field is given by its settings, the record it continued and the answers it got; the VMs are those before and its own |
| RunRecords.WhatADeadRunLeaves | app/deploy_pipeline.go:1010-1233 | a run that dies leaves just that, one that fails its message besides |
| RunRecords.ErrorsAreNotedFromTheBoxOn | app/command_deploy.go:136-164 | a run's error is written to its record exactly from the box record on |
| RunRecords.EveryRunHasAnswers | app/deploy_pipeline.go:186-428 | every run of the state machine is one of some answers, so that holds of all |
| Redeploy.FinishedRunIsRecorded | app/deploy_pipeline.go:716-754 | a finished run's record has its host, project, identifier, provider, engine, connection, agent and team connection, and no error |
| Redeploy.AcknowledgedVMIsRecorded | app/deploy_pipeline.go:1081-1095 | a written acknowledgement has the instance, the name, and the host when known |
| Redeploy.DeadRunIsResumed | app/deploy_targeting.go:232-306 | after a run that continued nothing and died with its VM acknowledged, while its record is the newest: the next run lands on that VM under the same record exactly when its host was written; otherwise it is refused |
| Redeploy.AdoptingAFinishedRun | app/deploy_targeting.go:430-508 | selecting what a run deployed is refused exactly for an external database with no team connection on record; else it gives back project, identifier, host and engine, the provider unless the run was ssh over a managed server, and the team connection unless the run had none and continued a record that has one |
| LostVM.OnlySafeRunsLoseNothing | app/deploy_pipeline.go:1010-1233 | over whole sequences of runs, no run can leave a VM unnamed exactly when every start is safe |
| LostVM.SafeRunsLoseNothing | app/deploy_pipeline.go:1010-1233 | after every sequence of runs whose starts are safe, each cut off anywhere, some record names each VM ever created |
| LostVM.SafeStartIsExact | app/deploy_pipeline.go:1010-1128 | in any store that keeps the invariants and names every VM, a start is safe exactly when its run leaves every VM named wherever it is cut off |
| LostVM.CarefulStartIsSafe | app/deploy_pipeline.go:1789-1894 | where all runs so far were careful, a start is safe that creates no VM or continues no recorded deployment |
| LostVM.NoVMIsEverLost | app/deploy_pipeline.go:1010-1128 | after every sequence of careful runs, each cut off anywhere, some record names each VM ever created by instance id or resource name |
| LostVM.NewVMOnARecordedHostLosesTheOldOne | app/deploy_pipeline.go:1789-1894 | a concrete run with a new VM on a recorded host that leaves the old VM without a record |
| LifecycleInvariants.StoreInvariantsAlwaysHold | app/deploy_targeting.go:35-108 | after every sequence of runs, each cut off anywhere: one agent per host, one usable record per host and identifier, one record per connection, and an agent in every record at agent-paired or later |
| LifecycleInvariants.RunsKeepInv | app/deploy_pipeline.go:1010-1233 | every sequence of steps keeps the store and run invariants |
| Handles.HistoryKeepsCarefulInv | app/deploy_pipeline.go:1010-1233 | over careful runs the handles of every managed record with a host are those of the VM at that host |
| Handles.RunsWithoutHostAreCareful | app/deploy_pipeline.go:1789-1894 | runs of managed providers that were given no host are careful: those that create a VM continue no recorded deployment |
| LifecycleInvariants.UsableForever | app/deploy_pipeline.go:1154-1233 | a usable record stays usable over every sequence of runs, although a re-deploy lowers its checkpoint |
| LifecycleInvariants.BoxAgentIsTheAgent | app/deploy_targeting.go:70-85 | in a reachable store the agent picked for a host is the one every paired record there has |
| LifecycleInvariants.PriorIsTheUsable | app/deploy_targeting.go:35-65 | in a reachable store the prior record picked is the only usable one of the host and identifier |
| Handles.RecordedBoxDescribesTheVM | app/deploy_pipeline.go:1178-1228 | in a careful run the handles written with the box are those of the VM at its host, also for ssh over a managed box and adopted half-built records |
| LifecycleInvariants.AcknowledgeKeepsInv | app/deploy_pipeline.go:1081-1095 | the provider's acknowledgement keeps the invariants whether or not its write succeeds or knows the host |
| SecondServer.NoSecondServer | app/deploy_targeting.go:178-306 | in every sequence of runs whose managed runs of one project and identifier name one provider and force no new VM, at most one VM is created for them, whatever other runs do |
| SecondServer.RecordsKeepTheirOwner | app/command_deploy.go:812-830 | no step moves a record to another project or identifier, and a managed record stays managed under an ssh re-deploy |
| PlanApply.PlanMatchesApplyOnABox | app/command_deploy_plan.go:131-178 | for a usable self-hosted record selected by id, the plan's target is the apply's push target exactly when no newer box is preferred, and then the pre-flight gate checks that target |
| PlanApply.PlanIsWhatApplies | app/command_deploy_plan.go:277-291 | for an ssh record or the box the picker returns, the apply is not refused and plan, push and gate are one target |
| PlanApply.PlanMatchesApplyOnATeamConnection | app/command_deploy_plan.go:277-291 | for a record with a team connection, plan and push agree exactly when the connection did not turn from Postgres to MySQL under a different schema name |
| PlanApply.HostPlanMatchesApply | app/command_deploy_plan.go:67-128 | selecting by host and identifier, plan and push agree exactly on records without a team connection |
| PlanTargets.NamedAgentIsPlanned | app/command_deploy_plan.go:67-91 | the agent and connection named are the target, and naming one of them is the error |
| PlanTargets.NamedRecordIsPlanned | app/command_deploy_plan.go:93-101 | a deployment id plans that record's team connection, else its agent and connection, else is an error; an unknown id is an error |
| PlanTargets.NamedConnectionIsPlanned | app/command_deploy_plan.go:103-112 | a team connection is planned under the engine and store it has now, an unknown one is an error |
| PlanTargets.HostIsPlanned | app/command_deploy_plan.go:114-128 | with a host the record a deploy would continue is planned; without one a raw DSN is an error |
| PlanTargets.NoTargetExactly | app/command_deploy_plan.go:67-128 | a plan has no target exactly when nothing is named and no record of the host and identifier can be continued |
| PlanTargets.RunHasSettings | app/deploy_pipeline.go:1460-1783 | a deploy runs under the settings it was given, its engine and team connection those it pushes to |
| PlanTargets.SelfHostedPush | app/command_deploy.go:388-405 | without a team connection a deploy pushes through its box's agent to its own connection, under the stated engine or the one recorded for the host |
| PlanTargets.ConnectedPush | app/command_deploy.go:388-405 | with one it pushes to that connection, to the database it names or the identifier's |
| PlanTargets.PlannedConnectionIsApplied | app/command_deploy_plan.go:103-112 | planning and deploying with a team connection reach the same database exactly unless --db says Postgres of a MySQL connection and the names differ |
| PlanTargets.GateChecksThePush | app/deploy_pipeline.go:1914-1921 | in a reachable store the pre-flight gate of a re-deploy checks the very database pushed to, and a first deploy has none |
| PlanTargets.StatedFlagsWin | app/deploy_targeting.go:430-508 | a stated flag wins, and what was not stated comes from the record if it is there |
| PlanTargets.DatabaseNames | app/command_deploy.go:1098-1112 | ASCII letters are lowered, digits and underscores kept, all else an underscore; a name again is the name |
| PlanDiffers.OlderBoxPlannedNewerDeployed | app/command_deploy_plan.go:131-178 | in every store with two finished boxes of one app, selecting the older plans that box and pushes to the newer |
| PlanDiffers.EngineIsMisread | app/command_deploy_plan.go:277-291 | a store and a connection that turned from Postgres to MySQL, in which plan and push differ |
| PlanDiffers.TeamConnectionIsForgotten | app/command_deploy_plan.go:67-128 | a store in which, selecting by host and identifier, the plan is about the team connection and the push is not |
| PlanDiffers.TwoBoxesExist | app/deploy_targeting.go:232-306 | there are such stores with two boxes |
| PlanDiffers.TeamBoxExists | app/deploy_pipeline.go:736-742 | there are such stores with a team connection |
| PlanApply.FindByID | app/command_deploy_plan.go:181-188 | the record found has the id, and none is missed |
| Selector.DeploySettings.ApplyDeploymentSelector | app/deploy_targeting.go:430-508 | the settings become those adopted from the record, refused exactly when an external database cannot be reached, and what was adopted is reported in order |
| Catalog.PublishConnectionCatalog | app/command_deploy.go:345-382 | the deploy's own connection comes first, each other connection of the agent is listed once, and nothing else |
| Catalog.NoProjectIsDropped | app/command_deploy.go:345-382 | in a reachable store every other project's connection on the agent is published under its own name |
| DeployRun.RecordStore.Mutate | deploy/state.go:213-239 | one atomic read-modify-write of one record, created when absent; when it fails, nothing is written |
| DeployRun.DeployState.StepDecideBox | app/deploy_pipeline.go:1789-1894 | the run's box, host, prior record, agent, connection and id are those of the decision |
| DeployRun.DeployState.StepPendingRecord | app/deploy_pipeline.go:1010-1044 | the reserving write is exactly the state machine's step |
| DeployRun.DeployState.StepProvisionVM | app/deploy_pipeline.go:1049-1128 | creating the VM and its acknowledgement are two steps of the state machine |
| DeployRun.DeployState.StepRecordBox | app/deploy_pipeline.go:1154-1233 | the box record is exactly the state machine's step |
| DeployRun.DeployState.StepWaitAgent | app/deploy_pipeline.go:1401-1442 | a shared agent is kept, otherwise the new one is recorded, whether or not the write succeeds |
| DeployRun.DeployState.StepFinalizeRecord | app/deploy_pipeline.go:716-754 | the final write is exactly the state machine's step |
| DeployRun.Deploy | app/deploy_pipeline.go:186-428 | a deploy of any VM provider, cut off after any number of steps, is a run of the state machine that gets exactly that far, leaves exactly the records and VMs of `RunRecords`, keeps the store invariants, and loses no VM if its start is safe |
| AgentRuntime.SlotsAreHandlersInFlight | agent/daemon.go:240-322 | under every interleaving the slots in use are the gated handlers in flight and never exceed the cap |
| AgentRuntime.EveryTxIsInOnePlace | agent/handlers.go:126-185 | every opened transaction is with one handler, pooled, with the reaper or finished, and is finished at most once |
| AgentRuntime.UngatedHandlersNeverWait | agent/daemon.go:292-299 | in every interleaving, a commit, rollback or query in a transaction can take its next step until it is done, which is after at most three of its own |
| AgentRuntime.SomeStepIsEnabled | agent/semaphore.go:35-55 | with at least one database connection, the agent can always make progress until nothing is left to do |
| AgentRuntime.InterleavingKeepsInv | agent/daemon.go:240-322 | slots, transactions and connections stay accounted for in every interleaving |
| Requests.NothingIsTurnedAway | agent/daemon.go:240-299 | any request can arrive at any time, and any part of the pool be swept |
| Requests.FinishPops | agent/handlers.go:153-185 | from its arrival on, the first move of a commit or rollback takes a pooled transaction out of the pool, and ends without one |
| Requests.FinishEnds | agent/handlers.go:153-185 | its second move ends the transaction once, whatever happened in between |
| Requests.EndedForGood | agent/handlers.go:153-185 | an ended transaction has no second end and is never pooled again |
| Requests.TxQueryLooksUp | agent/handlers.go:197-204 | a query in a transaction ends unused exactly when the transaction is not pooled |
| Requests.TxQueryIsUsed | agent/handlers.go:197-204 | of a pooled one it comes to its use at its second move, and then ends |
| Requests.InATxNeedsNoSlot | agent/daemon.go:247-299 | commits, rollbacks and queries in a transaction never wait for or hold a slot and are never stuck |
| Requests.OthersNeedASlot | agent/daemon.go:247-290 | other queries and begins start by waiting and do nothing without holding a slot |
| Requests.TheWaitEnds | agent/semaphore.go:35-45 | the wait ends with a free slot, which is taken, or with the time-out, and then nothing was done |
| Requests.QueryRuns | agent/daemon.go:254-262 | with its slot a query takes a connection and runs, and the slot is back at its end |
| Requests.BeginOpens | agent/handlers.go:126-151 | with its slot a begin opens one transaction or none |
| Requests.BeginPools | agent/handlers.go:126-151 | the transaction is pooled when its schema could be set and ended when not; then the slot is back |
| Requests.ReapedAreEnded | agent/txpool.go:75-96 | a swept transaction leaves the pool for good and is ended once by the reaper's rollback |
| Requests.ShutdownEndsThePool | agent/txpool.go:100-107 | shutting down ends every pooled transaction |
| Handlers.QuerySemaphore.Acquire | agent/semaphore.go:35-45 | a slot is taken, or the context fired and nothing was; a nil semaphore always lets through |
| Handlers.QuerySemaphore.Release | agent/semaphore.go:50-55 | a slot is given back |
| Handlers.Agent.HandleBeginTx | agent/handlers.go:126-151 | a transaction is pooled only when open with its schema applied, otherwise nothing of it stays open |
| Handlers.Agent.HandleFinish | agent/handlers.go:153-185 | commit and rollback take the transaction out of the pool and end it once, without a slot |
| Handlers.Agent.DispatchBeginTx | agent/daemon.go:278-290 | the slot is back when the handler is done, and a request without a slot changes nothing |
| TxPool.TxPool.Add | agent/txpool.go:35-43 | the transaction is pooled under its id, stamped with the time |
| TxPool.TxPool.Get | agent/txpool.go:48-57 | the pooled transaction is returned and its stamp renewed |
| TxPool.TxPool.Touch | agent/txpool.go:23 | a touch shows in the pool only if the entry is still pooled |
| TxPool.TxPool.Pop | agent/txpool.go:62-71 | the transaction leaves the pool and is returned, nothing else changes |
| TxPool.TxPool.ReapIdle | agent/txpool.go:75-96 | exactly the entries not used for more than 60s leave, each handed to one rollback |
| TxPool.TxPool.CloseAll | agent/txpool.go:100-107 | the pool is empty and every transaction was rolled back |
| TxPool.IdleBound | agent/daemon.go:330-344 | with a sweep every 15s no pooled transaction's stored last use is ever more than 75s old |
| TxPool.LateStampBreaksTheBound | agent/txpool.go:16-23 | the bound survives a store in every continuation exactly when the stamp is no more than 60s before the last sweep |
| DbPool.NoHandleIsLost | agent/dbpool.go:46-103 | under every interleaving each opened handle is held by the Get that opened it, cached for its connection, or closed: exactly one of these |
| DbPool.OneHandlePerConnection | agent/dbpool.go:46-89 | before Close all Gets of a registered connection return one handle, cached and open |
| DbPool.UnregisteredGetsFallback | agent/dbpool.go:84-88 | before Close a Get of an unregistered connection gets the fallback, and fails exactly when there is none |
| DbPool.CloseIsExact | agent/dbpool.go:92-103 | every handle is closed after Close, however the Gets in flight go on to their end, exactly when none of a registered connection was before its re-check |
| DbPool.EveryPoolIsSane | agent/dbpool.go:46-103 | every interleaving, with Closes in it, ends in a pool to which that applies |
| DbPool.CallsArePossible | agent/dbpool.go:46-103 | any connection can be asked for and the pool closed at any time, and an open can fail or succeed |
| DbPool.DbCache.Keep | agent/dbpool.go:71-79 | the re-check under the lock: a handle cached meanwhile wins and the new one is closed |
| DbPool.DbCache.Get | agent/dbpool.go:46-89 | a Get on its own is the interleaving system's steps in a row: it returns what is cached, else opens and caches the new handle, else the fallback |
| DbPool.DbCache.Close | agent/dbpool.go:92-103 | every cached handle and the fallback are closed, and the cache and fallback are gone |
| Owners.PropagateOwners | codescan/extract_frontend.go:477-487 | the loop ends, and a unit owns a file exactly when a file it renders or names reaches it along includes, in whatever order they are listed |
| Owners.PropagateInclude | codescan/extract_frontend.go:480-485 | one include adds the includer's owners to the included file and reports whether any was new |
| Owners.ClosureIsReachability | codescan/extract_frontend.go:453-487 | a closed assignment with the direct owners and only loaders is reachability |
| PrimaryOwner.PickOwner | codescan/extract_frontend.go:552-578 | the owner is the unit that scores strictly most; no score or a tie gives none |
| PrimaryOwner.OwnerIsUnique | codescan/extract_frontend.go:567-578 | a file has one owner under given owners of its includers |
| PrimaryOwner.ScoreFile | codescan/extract_frontend.go:552-566 | the table holds two points per tie and one per called unit, for the units that score and no others |
| PrimaryOwner.ScoreCounts | codescan/extract_frontend.go:552-566 | a unit's score is two for every tie counted by its place, and one for calling any of its routes |
| PrimaryOwner.Round | codescan/extract_frontend.go:549-586 | a round settles one more depth, keeps what is settled, and one that changes nothing leaves every file settled |
| PrimaryOwner.PrimaryOwners | codescan/extract_frontend.go:547-589 | an early end leaves a stable assignment; files with at most 19 includes above them and no cycle are settled after 20 rounds, in any visiting order |
| PrimaryOwner.SettledOwnersAgree | codescan/extract_frontend.go:547-589 | on files without a cycle above them the settled owners are unique, so the visiting order does not matter |
| PrimaryOwner.AnyOwnerIsStable | codescan/extract_frontend.go:547-589 | where includes are the only ties, any unit may own any set of files that is closed under including and included, and nobody the rest |
| PrimaryOwner.OnlyCyclesLeaveOwnersOpen | codescan/extract_frontend.go:547-589 | the includes fix a file's stable owner under every choice of other ties exactly when no include cycle lies above it |
| JsStrings.Scan | codescan/extract_frontend.go:795-851 | the scanner ends on every input and returns the literals, values and lines of the whole source as the grammar reads it, in bounds, ordered and disjoint |
| JsStrings.ScanLiteral | codescan/extract_frontend.go:815-847 | a literal is read to its quote, to the newline that breaks it, or to the end, with its value and the newlines counted |
| JsStrings.ReadingIsUnique | codescan/extract_frontend.go:795-851 | the grammar reads a source in exactly one way |
| JsStrings.TokensAreOrdered | codescan/extract_frontend.go:798-850 | tokens are in bounds, strictly ordered and disjoint, start at a quote and end after the same quote or with the input |
| JsStrings.LineIsExactUnlessHidden | codescan/extract_frontend.go:797-847 | a token's line is one plus the newlines before it exactly when no earlier literal hides a newline |
| JsStrings.PlainValueIsText | codescan/extract_frontend.go:837-841 | a literal without escapes and holes has the text between its quotes as value |
| JsLiterals.PlainLiteral | codescan/extract_frontend.go:815-847 | behind any code, plain text in quotes of each kind is one token with that text, its bounds and its line |
| JsLiterals.EscapedLiteral | codescan/extract_frontend.go:815-821 | any text at all with a backslash before each character reads back as that text |
| JsLiterals.HoleIsAMarker | codescan/extract_frontend.go:825-836 | a hole in a template is one marker, whatever it holds |
| JsLiterals.BrokenLiteralIsNoToken | codescan/extract_frontend.go:822-848 | a literal broken by a newline is no token |
| JsLiterals.BlockCommentHasNoTokens | codescan/extract_frontend.go:808-814 | nothing in a block comment is a token |
| JsLiterals.LineCommentHasNoTokens | codescan/extract_frontend.go:803-807 | nothing in a line comment is a token |
| JsLiterals.CodeHasNoTokens | codescan/extract_frontend.go:795-851 | code without quotes and slashes has no token |
| JsLiterals.SourceParts | codescan/extract_frontend.go:795-851 | code, a quote, a body and the quote again are the sources these are about |
| Keyspaces.KeyspaceIsAPrefix | codescan/extract_keyspaces.go:111-129 | for every expression and environment the keyspace is a prefix of the value exactly when the static text has no leading space and its cut has nothing but spaces behind the first report of surplus arguments |
| Keyspaces.CompleteTextIsTheValue | codescan/extract_keyspaces.go:133-163 | a text flagged complete is the value exactly when no Sprintf reports surplus arguments |
| Keyspaces.StaticTextDescribesValue | codescan/extract_keyspaces.go:133-163 | how the static text of every expression relates to its value |
| Keyspaces.StaticKeyIsKeptWhole | codescan/extract_keyspaces.go:111-129 | a fully static key without wildcards and outer spaces is the keyspace |
| Keyspaces.KeyspaceEndsAtColon | codescan/extract_keyspaces.go:119-123 | any other key that keeps a colon is cut just behind one |
| Keyspaces.AnalysisFindsTheRun | codescan/extract_keyspaces.go:133-163 | however additions nest, the static text is the whole run of constants and formats the operands start with; none only if they start with something unknown |
| Keyspaces.KeyspaceIs | codescan/extract_keyspaces.go:111-129 | the keyspace is all of a complete key, else the text up to the first wildcard, back to the last colon if there is one |
| EdgeFacts.Builder.Add | codescan/builder.go:66-80 | the accumulators are those of all calls so far; empty and self edges are skipped |
| EdgeFacts.Builder.Facts | codescan/builder.go:119-153 | the emitted list is the sorted list of facts of the calls made |
| EdgeFacts.SameCallsSameFacts | codescan/builder.go:119-153 | two sequences with the same calls, in any order and multiplicity, emit the same list |
| EdgeFacts.EdgesAreTheCalls | codescan/builder.go:66-153 | the list has an edge exactly for each kind and pair of a call between two different nodes, in order of kind, from and to |
| EdgeFacts.EdgeTellsItsCalls | codescan/builder.go:119-141 | its weight is the number of distinct places of its calls, its evidence the smallest five, its operations those named |
| EdgeFacts.EvidenceIsTheSmallestSites | codescan/builder.go:121-137 | the evidence is the smallest five sites, or all, in order |
| Sorting.SortingIsUnique | codescan/builder.go:144-153 | a list sorted by a strict total order is determined by its elements |
| Sorting.StringLessIsLexicographic | codescan/builder.go:144-153 | strings compare by their first difference, a beginning before the whole |
| Routes.RouteMatches | codescan/extract_frontend.go:857-889 | the loop decides the segment-wise match |
| RoutePatterns.PatternClaimsExactly | codescan/extract_frontend.go:857-897 | a pattern written from literals, {name}, {name...} and * claims a path exactly when both have segments, the last is no file's and the segments fit; method, query, fragment and outer slashes play no part |
| RoutePatterns.ParametersTakeAnything | codescan/extract_frontend.go:857-889 | with as many segments, equal at the literals and anything at the parameters, a path matches |
| RoutePatterns.LastPartTakesTheRest | codescan/extract_frontend.go:872-874 | a last * or {name...} takes any one or more segments |
| Routes.AbstractMatchIsSound | codescan/extract_frontend.go:857-889 | if a path with markers matches, a path it can become matches exactly when the last segment has no dot |
| Routes.MarkersClaimNoLiteral | codescan/extract_frontend.go:878-886 | a literal pattern segment faces that same text, never a marker |
| Routes.FillsSegments | codescan/extract_frontend.go:891-897 | filling markers and splitting into segments commute |
| SuffixResolution.ResolveURL | codescan/extract_frontend.go:669-700 | without a direct file the answer is a candidate exactly when some suffix of the URL singles it out |
| SuffixResolution.SingledByTheLongestSuffix | codescan/extract_frontend.go:680-699 | that is when it alone ends with the longest suffix any candidate ends with |
| SuffixResolution.SingledMeans | codescan/extract_frontend.go:680-699 | singled out means that some tail of the URL, cut at a slash, ends this candidate's path and no other's |
| SuffixResolution.HitsGrow | codescan/extract_frontend.go:680-699 | dropping segments only adds candidates |
| Shell.QuoteReadsBack | app/deploy_k8s.go:170-172 | for every string the quoted text is one shell word whose value is the string |
| Shell.ScriptReadsBack | app/deploy_k8s.go:228-257 | a newline-joined script reads back as its commands and files exactly when no content has a line that is the delimiter |
| Shell.WrittenFileReadsBack | app/deploy_k8s.go:856-860 | the same for one file between other commands; and it goes to the path given exactly when the path is literal text |
| Shell.UnquotedReadsBack | app/deploy_k8s.go:856-860 | text put on a command line without quotes is one word that means itself exactly when every character is literal |
| Shell.PathsReadBack | app/deploy_k8s.go:856-860 | the command makes the directory and writes the file it was given exactly when all characters of both paths are literal |
| Shell.WriteToIsTheCommand | app/deploy_k8s.go:856-860 | on literal paths the command line splits into mkdir -p dir && cat > path, word for word |
| Shell.Swallowed | app/deploy_k8s.go:229-236 | text behind the delimiter on its line keeps the here-document open, and is never run |
| Shell.TrimKeepsLines | app/deploy_k8s.go:856-860 | trimming trailing newlines keeps every line that is not empty |
| Shell.OneTrailingNewlineIsKept | app/deploy_k8s.go:856-860 | a content that ends in one newline is written as it is |
| DsnParams.MergeDSNParams | app/command_deploy_connection.go:304-328 | the result lists each key once in order of first appearance, with the last pair given for it |
| DsnParams.KeysAreListedOnce | app/command_deploy_connection.go:304-328 | no key is listed twice, and exactly the keys of non-blank pairs are |
| DsnParams.KeptPairIsTheLast | app/command_deploy_connection.go:313-319 | the pair kept was given for its key and nothing was given for it later |
| DsnParams.LastGivenWins | app/command_deploy_connection.go:304-328 | key=value, given and not given again, is in the result alone of all that starts with key= |
| DsnParams.DefaultsComeFirst | app/command_deploy_connection.go:321-327 | the defaults' keys come first in the defaults' order, whatever values the user gave |
| DsnParams.MergeIsIdempotent | app/command_deploy_connection.go:304-328 | merging a result onto the same defaults returns it unchanged |

## Left out

- PrimaryOwner.PrimaryOwners: states no result for files on or behind an include cycle unless a round changes nothing; there the includes alone do not decide the owner (`PrimaryOwner.OnlyCyclesLeaveOwnersOpen`).
- AgentRuntime.SomeStepIsEnabled: states that some step is possible, not that the scheduler takes it; the idle time before a reap is not in that system but in `TxPool`.
- AgentRuntime.EveryTxIsInOnePlace: does not model the SQL library's own rollback of a transaction whose context ends; the reaper, CloseAll and the handlers are the only ones that finish one.
- TxPool.IdleBound: requires that a use is stamped no more than 60s before the last sweep, because reading the clock and storing the stamp are not atomic; `TxPool.LateStampBreaksTheBound` shows the condition is exact.
- DbPool.OneHandlePerConnection: covers interleavings before Close, because a Close lets later Gets open a second handle.
- DbPool.CloseIsExact: speaks of what follows up to the next Close; a further Close would close what the first left in the cache.
- Handlers.QuerySemaphore.Acquire: a call that waits is the moment a slot is free or the context has fired; the waiting itself is in `AgentRuntime`.
- Selector.DeploySettings.ApplyDeploymentSelector: adopts provider, host, identifier, project and the database settings only; ssh user and port, domains, image repository, source directory and version are adopted the same way and not modelled.
- DeployRun.RecordStore.Mutate: errors of reading, parsing and saving are one flag, and the runs take their own writes to succeed except where a step says otherwise.
- DeployRun.Deploy: ssh, firewall, source copy, bootstrap, releases and other steps that write no record field used here only show as places where a run can stop.
- EdgeFacts.Builder.Facts: sorts by insertion where the source calls Go's sort library; only the result is compared. Nodes, routes, background tasks and unresolved names are emitted the same way and not modelled.
- Shell.ScriptReadsBack: commands other than redirections are kept as text and not interpreted; `<<-`, nested command substitutions with quotes of their own, and files that hold several documents per line are outside the reader, and it takes `#`, `~` and braces for special anywhere in an unquoted word.
- Routes.RouteMatches: patterns are matched as text; route registration and the finding of path strings (concatenation, HTML attributes) are not modelled.
- Keyspaces.KeyspaceIsAPrefix: Go's constant folding is the `Const` case, and what Sprintf prints behind the first verb is arbitrary.
- SuffixResolution.ResolveURL: query cutting, path cleaning and the file-system check are inputs.
- Owners.PropagateOwners: the includes found by regular expressions are inputs.
- The `destroy` command: it removes a record even when deleting the VM failed or another record shares the host, so the lifecycle results are about deploy runs.
- The k8s provider in the lifecycle: it pairs no agent and its records are always usable.
- Legacy records without identifier, agent or connection: the stores are those the modelled runs produce.
- Record fields that no modelled decision reads (region, ports, domains, image, workspace, versions, revision), and the same settings in the selector.
- ListDeployments errors and unreadable record files.
- The reconnect loop and `nextBackoff`, row encoding, metrics and schema-plan handlers: readable from one body, or external effects.
- Message texts, reports, prompts, the destructive-change gate's diff, version comparison and chart stamping.
- `parseDeployDSN` and `assembleDeployDSN`: decided by the mysql and url libraries, which are not part of this model.
