# Modelship, verified

Modelship is a control plane over Ray Serve: it deploys models as Serve apps, switches a gateway's replicas to them without
downtime and keeps each gateway's committed version in a store. These Dafny files model its state machines and prove what they
promise.

- **Deploying.** A request's diff against the committed version (`Diff.dfy`, `DiffMeans.dfy`, `Ledger.dfy`, `AppNames.dfy`), what carrying
  it out leads to (`Rollout.dfy`), the coordinator's slice for one gateway (`Coordinator.dfy`), and the protocol between coordinator,
  workers, version store and Serve as a step relation with cancels, worker deaths, late calls, store failures and restarts in any
  order (`Protocol*.dfy`).
- **Switching.** The gateway coordinator (`GatewayTables.dfy`), a replica's table (`GatewayReplica.dfy`), both over time
  (`GatewaySwitch.dfy`) and together with the deploy protocol (`GatewayRetire.dfy`).
- **Leases.** Downloads (`DownloadLeases.dfy`, `DownloadRuns.dfy`) and node leases (`NodeLeases.dfy`, `NodeLeaseRuns.dfy`).
- **State stores.** Keys, the in-memory store and the Redis loop (`StoreKeys.dfy`, `MemoryStore.dfy`, `RedisLog.dfy`).
- **MCP responses.** The stream stitcher (`Stitcher.dfy`, `StitchedTurns.dfy`), tool policy (`McpPolicy.dfy`) and the response
  loop (`McpResponse.dfy`).
- **Sizing and routing.** KV-cache fits (`Sizing.dfy`) and the affinity router (`Router.dfy`).

Classes carry the state the source updates in place; each of their methods is proved against a function of that state, and the
runs are built from those functions. `dafny verify dfyconfig.toml` checks everything.

## Findings

Places where the code does less than it promises, each with the runs that show it and what does hold:

- A recovery gathers its rollbacks without waiting for the rest when one can't make its worker, so a rollback may go on beside
  later requests (`modelship/deploy/deploy_coordinator.py:509-516`). `DeployProtocolLate.AbandonedRecoveryHitsCommitted` deletes a
  committed app that way; it can't happen while every recovery waits (`DeployProtocolSafety.AwaitedNeverDeleted`).
- A worker's calls to Serve may be handled after its death (`modelship/deploy/worker.py:68-81`,
  `modelship/deploy/worker.py:399-404`). `DeployProtocolLate.LateDeleteHitsCommitted` deletes a committed app,
  `DeployProtocolLate.LateSubmitOutlivesRollback` leaves an app behind a completed rollback. What is deleted or left is exactly
  what such calls touched (`DeployProtocolSafety.CommittedNeverDeleted`, `DeployProtocolTheorems.RolledBack`).
- A routing reset names no request, so a dead worker's may unswitch a later request, which commits and retires all the same
  (`modelship/deploy/deploy_coordinator.py:364-371`, `DeployProtocolFinding.StrayResetRoutesToRetired`). A retired app is routed
  to exactly then (`DeployProtocolTheorems.RetiredUnrouted`).
- A request can come out as failed with its models committed: its store write raises after it landed
  (`modelship/deploy/deploy_coordinator.py:373-383`, `DeployProtocolMisreports.RaisedWriteFails`), or lands after a rollback that
  could not be begun or died (`modelship/deploy/deploy_coordinator.py:463-490`, `DeployProtocolMisreports.UnrolledWriteLands`,
  `DeployProtocolMisreports.DeadRollbackWriteLands`). Its outcome tells whether its version is written, for good, if and only if
  no store write of its that raised has landed and none was left waiting (`DeployProtocolOutcome.OutcomeIsTrue`); a completed
  rollback leaves none.
- A download's acquire call has no timeout (`modelship/utils/downloads.py:85-124`). Two processes never download under one key if
  and only if each answer arrives within 15 s of its grant (`DownloadRuns.ExclusionNeeds`). One that is done may still wait for
  its release's answer while the next one downloads (`modelship/utils/downloads.py:60-71`, `DownloadRuns.ReleaseOverlaps`).
- A replica that asks again for its node lease while its first answer is still being stored is told it holds the lease, though
  the write may yet fail and the node go to another (`modelship/deploy/deploy_coordinator.py:199-211`,
  `NodeLeaseRuns.EarlyBreaks`, `NodeLeaseRuns.EarlyHappens`).

## Model

| member | source | states |
|---|---|---|
| AppNames.ParseDeploymentName | modelship/utils/config_schema.py:434-437 | A name parses to some gateway and model exactly when the pattern matches it with them: the gateway is all before the first dot, the model all up to the fingerprint. |
| AppNames.ParseRoundTrip | modelship/utils/config_schema.py:427-437 | An app name reads back as what it was built from exactly when its gateway is nonempty without a dot and its model nonempty without a newline. |
| AppNames.DeploymentNameInjective | modelship/utils/config_schema.py:421-431 | Two app names of dotless gateways are equal only with the same gateway, model and fingerprint, whatever the model name holds. |
| AppNames.ListedByName | modelship/utils/config_schema.py:434-437 | The apps whose names parse to a legal gateway are that gateway's own with a listable model. |
| Ledger.CheckUniqueNames | modelship/utils/config_schema.py:455-475 | Answers nothing exactly when no two models share a name, else a name that two do. |
| Ledger.OverriddenMeans | modelship/deploy/ledger.py:81-122 | The merged set is, by name, the input where it names a model and the committed set elsewhere; names stay unique. |
| Ledger.FoldIn | modelship/deploy/ledger.py:100-118 | One input model folded into the dict by app and its index by name is the override by that model, and the index stays the inverse of the dict's keys. |
| Ledger.Merge | modelship/deploy/ledger.py:81-122 | Fails exactly on an input that repeats a name; else an additive merge is the name-wise override of the committed set and a reconcile is the input. |
| Ledger.MergeTwice | modelship/deploy/ledger.py:81-122 | Merging the same input again gives the identical list. |
| Ledger.MergeOrder | modelship/deploy/ledger.py:100-122 | Committed entries that stay keep their places, each with the input's entry of its app if there is one; the input's others, replacements under a new app included, follow in the input's order. |
| Ledger.CommitVersion | modelship/deploy/ledger.py:56-72 | A commit stores the models under the next number and keeps the version it replaces. |
| Ledger.CommitsCount | modelship/deploy/ledger.py:64-72 | After any commits to an empty store the version number is their count, the models are the last ones and the previous version the one before. |
| DeployDiff.BuildDiff | modelship/deploy/diff.py:54-88 | Fails exactly on a request that repeats a model name; else the diff built row by row is the one its parts define. |
| DeployDiff.DecideAll | modelship/deploy/diff.py:73-132 | The loop over the wanted models appends, in their order, the deploys, rescales and retired apps each model's action calls for. |
| DeployDiff.ByName | modelship/deploy/diff.py:59-63 | The committed rows as a dict: every name, each with its only row. |
| DeployDiffMeans.ActionIs | modelship/deploy/diff.py:98-132 | A wanted model is added if it is new, replaced if its app changes, redeployed if its app is missing or not live, rescaled if Serve holds other replica counts, else kept. |
| DeployDiffMeans.ActionsOnly | modelship/deploy/diff.py:75-83 | A model not wanted has an action exactly when a reconcile removes it from the committed version. |
| DeployDiffMeans.ScaledDown | modelship/deploy/diff.py:112-128 | An app is rescaled before the deploys exactly when it is its model's own and neither its fewest nor its most replicas rise, or a blue_green request replaces it and it shrinks. |
| DeployDiffMeans.ScaledUp | modelship/deploy/diff.py:124-130 | And after them exactly when it is its model's own and one of the two rises, or what it is set to can't be read. |
| DeployDiffMeans.ScalingIs | modelship/deploy/strategy.py:43-49 | Serve holds num_replicas alone, or the autoscaling limits with each other field as configured, else Serve's default. |
| DeployDiffMeans.CommitsExactly | modelship/deploy/diff.py:64-71 | A diff commits exactly when a request that is not bare proposes models and their apps or replica counts differ from the committed ones, or there are none; then its models are those proposed. |
| Rollout.DiffSound | modelship/deploy/diff.py:54-132 | Leftovers are the gateway's apps no committed model has; each wanted model is deployed, or live with its replica counts or rescaled to them; what is retired is committed and not wanted. |
| Rollout.ReachesTarget | modelship/deploy/worker.py:224-273 | From any state of Serve and in every mode, the diff's steps in order end with exactly the resulting version's apps (an additive request leaves out unnamed ones already missing), each wanted model live with its replica counts. |
| Rollout.Convergence | modelship/deploy/diff.py:54-138 | The same request's diff against the new version and the new apps has no leftovers, deploys, rescales or retired apps and does not commit, in every mode. |
| Rollout.OtherGatewaysApart | modelship/deploy/diff.py:54-88 | Carrying out one gateway's diff leaves every other gateway's app as it was. |
| Coordinator.SubmitValid | modelship/deploy/deploy_coordinator.py:268-283 | Submitting keeps ids rising along the queue, the running request ahead of it and outcomes to requests that ended. |
| Coordinator.StartValid | modelship/deploy/deploy_coordinator.py:430-440 | So does taking the next request off the queue. |
| Coordinator.GatewayDeploys.Submit | modelship/deploy/deploy_coordinator.py:268-283 | The request joins the queue's end and a drainer is there; the one it waits behind is the last queued, else the running one. |
| Coordinator.GatewayDeploys.Cancel | modelship/deploy/deploy_coordinator.py:293-317 | Drops a queued request as cancelled or flags a running one; refuses, changing nothing, one committing, retiring, ended, or rolling back by itself. |
| Coordinator.GatewayDeploys.IsCancelled | modelship/deploy/deploy_coordinator.py:319-325 | True for an unknown request; a running one that is cancelled is noted as told. |
| Coordinator.GatewayDeploys.Switch | modelship/deploy/deploy_coordinator.py:333-340 | Routes by the models under a new seq, for the running request only and not while it rolls back. |
| Coordinator.GatewayDeploys.ResetRouting | modelship/deploy/deploy_coordinator.py:364-371 | Routes by the committed version, under a new seq unless it does already. |
| Coordinator.GatewayDeploys.CommitBegin | modelship/deploy/deploy_coordinator.py:373-378 | Refuses any but the running request, writes nothing for a cancelled one, else lets it through as committing. |
| Coordinator.GatewayDeploys.CommitEnd | modelship/deploy/deploy_coordinator.py:379-383 | The request whose commit was stored is retiring. |
| Coordinator.GatewayDeploys.DrainNext | modelship/deploy/deploy_coordinator.py:430-453 | Takes the first queued request, or ends the drain when there is none. |
| Coordinator.GatewayDeploys.NoticeDeath | modelship/deploy/deploy_coordinator.py:463-470 | Unless its commit was let through, a request whose worker died is rolling back from then on. |
| DeployProtocolTheorems.ReachableInv | modelship/deploy/deploy_coordinator.py:293-516 | Every state of every run keeps the protocol's invariant. |
| DeployProtocolTheorems.OnlyStopDeletesCommitted | modelship/deploy/worker.py:224-273 | The worker deletes a committed app only as a stop_start request's step before its commit. |
| DeployProtocolTheorems.RolledBack | modelship/deploy/worker.py:144-168 | A completed rollback leaves routing by the committed version, and only apps that version names if and only if no late call or abandoned rollback added another since it read Serve. |
| DeployProtocolTheorems.CameThrough | modelship/deploy/worker.py:224-273 | A request that comes through leaves its resulting version committed, and only its apps if and only if nothing of that kind added another. |
| DeployProtocolTheorems.AcceptedCancelNeverWrites | modelship/deploy/deploy_coordinator.py:293-317 | An accepted cancel excludes a version write, stored or waiting for its lock, for good. |
| DeployProtocolTheorems.WrittenNeverCancelled | modelship/deploy/deploy_coordinator.py:306-309 | A request that has written a version can't be cancelled any more. |
| DeployProtocolCancel.CancelTaken | modelship/deploy/deploy_coordinator.py:293-317 | In every reachable state a cancel is accepted exactly when the request waits in the queue, or runs without having begun to commit and not rolling back by itself, or was accepted before. |
| DeployProtocolCancel.CancelEffect | modelship/deploy/deploy_coordinator.py:299-317 | A queued one leaves the queue and comes out as cancelled; a running one runs on, flagged exactly when accepted; else nothing changes. |
| DeployProtocolCancel.CancelTold | modelship/deploy/deploy_coordinator.py:319-325 | The coordinator answers that a request is cancelled exactly when it does not run or its cancel was accepted. |
| DeployProtocolCancel.CancelHeard | modelship/deploy/worker.py:437-452 | A polling worker backs out as cancelled exactly when its request's cancel was accepted, and is noted as having seen it. |
| DeployProtocolCancel.RollEndCancelled | modelship/deploy/deploy_coordinator.py:472-476 | A request whose worker died comes out as cancelled if and only if a cancel of it was accepted. |
| DeployProtocolCancel.RollEndIs | modelship/deploy/deploy_coordinator.py:463-476 | Over every run such a request comes out as succeeded if it has written and no store write of its raised, else as cancelled if a cancel was accepted, else as failed; no other outcome changes. |
| DeployProtocolCancel.RunEndIs | modelship/deploy/worker.py:224-245 | Over every run a request whose worker returned comes out as succeeded if it came through, as cancelled if the worker learned of an accepted cancel, by polling or from its commit's answer, and its rollback completed, else as failed. |
| DeployProtocolTheorems.SeenDeadHasNoEffect | modelship/deploy/deploy_coordinator.py:406-412 | A switch or commit sent by a worker already seen dead changes nothing. |
| DeployProtocolTheorems.SucceededIsCommitted | modelship/deploy/deploy_coordinator.py:455-478 | A request comes out as succeeded only if it wrote the committed version, or changed nothing in the one it read. |
| DeployProtocolOutcome.OutcomeIsTrue | modelship/deploy/deploy_coordinator.py:455-478 | Over every run, where a started request ends (with a diff to commit, if it came through): that it succeeded or not tells whether its version is written, there and in every continuation, if and only if no store write of its that raised has landed and none still waits for the lock; after its own worker's return or a completed rollback none does. |
| DeployProtocolOutcome.EndAgrees | modelship/deploy/deploy_coordinator.py:463-478 | Where it ends, a death during the write included, it comes out as succeeded exactly when it has written, if and only if no store write of its that raised has landed. |
| DeployProtocolOutcome.AgreesForGood | modelship/deploy/deploy_coordinator.py:373-383 | An outcome tells truly in every continuation if and only if it does now and no write of the request waits for the version lock. |
| DeployProtocolOutcome.UnrolledIsTrue | modelship/deploy/deploy_coordinator.py:480-490 | A request whose rollback can't be begun comes out as failed, truly for good if and only if it has not written and no write of it waits. |
| DeployProtocolTheorems.OutcomeSetters | modelship/deploy/deploy_coordinator.py:430-453 | Only a cancel while queued, the end of the running request or a worker that can't be made sets an outcome. |
| DeployProtocolTheorems.OutcomeOnce | modelship/deploy/deploy_coordinator.py:430-453 | Once set, an outcome never changes. |
| DeployProtocolTheorems.StartOrder | modelship/deploy/deploy_coordinator.py:430-453 | Requests start in the order they were submitted in, and each has started, waits or was dropped, never two of them. |
| DeployProtocolTheorems.QueueDrains | modelship/deploy/deploy_coordinator.py:268-283 | Whenever a request waits a drainer is there, and with nothing running it starts the oldest. |
| DeployProtocolProgress.ComesThrough | modelship/deploy/worker.py:224-273 | With nothing running, and nothing failing from there on, the oldest queued request can come through, and then Serve is exactly what its diff's steps in order make of it, its version is committed and routed by: the protocol carries out what Rollout.Run says. |
| DeployProtocolProgress.NeverStuck | modelship/deploy/deploy_coordinator.py:430-516 | From every reachable state, whatever is queued, running, waiting or under recovery, the gateway can come to rest with Serve and the store untouched, and then any request with sound names can be submitted and come through so. |
| DeployProtocolProgress.AlwaysReaches | modelship/deploy/worker.py:247-273 | So from every reachable state there is a continuation in which the gateway's apps are exactly those the request targets, each wanted model live with its replica counts. |
| DeployProtocolProgress.CanRollBack | modelship/deploy/deploy_coordinator.py:463-490 | And wherever a request runs there is one in which its worker dies and a completed rollback ends it, with routing and Serve back at the committed version. |
| DeployProtocolProgress.BacksOut | modelship/deploy/worker.py:463-471 | A worker that fails or learns of its cancel with nothing waiting for the version lock can roll back by itself to the same, and its request comes out as that. |
| DeployProtocolProgress.RestoredMeans | modelship/deploy/worker.py:144-190 | A rollback leaves of the gateway's listed apps exactly the committed ones there were, and each that is live with the committed replica counts. |
| DeployProtocolProgress.ReadsAgain | modelship/deploy/worker.py:275-286 | A read of Serve that fails costs a request no more than another try. |
| DeployProtocolTheorems.RetiredUnrouted | modelship/deploy/deploy_coordinator.py:364-371 | An app deleted after the commit is routed to if and only if a dead worker's reset came between the request's switch and its write. |
| DeployProtocolRouting.RoutedAnew | modelship/deploy/deploy_coordinator.py:333-371 | Over every run a gateway is routed anew only by its committed version or the models of a switch let through, each time under a seq past all given out before. |
| DeployProtocolRouting.RoutedOnRequest | modelship/deploy/deploy_coordinator.py:385-394 | A gateway without a routing version is routed by its committed version when asked for; one that has one keeps it. |
| DeployProtocolRouting.PutUp | modelship/deploy/worker.py:356-404 | A submitted or rescaled app is deploying with its model's replica counts; every other app is as it was. |
| DeployProtocolSafety.CommittedNeverDeleted | modelship/deploy/worker.py:224-273 | Over every run of blue_green requests the worker deletes no committed app, and one is being deleted if and only if a late call or an abandoned rollback deleted it and nobody submitted it since. |
| DeployProtocolSafety.AwaitedNeverDeleted | modelship/deploy/worker.py:144-168 | So none is while no dead worker's deletion is handled late and every recovery waits for its rollbacks. |
| DeployProtocolSafety.AwaitedRolledBack | modelship/deploy/worker.py:144-168 | And rollbacks and requests leave only committed apps while no dead worker's submission is handled late and recoveries wait. |
| DeployProtocolTarget.ReachesItsTarget | modelship/deploy/worker.py:247-273 | If nothing but the worker takes apps away, a request that comes through has every model it names in Serve, not being deleted; unless it is additive, Serve holds exactly the committed version's apps. |
| DeployProtocolLate.LateDeleteHitsCommitted | modelship/deploy/worker.py:68-81 | For every gateway and model there is a run of blue_green requests where a dead worker's late deletion hits the committed app, all recoveries waiting. |
| DeployProtocolLate.AbandonedRecoveryHitsCommitted | modelship/deploy/deploy_coordinator.py:509-516 | And one where the rollback an abandoned recovery leaves at work does, with no call late. |
| DeployProtocolLate.LateSubmitOutlivesRollback | modelship/deploy/worker.py:399-404 | And one where a rollback completes beside an app the committed version doesn't name. |
| DeployProtocolMisreports.RaisedWriteFails | modelship/deploy/deploy_coordinator.py:373-383 | For every gateway and model there is a run, no call late and all recoveries waiting, where a dead worker's write lands, its store call raises, the rollback completes, and the request comes out as failed with its models committed. |
| DeployProtocolMisreports.UnrolledWriteLands | modelship/deploy/deploy_coordinator.py:480-490 | And one where no rollback worker can be made and the write lands after the request came out as failed. |
| DeployProtocolMisreports.DeadRollbackWriteLands | modelship/deploy/deploy_coordinator.py:480-490 | And one where the rollback's worker dies before the write lands. |
| DeployProtocolFinding.StrayResetRoutesToRetired | modelship/deploy/deploy_coordinator.py:364-371 | And a run where the gateway is routed to an app its request deletes after the commit. |
| GatewayTables.GatewayCoordinator.Pass | modelship/deploy/gateway_coordinator.py:94-146 | A pass publishes a table only when Serve holds the gateway's own app and a version was read, under a new generation when it or its seq changed. |
| GatewayTables.ServedExactly | modelship/deploy/routing.py:21-67 | An app is routed to exactly when the version targets it and Serve has it, not being deleted, and RUNNING or with a running replica; and to its target's model. |
| GatewayTables.PassIs | modelship/deploy/gateway_coordinator.py:94-152 | What a pass publishes, part by part: the apps that can serve, every target as expected, the version's seq, and a generation that moves by one exactly when table or seq changed; nothing without the own app or a version. |
| GatewayTables.GatewayCoordinator.Publish | modelship/deploy/gateway_coordinator.py:140-152 | The published table and seq; the generation moves on exactly when one of them changes. |
| GatewayTables.GatewayCoordinator.GetRouting | modelship/deploy/gateway_coordinator.py:154-164 | A snapshot of the published table with its generation and seq. |
| GatewayTables.GatewayCoordinator.Poll | modelship/deploy/gateway_coordinator.py:166-191 | Notes the replica's report and answers at once exactly when the generation is not the one it has. |
| GatewayTables.GatewayCoordinator.IsSwitched | modelship/deploy/gateway_coordinator.py:203-215 | Switched exactly when a pass was made, the seq is the published one and every replica the last pass saw RUNNING has a fresh report of it. |
| GatewayReplica.Replica.DropApps | modelship/openai/api.py:241-258 | Takes the apps out of the table and a model out with its last app. |
| GatewayReplica.Replica.ApplyRouting | modelship/openai/api.py:260-286 | The table becomes the desired one, but for apps whose handle can't be resolved yet; true exactly when all could. |
| GatewayReplica.Replica.ApplySnapshot | modelship/openai/api.py:288-296 | Generation and seq are taken over only with the whole of the snapshot. |
| GatewayReplica.ReconciledIs | modelship/openai/api.py:260-286 | An app is in the table afterwards exactly when it is desired and was there or its handle resolves; what was there keeps its model. |
| GatewaySwitch.SwitchedFollow | modelship/deploy/gateway_coordinator.py:193-215 | Once a gateway counts as switched to a seq, every replica the last pass saw RUNNING has a table within that seq's apps, even one that only partly applied a snapshot before. |
| GatewaySwitch.SwitchedStays | modelship/deploy/gateway_coordinator.py:94-215 | And it stays so until a newer seq is read, a restart of the gateway coordinator included. |
| GatewaySwitch.WaitsWhenCurrent | modelship/openai/api.py:342-361 | A replica whose poll waits holds the published table and seq: no change is missed. |
| GatewaySwitch.NewcomersFollow | modelship/deploy/gateway_coordinator.py:94-215 | A replica that comes after a seq's table was published has a table within that seq's apps until a newer seq is read. |
| GatewaySwitch.FollowedIs | modelship/openai/api.py:288-340 | A replica that gets a snapshot takes over its generation and seq exactly when every app of it was held or resolves. |
| GatewaySwitch.CatchesUp | modelship/openai/api.py:299-361 | From any state a replica with no fetch under way comes, by a fetch with all handles resolving and its next poll, to have the published table and a fresh report of the published seq. |
| GatewaySwitch.SwitchCompletes | modelship/deploy/gateway_coordinator.py:193-215 | From every state with a published seq whose last pass's replicas are there with no fetch under way, some run of fetches and polls makes the gateway count as switched to it. |
| GatewayRetire.RetiredUnheld | modelship/deploy/worker.py:422-436 | Once the gateway has counted as switched to the routing in force, no replica counted then or come later routes to an app the request deletes after its commit, whatever passes, polls, reports and restarts come between, until a newer seq is read; but for the stray reset above. |
| DownloadLeases.LeaseService.Acquire | modelship/utils/download_leases.py:68-80 | Grants a key for 30 s unless the service closes, has just started or the key is leased or being cleaned; else answers why. |
| DownloadLeases.LeaseService.Renew | modelship/utils/download_leases.py:82-88 | Extends exactly the holder's own lease, never one being cleaned. |
| DownloadLeases.LeaseService.Release | modelship/utils/download_leases.py:90-94 | Removes exactly the holder's own lease, never one being cleaned. |
| DownloadLeases.LeaseService.Reap | modelship/utils/download_leases.py:104-119 | Marks every expired lease as being cleaned and closes an idle service. |
| DownloadLeases.LeaseService.Clean | modelship/utils/download_leases.py:121-130 | Removes the key being cleaned. |
| DownloadLeases.CleaningStays | modelship/utils/download_leases.py:68-130 | A key being cleaned is not granted, renewed or released by any call: its cleaner finds its own lease. |
| DownloadRuns.NeverTwoDownloads | modelship/utils/downloads.py:60-124 | With answers to acquires within 15 s, no two live processes ever transfer under one key, a crash of the service and its grant delay included; of two that have not left, one has let go: it is done, and its release was handled or lost or its lease could have run out. |
| DownloadRuns.LateAnswers | modelship/utils/downloads.py:85-124 | With any longer bound, two do in some run. |
| DownloadRuns.ReleaseOverlaps | modelship/utils/downloads.py:60-71 | With any bound, one that has let go waits for its release's answer while the next one downloads. |
| DownloadRuns.ExclusionNeeds | modelship/utils/downloads.py:60-124 | Either exclusion, of transfers or of all but one that has let go, holds over all runs if and only if acquires are answered within 15 s. |
| DownloadRuns.RenewsOn | modelship/utils/downloads.py:113-124 | A renewal that is due, of a lease still held, extends it to 30 s from now, and the next one is due in 10 s. |
| DownloadRuns.FreesAtRelease | modelship/utils/downloads.py:66-71 | Once a holder's release is handled the next process to ask is granted the key at once. |
| NodeLeases.LeaseTable.Acquire | modelship/deploy/deploy_coordinator.py:193-206 | Refused while another holds the node, granted again to its holder, else taken in memory before the store write. |
| NodeLeases.LeaseTable.Check | modelship/deploy/deploy_coordinator.py:237-256 | Frees the lease exactly when its replica is listed RUNNING, or unlisted on this check and the one before; any other state starts the count anew. |
| NodeLeases.LeaseTable.Release | modelship/deploy/deploy_coordinator.py:258-266 | Forgets the lease in memory once its store key has gone, if it still is the one held. |
| NodeLeases.FreedExactly | modelship/deploy/deploy_coordinator.py:237-256 | After any listings none of which was RUNNING, a lease is freed exactly when its replica is listed RUNNING, or unlisted on this check and the one before. |
| NodeLeases.AskedAnswers | modelship/deploy/deploy_coordinator.py:193-211 | A taken lease is granted again to its holder and refused to others until released or its write fails; either only for the lease held. |
| NodeLeaseRuns.RunningFreed | modelship/deploy/deploy_coordinator.py:237-266 | In any state of a patient run with no store call or check under way, once a granted replica is listed RUNNING the check and its delete leave nothing granted, whether the delete succeeds or not, and the next replica's acquire goes to the store and is granted. |
| NodeLeaseRuns.OneHolder | modelship/deploy/deploy_coordinator.py:193-266 | Over every run without an early second acquire, at most one replica holds a granted lease not freed yet, it is the stored one, and a restarted coordinator refuses everyone else. |
| NodeLeaseRuns.CrashFreesDeleted | modelship/deploy/deploy_coordinator.py:258-266 | A coordinator restart takes a grant back only where the lease's own delete was on its way to the store, and has landed. |
| NodeLeaseRuns.EarlyBreaks | modelship/deploy/deploy_coordinator.py:199-211 | Wherever an early second acquire can come, some continuation grants the node twice. |
| NodeLeaseRuns.EarlyHappens | modelship/deploy/deploy_coordinator.py:199-211 | And one comes two steps into a run, when the replica asks again. |
| StoreKeys.ListedUnder | modelship/state/base.py:31-36 | A normalized key is listed under a prefix exactly when the prefix's path segments begin the key's: never a sibling. |
| StoreKeys.SegmentsAre | modelship/state/base.py:31-36 | Segments split at every slash and empty ones go, whatever slashes lead, trail or double. |
| MemoryStore.MemoryStore.MaybeSweep | modelship/state/memory.py:69-85 | Drops exactly the expired keys, at most once per interval. |
| MemoryStore.MemoryStore.List | modelship/state/memory.py:110-117 | Exactly the live keys under the prefix's path. |
| MemoryStore.MemoryStore.Append | modelship/state/memory.py:119-134 | Taken exactly when the position is past the live log's last, and then kept for its ttl; refused, it changes nothing a call can see. |
| MemoryStore.MemoryStore.AppendAndSet | modelship/state/memory.py:136-152 | Both writes or neither. |
| MemoryStore.MemoryStore.ReadRange | modelship/state/memory.py:154-161 | The live log's items in range. |
| MemoryStore.SetGets | modelship/state/memory.py:94-105 | After a set a read of the key answers the value, until now plus the ttl and none from then on, or always without a ttl; other keys answer as before. |
| MemoryStore.AppendGets | modelship/state/memory.py:119-134 | An append is taken exactly past the live log's last position; the log with the new entry then lasts for the append's own ttl; refused, nothing changes; other keys answer as before. |
| MemoryStore.RecordGets | modelship/state/memory.py:136-152 | The same of both keys of an append with a record, each at its own clock reading. |
| MemoryStore.ExpireGets | modelship/state/memory.py:163-167 | An expire makes a live key last for its seconds, and does nothing to another. |
| MemoryStore.DeleteGets | modelship/state/memory.py:107-108 | After a delete the key answers none, every other key as before. |
| MemoryStore.ReadsAsGot | modelship/state/memory.py:110-161 | Lists and range reads answer what single reads would, and change nothing. |
| MemoryStore.SetLasts | modelship/state/memory.py:69-169 | Over every run whose calls between leave the key alone, a read after a set answers the value exactly until its ttl has passed. |
| MemoryStore.DoSame | modelship/state/memory.py:69-169 | Maps that differ only in expired keys answer every call alike and differ only so after it. |
| MemoryStore.ExpiryUnseen | modelship/state/memory.py:69-169 | Over every run the store answers as the timed map that never deletes an expired key, whose answers the laws above fix: lazy deletes and sweeps are invisible. |
| MemoryStore.LogsRise | modelship/state/memory.py:123-152 | Every call keeps each log's positions strictly rising. |
| MemoryStore.RangeIs | modelship/state/memory.py:154-161 | A range read answers the items at exactly the positions in range, in order. |
| MemoryStore.ReadsAllTaken | modelship/state/memory.py:119-161 | Over any run in which the key is neither deleted, expired nor set to something else, a range read answers exactly the accepted entries in range, in order of position. |
| MemoryStore.AppendReads | modelship/state/memory.py:123-161 | What is appended is what a read from its position answers. |
| RedisLog.AppendAndSet | modelship/state/redis.py:161-191 | With other clients between any two commands, a yes is the atomic step at its EXEC, a no is the atomic step's at the check that refused and wrote nothing, and a retry means a watched key was written. |
| RedisLog.ExecIsAtomic | modelship/state/redis.py:172-188 | With no watched key written, what EXEC writes is what the atomic step would there. |
| RedisLog.AtomicIs | modelship/state/redis.py:161-191 | The atomic step is taken exactly past the log's last position and, where asked, with the record there; it then appends the entry, puts the record and leaves other keys, else changes nothing. |
| RedisLog.LogsRise | modelship/state/redis.py:147-191 | However clients' appends, records and deletes interleave, every log's positions rise strictly. |
| Sizing.FitIsExact | modelship/preflight/_sliding_window.py:23-46 | The returned length's KV bytes fit the budget and one more token's don't, unless the context cap binds. |
| Sizing.SeqKvGrows | modelship/preflight/_sliding_window.py:8-29 | Up to the window and 16 tokens every layer grows with each token, past it only the full-attention ones. |
| Sizing.PinnedFits | modelship/preflight/vllm.py:660-686 | With sequences pinned, the length is the longest block-aligned one that fits beside their state, or a shorter target; none exactly when no block fits or the target is shorter than one. |
| Sizing.AutoLength | modelship/preflight/vllm.py:688-716 | In auto mode the target whenever it fits at the fewest sequences, else the longest block-aligned length that does; none exactly when neither does or the state alone fills the pool. |
| Sizing.AutoSeqs | modelship/preflight/vllm.py:715-727 | The pool is never exceeded, and one more sequence would exceed it unless the default binds or sequences take no state. |
| Router.ChoosePermutes | modelship/deploy/request_router.py:22-35 | The choices are a permutation of the candidates. |
| Router.FirstWithin | modelship/deploy/request_router.py:30-35 | The first choice has a load of at most 1.25 times the mean plus 2. |
| Router.ChosenInOrder | modelship/deploy/request_router.py:30-35 | Of two choices the earlier one is within 1.25 times the mean load plus 2 and the later one over it, or both are on one side and the earlier one scores at least as high. |
| Router.FirstIsBest | modelship/deploy/request_router.py:30-35 | So the first choice scores highest of the replicas within the limit. |
| Router.ChoiceByScore | modelship/deploy/request_router.py:30-35 | With distinct scores any two orders of the same candidates give the same choices: a session's affinity. |
| Router.RankedWithout | modelship/deploy/request_router.py:32 | Ranking commutes with removing a replica: the others keep their order. |
| Router.RankedByScore | modelship/deploy/request_router.py:32 | With distinct scores the ranking depends on which replicas there are, not on their order. |
| Stitcher.Stitcher.FlushCall | modelship/openai/mcp/loop.py:171-212 | What was kept of a call comes out as its class has it, in order, and the call is filed by its class: forwarded, held back for approval, or streamed under a new id. |
| Stitcher.Stitcher.TakeEvent | modelship/openai/mcp/loop.py:234-326 | One inner event's effect on numbering, buffers, pending calls, output and usage. |
| Stitcher.Stitcher.RunTurn | modelship/openai/mcp/loop.py:214-326 | A whole inner turn is the fold of its events. |
| Stitcher.TurnNumbered | modelship/openai/mcp/loop.py:136-162 | Whatever the inner stream, the outer events carry consecutive numbers. |
| StitchedTurns.TurnStitched | modelship/openai/mcp/loop.py:171-326 | Over any well-formed turn each item's events come out in its own slot, in order, the same whenever its name became known; slots move on by the turn's items and each is filled once, by a turn's item or a call left to the loop. |
| StitchedTurns.SlotStreams | modelship/openai/mcp/loop.py:171-326 | Over any well-formed turn and for any item: a call of an unapproved tool streams, one to one and in order, its added event with the tool's name and server, empty arguments and in progress, and each delta and arguments with the inner text, all under the new id, and ends without its done; a call that asks first streams nothing; any other item comes out as it came. |
| StitchedTurns.EchoSays | modelship/openai/mcp/loop.py:195-211 | So its joined deltas and its last arguments are the inner ones. |
| StitchedTurns.LooseForwarded | modelship/openai/mcp/loop.py:234-326 | Events of no item come out as they came, in order, whatever else is in the stream. |
| StitchedTurns.BufferingUnseen | modelship/openai/mcp/loop.py:261-326 | An executed call's outer events are the same to the letter whether its name came with its first event or its last. |
| McpPolicy.FilterIs | modelship/openai/mcp/spec.py:95-117 | The filtered tools are exactly the listed ones the allow list allows. |
| McpPolicy.FilterSieves | modelship/openai/mcp/spec.py:95-117 | The filter keeps the order and repetitions of the listed tools. |
| McpPolicy.ApprovalSkipped | modelship/openai/mcp/spec.py:120-148 | A tool runs unasked exactly when the policy is never, or its never bucket names it, or that bucket takes read-only tools, it is one and the always bucket doesn't name it. |
| McpPolicy.CheckCollisions | modelship/openai/mcp/spec.py:174-190 | No clash exactly when no tool has a client tool's name and no name leads to two servers; a clash answered is a real one. |
| McpResponse.Discover | modelship/openai/mcp/loop.py:495-541 | Lists each server not stored in a slot of its own, with its added, in-progress, completed or failed and done events and its filtered tools; indexes exactly the filtered tools; fails exactly when a listing does. |
| McpResponse.Resume | modelship/openai/mcp/loop.py:543-619 | Each answered approval has a slot of its own, in order, with the call as approved, its answer or refusal; the calls made are exactly those approved of discovered tools. |
| McpResponse.ToolsExactly | modelship/openai/mcp/loop.py:501-529 | The tools a response can call are exactly those a server lists and its spec allows, each with that server and its own need for approval. |
| McpResponse.RequestIs | modelship/openai/mcp/loop.py:538-547 | An answer's request is the last one in the input with its id; unknown exactly when there is none. |
| McpResponse.Settle | modelship/openai/mcp/loop.py:665-689 | Pending calls fill their slots once each, by an approval request or the call made and its answer, as the events say; the calls made are exactly the executed ones, in order, all permitted. |
| McpResponse.TakeTurn | modelship/openai/mcp/loop.py:630-694 | Every item of the turn comes to its slot: a client's as it is, an executed call run once with its own arguments, one that asks as its request; the accumulator agrees with the events; the loop goes on exactly when there were calls and all were executed. |
| McpResponse.Round | modelship/openai/mcp/loop.py:644-699 | A turn adds its executed calls to the count, and the loop ends incomplete exactly when all were executed and the limit is reached. |
| McpResponse.RunTurns | modelship/openai/mcp/loop.py:621-701 | Usage is the turns' sum; complete exactly when the last turn wasn't all executed; incomplete only at the limit on calls or the cap of turns. |
| McpResponse.UsageAdds | modelship/openai/mcp/loop.py:74-89 | Each of the summed usage's numbers is the sum over the turns, and there is a usage exactly when some turn reported one. |
| McpResponse.Respond | modelship/openai/mcp/loop.py:419-726 | From discovery to the end events are numbered 0, 1, 2, …, the last one telling how it ended; unless a turn broke off, each output item is that of its slot's only done event; every call made is of a discovered, filtered tool that needs no approval or was approved in the input; the turns' calls alone count towards the limit. |

## Left out

Assumed throughout, for what can't be seen in the code:

- Ray, Serve, HTTP, the store and the clock: calls are steps, their failures and orders are free, their insides are not modelled.
- The deploy protocol is one gateway's; others appear as Serve apps that come and go, and as rollback workers that can't be made.
- A worker makes one call at a time; one under way when it dies may be handled at any later time, or never. Workers die with the coordinator.
- Request ids never repeat. After a restart the coordinator's seqs start past all it gave out before, as a clock's do, and a store write under way has landed or never will.
- The fingerprint is a field of a model: nothing depends on how it is hashed, and no claim is made that equal fingerprints mean equal configs.
- Waiting for replicas to follow a switch, and its timeout, is a step that succeeds or fails at will.
- Post-rollback claims are for rollbacks that complete. A failed stop_start request does not bring back apps it stopped, and an additive one does not bring up missing models it doesn't name.
- A cancel accepted late on a request that commits nothing may still come out as succeeded; what is claimed is that it never writes.
- Apps whose model name is empty or holds a newline are listed under no gateway, so neither deleted nor counted.
- Switching is claimed for the RUNNING replicas of the last pass and those that come later. Versions are read in the order of their seqs, generations start at a clock's reading past earlier ones, and replica ids are not reused.
- Downloads: renewals are sent on time and a process whose renewal fails is gone at once.
- Node leases: a replica runs only after its grant and asks no more; one unlisted on two checks in a row is gone; the store completes operations on a key in the order they were issued in.
- The memory store's clock never runs back. In Redis expiry is ignored, which an append without a TTL clears in memory only; reads of a range and key slugs are not modelled.
- Sizes are exact reals; of the vLLM preflight only the hybrid ladder is modelled, not memory headroom (`_cpu_gmu`), MLA or logging.
- The router's locality, two-random choice and metrics are not modelled; loads and scores are parameters.
- Inner streams of whole turns are well-formed: added, pieces, done for each item, indices as in the terminal output, unique call ids. An inner turn that ends incomplete is reported as completed, as the code does.
- The MCP servers' answers, fresh ids and the loader's turns are parameters; the request sent to the loader each turn is not modelled.
- Serve's default tunables stand for themselves; only that they are fixed matters.
- CLI, launcher, Helm, logging, metrics, hardware probing and media endpoints: plumbing around these machines.
- The worker's retries, backoffs and crash-loop checks while apps come up are one failure step and one seen-RUNNING step.
