# launchpad node agent: a verified model

This project models, in Dafny 4.11, the part of launchpad that decides what runs on a node
and who is routed to it: the reconcile loop of the node agent, with the admission,
scheduling, routing and bookkeeping code it depends on. It proves what that code promises
over every run, with any effect failing, and says exactly when a promise fails.

`dafny verify dfyconfig.toml` verifies the whole project.

## How the model is built

- **The world outside** (`Host.dfy`) is a list of containers, the routing shards published
  so far and a clock. Every effect of the agent (pull, run, start, stop, publish, wait,
  record) moves it one step. An environment decides each effect's outcome: done, failed
  before it took hold, or failed after. A health gate's probes and clock readings come from
  it too.
- **The agent** (`Agent.dfy`, `Apply.dfy`, `Reconcile.dfy`, `Pass.dfy`) is a class whose
  methods are the loops of `reconcile.rs`. Its ghost `history` holds the world after every
  effect, so a property of every entry holds at every point where the agent could crash.
  `Smooth(env, hc, a, b)` says that the effects numbered `a` to `b` succeed, for a service
  with health check `hc`; no theorem asks for more success than it needs, and
  `SmoothIsPossible` shows that it can be had.
- **The edge.** A world is that of one edge, which can be any: every theorem holds for each
  edge of a node. What is stored for the others only decides whether a publish succeeds.
  The edge adopts each shard stored for it within the propagation floor. `MayHold` says which
  shards it can still be following, and `RoutingSafe`, service by service, that each of
  those names only running containers of the service and at least one. `cut` collects the
  services of which a container was removed while such a shard named it. The agent does not
  store a shard equal to the last one it knows to be stored; `InStep` says that this one
  really is, and `unsure` counts the shards stored unknown to it.
- **Planning** (`Planner.dfy`) is a set of pure functions, refined by the imperative planner.
  `CronMachine.dfy` is a transition system over ticks, single effects, exits, crashes and
  losses of the durable record, and `Dispatch.dfy` says when schedules, backups and jobs
  act. `CronScan.dfy`, `CronHorizon.dfy` and `Calendar.dfy` model the fire scans over the
  Gregorian calendar, `CronParser.dfy` the expression grammar.
- **Failing runs**: `Ambiguity.dfy`, `Retraction.dfy`, `Takeover.dfy`, `Interrupted.dfy`,
  `Overcommit.dfy` and `CronLoss.dfy` drive the same effects into the cases where a promise
  ends.
- **The rest**: `Capacity.dfy` (admission and the rolling peak), `Autoscale.dfy`,
  `Routing.dfy`, `RoutingProofs.dfy`, `Routes.dfy`, `Ports.dfy`, `Backup.dfy`, `Merge.dfy`,
  `MergeProofs.dfy`, `Ownership.dfy`, `Stamp.dfy`, `StampProofs.dfy`, `StatusWrite.dfy`,
  `Docker.dfy`, `Inspect.dfy`, `Health.dfy`, over the small libraries `Lists.dfy`,
  `Containers.dfy`, `Text.dfy`, `Types.dfy` and `Common.dfy`.

## Where code and promise part

Each of these is a lemma with the failing case and, where there is one, the exact condition.

- A shard can be stored although its publish reports failure. An older shard is then skipped
  as unchanged, so a replica is stopped while the edge routes to it, or the stored shard
  stays wrong (`Ambiguity.StopsARoutedReplica`, `Ambiguity.StoredShardStaysWrong`); the exact
  conditions are `Host.PublishShowsIff`, `Host.InStepAfterIff` and `Host.DrainedIff`.
- An edge no desired service names any more keeps its last shard, although draining a node
  is meant to retract it (`packages/cli/src/commands/autoscale.ts:357-359`): the containers
  are removed and the shard goes on naming them (`Retraction.LastShardStays`; exactly when,
  says `Pass.ToldIff` in `Pass.TickAndPublish`).
- Requests go to ports. One that a scale-down frees while the edge still routes to it can
  reach another service's replica before its health gate (`Takeover.ReachesAnUngatedReplica`,
  exactly as `Takeover.ReachesIff` allows).
- A crash between starting a replica and its health gate leaves a replica that the next tick
  routes to and drains the old one for (`Interrupted.UngatedTakesOver`); a rollout routes to
  gated replicas alone exactly if those it keeps were gated (`Agent.GatesExactly`).
- The heartbeats of a rollout do not keep a draining node fresh: a drain sleeps for longer
  than the stale window between them, exactly if the service has ingress
  (`Interrupted.DrainReadsStaleIff`).
- Rollouts count stopped replicas as if they served (`Convergence.RolloutLeavesRunning`), and
  leave them stopped, as they leave replicas that are too many: exactly when one rollout is
  enough, says `Convergence.RolloutConvergesIff`.
- Admission reserves one surge. A rollout given up may leave its own behind, so the bound for
  passes with given-up rollouts adds theirs (`Admission.PeakBound`), and such a pass can hold
  more than the node has (`Overcommit.GivenUpSurgeOverflows`).
- Losing the durable cron record under a run in progress repeats a skipped fire
  (`CronMachine.LossRepeatsASkippedFire`, `Dispatch.LossIsPossible`): exactly in the states of
  `CronLoss.ForgetsIff`, and in each of them (`CronLoss.ForgottenFireRepeats`); on a given
  schedule, while the fire is its latest (`CronLoss.RepeatsIffLatest`).
- A step near the 64-bit limit overflows while a cron item is expanded
  (`CronParser.OverflowingItem`); the model wraps around, as an unchecked build does.
- A schedule for 29 February alone can lie beyond the scan horizon
  (`CronScan.LeapDayScheduleMissesTheHorizon`), although the comment there says that every
  yearly schedule with a real date is covered; `CronHorizon.ExpressionHorizonIff` says which
  expressions are.
- A partial deploy listing a service twice is not always refused
  (`MergeProofs.PartialAcceptedIff`), although its documentation says it throws.
- Footprint owners can collide across environments (`MergeProofs.FootprintsCollideAcrossEnvs`),
  exactly as `MergeProofs.FootprintsCollideIff` says.
- A status put that takes hold although it reports failure defeats write-on-change
  (`StatusWrite.StaleAfterAmbiguousPut`), and the agent's default poll interval lies outside
  the ordering that keeps heartbeats fresh (`StatusWrite.DefaultPollGoesStale`).

## Model

| member | source | states |
|---|---|---|
| `Agent.AppAgent.RolloutService` | packages/agent-rust/src/reconcile.rs:536-633 | In every outcome, at every effect: only this service's containers change, at most max(the current count, want + surge) of them live and, when surge >= 1, at least min(the current count, want), running ones if all current ones run; no run is refused for its name, containers keep the configured size, a surged replica is in a published shard only after its health gate opened, other services stay reachable, and, when the service has a route and agent and store were in step, no container is removed while a table the edge can hold names it; if it also serves with all its replicas, it stays reachable: every such table names only running containers of it, and at least one. It ends; a completed rollout has removed exactly the drifted replicas, surged exactly the missing ones, settled their ports and announced the result, and, with a gate, everything it leaves to be routed to has passed one if and only if the replicas it kept had; giving up on an unhealthy replica leaves no container of it, only an error |
| `Agent.AppAgent.SurgeOne` | packages/agent-rust/src/reconcile.rs:569-604 | One surge turn from any point of the rollout: on success exactly one gated replica more, at the next free index, and the shard that names it announced; on a failed gate the containers are as before the turn and the port is free |
| `Agent.AppAgent.GateSurged` | packages/agent-rust/src/reconcile.rs:582-601 | A failed gate stops the replica by name, frees its port, notes the error and republishes: the rollout is back at its previous point |
| `Agent.AppAgent.DrainOne` | packages/agent-rust/src/reconcile.rs:605-624 | One drain turn: exactly the head of the old queue is gone, by a fixed sequence of effects; with ingress at least the larger of the drain timeout and the routing floor passes between its two heartbeats; when the service has a route and agent and store were in step, the container was named by no table the edge could hold |
| `Agent.AppAgent.StopRoutingTo` | packages/agent-rust/src/reconcile.rs:608-620 | After a publish that succeeds, with agent and store in step, and the wait, no table the edge can hold names the draining container |
| `Agent.RunStep` | packages/agent-rust/src/reconcile.rs:571-580 | The next surge index is free under its container name, and whatever the outcome of the run (done, failed before or after taking hold) every promise of the rollout still holds |
| `Agent.DrainStep` | packages/agent-rust/src/reconcile.rs:621-624 | Stopping the drained replica keeps the lower bound on live and on running replicas, and keeps routing as promised when no held table names it |
| `Agent.AbandonStep` | packages/agent-rust/src/reconcile.rs:584-600 | Removing an unhealthy surged replica by name removes it alone, and it was in no table |
| `Agent.AppAgent.AwaitHealthy` | packages/agent-rust/src/reconcile.rs:582-584 | A container is remembered as gated exactly when its gate opened |
| `Agent.GatesExactly` | packages/agent-rust/src/reconcile.rs:548-604 | After a completed rollout of a gated service every replica it is routed to, in truth and in the announced shard, has passed a health gate if and only if every running replica with a port that matched from the start had |
| `Interrupted.UngatedTakesOver` | packages/agent-rust/src/reconcile.rs:548-556 | The failing input: a replica started just before a crash counts as already replaced, so the next completed rollout has stopped the old one and announced a shard naming the new one alone, whose gate never opened |
| `Interrupted.CrashIsPossible` | packages/agent-rust/src/reconcile.rs:577-584 | Running the first surged replica and crashing leaves exactly that state |
| `Interrupted.DrainReadsStaleIff` | packages/agent-rust/src/reconcile.rs:608-625 | A drain sleeps past the stale window, between its two heartbeats, if and only if the service has ingress; without, it is stop, release and heartbeat |
| `RolloutShape.ShapeCounts` | packages/agent-rust/src/reconcile.rs:551-556 | At any point of a rollout the service has as many containers as current ones, minus the drained, plus the surged, and every other service's list is untouched |
| `RolloutShape.ShapeMembers` | packages/agent-rust/src/reconcile.rs:551-557 | At any point of a rollout each container of the service is a surged one or an original one not yet drained, all below the next index |
| `RolloutShape.SurgeNameFree` | packages/agent-rust/src/reconcile.rs:557-580 | Surge indices exceed every live one, so no live container holds the name the next surge will use |
| `RolloutShape.PortSurge` | packages/agent-rust/src/reconcile.rs:572-576 | After a surge the port table holds exactly one more slot, that of the new replica, at its port |
| `RolloutShape.PortDrain` | packages/agent-rust/src/reconcile.rs:623 | After a drain the port table has lost exactly the drained replica's slot |
| `Host.RoutedRemoval` | packages/agent-rust/src/reconcile.rs:530-535 | Removing containers that no held table names cuts off nothing, and keeps each service reachable that has a replica left to route to |
| `Host.RoutedPublish` | packages/agent-rust/src/reconcile.rs:409-414 | A new shard keeps a service reachable, while older shards may still be held, when it names one of its replicas |
| `Host.PublishShowsIff` | packages/agent-rust/src/bin/agent-app.rs:205-226 | For every edge: a publish that succeeds leaves the edge's table stored if and only if it was stored now rather than skipped as unchanged, or agent and store were in step |
| `Host.InStepAfterIff` | packages/agent-rust/src/bin/agent-app.rs:205-226 | For every edge: agent and store stay in step through every publish but one that is stored although it reports failure; a publish known to be stored brings them back in step |
| `Host.DrainedIff` | packages/agent-rust/src/reconcile.rs:608-621 | For every edge: after a publish that succeeds and the floor, no held table names a container left out, if and only if the table was stored now or what is stored leaves it out |
| `Ambiguity.StopsARoutedReplica` | packages/agent-rust/src/bin/agent-app.rs:205-226 | A shard stored although its publish reports failure, then a rollback: the drain's publish is skipped as unchanged, and after the wait the replica is stopped while the edge can hold a table naming it; routing was safe until that stop |
| `Ambiguity.StoredShardStaysWrong` | packages/agent-rust/src/bin/agent-app.rs:205-226 | After a scale-down instead, the publish that ends the tick is answered with success and the stored shard still names the container that is gone |
| `Takeover.ReachesIff` | packages/agent-rust/src/upstream.rs:43-58 | With distinct ports, requests sent along a line arrive at the container it names, and only there, if and only if that container runs at the line's port |
| `Takeover.SafeLinesReach` | packages/agent-rust/src/upstream.rs:43-58 | Every line of a reachable service in any table the edge can hold reaches its own container |
| `Takeover.ReachesAnUngatedReplica` | packages/agent-rust/src/reconcile.rs:452-457 | A scale-down frees a port the edge still routes to; the next service's new replica is given it, and is reached before its health gate |
| `Host.OnlyLastHeld` | packages/agent-rust/src/bin/agent-app.rs:471-477 | Once the propagation floor has passed since the last publish, the edge holds that table alone |
| `Health.WaitHealthy` | packages/agent-rust/src/health.rs:32-55 | Answers true if and only if the first run of enough consecutive good probes completes with no earlier reading of the clock at or past the deadline; it ends once the clock advances |
| `Apply.ApplyOne` | packages/agent-rust/src/reconcile.rs:441-514 | Whatever fails, only the action's service is touched, its count stays within the action's own maximum and its sizes at every effect, no run meets a taken name, other services stay reachable, and the service itself loses a container the edge can route to only by removals that do not republish first, or by a rollout without a route or out of step with the store; a scripted action performs a prefix of its fixed effect sequence, all of it when it succeeds, and records a fire exactly as it should |
| `Apply.ApplyCreate` | packages/agent-rust/src/reconcile.rs:459-469 | Pull, allocate, run, in that order, stopping at the first failure; at most one container of exactly the planned index is added |
| `Apply.ApplyRun` | packages/agent-rust/src/reconcile.rs:471-501 | Previous runs are cleared before the new container starts as index 0, and a fire is durable before its container starts |
| `Apply.NameFree` | packages/agent-rust/src/docker.rs:48-50 | An index no container of the service holds gives a container name nothing on the node holds |
| `Text.ContainerNameInjective` | packages/agent-rust/src/docker.rs:48-50 | Container names determine project, service and index when labels hold no underscore |
| `Text.ContainerNameAmbiguous` | packages/agent-rust/src/docker.rs:48-50 | With underscores two different services can claim one container name |
| `Text.ServiceKeyInjective` | packages/agent-rust/src/types.rs:56-58 | Service keys determine project and service when the project holds no slash |
| `Reconcile.ApplySteadyShare` | packages/agent-rust/src/reconcile.rs:319-351 | Applying a long-lived service's plan without drift: stopped replicas start, missing ones are created at free names, extra ones go; at most max(have, wanted) live at any effect; when its effects succeed exactly the wanted number run, all matching |
| `Reconcile.ApplyDriftShare` | packages/agent-rust/src/reconcile.rs:311-317 | A drifted service's share: within the rollout's maximum at every effect; a completed one leaves no drift; a given-up one leaves an error |
| `Reconcile.RolledOutLeft` | packages/agent-rust/src/reconcile.rs:560-565 | A completed rollout leaves no drifted replica and exactly max(wanted, initially matching) replicas |
| `Reconcile.ApplyRunShare` | packages/agent-rust/src/reconcile.rs:121-221 | A scheduled service or job: the leftovers are deleted first, then the effects of one decision are performed in order up to the first failure; never more than max(have, 1) of its containers are live at any effect |
| `Reconcile.ExtrasAreHighest` | packages/agent-rust/src/reconcile.rs:346-351 | Scaling down removes as many as are too many, all of them live replicas, and none of a lower index than one kept |
| `Pass.Tick` | packages/agent-rust/src/reconcile.rs:520-528 | Over a whole pass one service is worked on at a time: at every effect earlier services are finished, later ones untouched, the current one within its maximum, and no name clashed; as long as no shard is stored unknown to the agent, no service that is not to shrink loses a container the edge can still route to, and every one that was reachable stays so, its turn come or not; a service rolled out is routed to gated replicas alone exactly if those it kept were gated; while no desired service is behind an edge nothing is stored for that edge; afterwards nothing undesired runs; a service whose own turn went smoothly is brought up to date whatever happened to the others; a given-up rollout leaves its error |
| `Pass.TurnRouting` | packages/agent-rust/src/reconcile.rs:409-414 | One service's turn keeps every service's routing promise, its own by the care of its rollout, the others' because each shard names a replica of theirs |
| `Pass.ApplyServices` | packages/agent-rust/src/reconcile.rs:520-528 | The flat action list, applied in order, works through the services one turn each; a failure in one turn does not stop the next |
| `Pass.ApplyRemovals` | packages/agent-rust/src/reconcile.rs:374-381 | Removals come last and leave no container of a service no longer desired, without touching any desired one |
| `Pass.TwoTicks` | packages/agent-rust/src/reconcile.rs:285-384 | Two passes converge every long-lived service whose own effects succeed in both; when all effects succeed the node runs exactly what is wanted |
| `Pass.OthersSame` | packages/agent-rust/src/reconcile.rs:516-519 | A change to one service's containers leaves every other service's list as it was |
| `Pass.TickAndPublish` | packages/agent-rust/src/bin/agent-app.rs:369-376 | A pass and the publish that ends it, for every edge, if nothing was stored unknown to the agent: when the publish succeeds, the stored shard is the one of the containers to be routed to if and only if some desired service is behind the edge or an empty shard was stored before, and it names no removed service's container if and only if some desired service is behind the edge or it named none before; the lines of a service rolled out are gated exactly if the replicas kept were |
| `Retraction.LastShardStays` | packages/agent-rust/src/bin/agent-app.rs:277-375 | With nothing desired any more the pass removes the container, its publish succeeds without doing anything, and the stored shard still names what is gone |
| `Convergence.QuietIffConverged` | packages/agent-rust/src/reconcile.rs:282-384 | The plan for long-lived services changes nothing if and only if every desired service has exactly its replicas, all running and matching, and nothing undesired is live |
| `Convergence.RolloutLeavesRunning` | packages/agent-rust/src/reconcile.rs:551-556 | After a completed rollout the service runs if and only if it was short of matching replicas or some matching replica runs: stopped replicas are counted as if they served |
| `Convergence.RolloutConvergesIff` | packages/agent-rust/src/reconcile.rs:536-633 | A completed rollout converges the service if and only if no more replicas matched than are wanted and all that matched run: it starts none that is stopped and removes none that is too many |
| `Convergence.RoutingChangesAreNotDrift` | packages/agent-rust/src/reconcile.rs:111-116 | A change of ingress, health check or rollout policy alone never replaces a replica |
| `Planner.PlanReconcile` | packages/agent-rust/src/reconcile.rs:285-384 | The imperative planner computes the plan as a pure function of desired services, containers and anchors |
| `Planner.PushCreates` | packages/agent-rust/src/reconcile.rs:333-345 | The index search produces the creations at the free indices, one per missing replica |
| `Planner.FreeIndicesSmallest` | packages/agent-rust/src/reconcile.rs:333-345 | Planned indices are exactly the smallest unused ones, increasing, none skipped |
| `Inspect.GroupFacts` | packages/agent-rust/src/docker.rs:130-205 | Inspection groups list exactly each service's containers, in strictly increasing key order, none empty |
| `Inspect.GroupsInIndexOrder` | packages/agent-rust/src/docker.rs:201-203 | Within each group, containers are listed by replica index |
| `Docker.LabelsRoundTrip` | packages/agent-rust/src/docker.rs:229-298 | Labels written when a container is run read back as the same configuration, index, fire and job id |
| `Docker.EpochFireForgotten` | packages/agent-rust/src/docker.rs:172-176 | A fire at the epoch is the one whose label reads back as no label |
| `Capacity.PassesIffEachSurgeFits` | packages/shared/src/capacity.ts:132-156 | The check passes if and only if, in cpu and in memory independently, the steady demand fits alone and with any one service's surge on top |
| `Admission.AdmissionSound` | packages/shared/src/capacity.ts:132-156 | If the check passes for the whole set and no rollout of the pass was given up before, the summed cpu and memory of all live containers stay within allocatable at every moment of the pass |
| `Admission.PeakBound` | packages/shared/src/capacity.ts:120-131 | At every moment: at most the steady sum, plus the surge of the service being worked on, plus the surges left by rollouts given up earlier in the pass |
| `Overcommit.GivenUpSurgeOverflows` | packages/shared/src/capacity.ts:120-131 | On an admitted node whose plan is to roll out two services, a rollout given up on a failed publish and the next service's surge together hold four replicas where three fit |
| `Admission.AdmittedTick` | packages/shared/src/capacity.ts:120-156 | A pass of the agent over an admitted node in which no rollout is given up fits at every effect |
| `Admission.TopWithinSurge` | packages/cli/src/deploy/candidate-nodes.ts:23-35 | A service with at most its replicas never has more than replicas + min(maxSurge, replicas) containers during its turn |
| `Admission.SumByService` | packages/shared/src/capacity.ts:132-140 | With unique keys and nothing undesired, the node's total is the sum of the services' shares |
| `CronMachine.AtMostOnce` | packages/agent-rust/src/reconcile.rs:471-488 | Over any run of ticks, effects that may fail, exits, crashes between any two effects and losses of the record: started fires strictly increase, lie after the first anchor and not in the future, and at most one run is in progress |
| `CronMachine.SkippedNeverRuns` | packages/agent-rust/src/reconcile.rs:502-506 | While no anchor is re-seeded below a recorded fire: recorded fires strictly increase, only recorded fires are started and a skipped fire is never run |
| `CronMachine.NoLossRemembers` | packages/agent-rust/src/bin/agent-app.rs:314-337 | Without losing the durable record no anchor is ever re-seeded below a recorded fire |
| `CronMachine.LossRepeatsASkippedFire` | packages/agent-rust/src/bin/agent-app.rs:316-335 | Losing the record under a run in progress makes the agent record a fire twice, and, after a crash and the run's exit, run a fire it had skipped; for every schedule |
| `CronLoss.ForgetsIff` | packages/agent-rust/src/bin/agent-app.rs:316-335 | After the record is lost the next tick has forgotten a recorded fire if and only if a run is in progress and a fire later than every label is on record |
| `CronLoss.LossInAnyRun` | packages/agent-rust/src/bin/agent-app.rs:316-335 | That holds wherever the record is lost in a run that had forgotten nothing before |
| `CronLoss.ForgottenFireRepeats` | packages/agent-rust/src/bin/agent-app.rs:316-335 | Every such state can repeat: within a year of the forgotten fire, the service on a schedule of that fire records it again and, after a crash and the run's exit, runs it |
| `CronLoss.RepeatsIffLatest` | packages/agent-rust/src/bin/agent-app.rs:316-335 | On any schedule, the one it was recorded under included, the forgotten fire is recorded a second time if and only if it is still the schedule's latest fire and within the horizon |
| `CronMachine.TickSafe` | packages/agent-rust/src/reconcile.rs:121-191 | A tick plans at most one fresh fire: after the anchor and not in the future; a run only if all its containers are removed first |
| `CronMachine.RecordPending` | packages/agent-rust/src/reconcile.rs:484-488 | When a run's fire is about to be recorded, every earlier container of the schedule is already gone |
| `CronMachine.DecisionFacts` | packages/agent-rust/src/reconcile.rs:141-190 | A schedule acts exactly when a fire is due, on that fire, which lies after the anchor; it is skipped exactly when a run is in progress, and run exactly when none is |
| `Dispatch.ScheduleActsIffReached` | packages/agent-rust/src/reconcile.rs:141-190 | With a readable schedule and a fire known within the horizon, a tick acts if and only if the next fire has been reached; it acts on the latest fire, runs it when no run is in progress and otherwise records it as skipped |
| `Dispatch.NothingFiresUnanchored` | packages/agent-rust/src/reconcile.rs:147-163 | Without a context, a readable schedule, or any anchor or label, nothing is planned |
| `Dispatch.PlannedRunStarts` | packages/agent-rust/src/reconcile.rs:471-488 | When the effects of a planned run all succeed, exactly one container is left, running, labelled with the fire, which is also the durable record |
| `Dispatch.PlannedSkipRecords` | packages/agent-rust/src/reconcile.rs:502-506 | When the effects of a planned skip all succeed, the fire is recorded and nothing was started |
| `Dispatch.LossIsPossible` | packages/agent-rust/src/bin/agent-app.rs:316-335 | A minutely schedule gives the setting in which losing the record fails |
| `Dispatch.BackupActsIffReached` | packages/agent-rust/src/reconcile.rs:239-280 | A backup is planned if and only if its next fire has been reached and some replica of the database runs; once reached it stays so, hence a backup not planned is made up later |
| `Dispatch.DispatchedJobIsQuiet` | packages/agent-rust/src/reconcile.rs:196-221 | Once a request's container has been started, the next plan leaves the request alone |
| `Dispatch.JobDispatchedIff` | packages/agent-rust/src/reconcile.rs:196-221 | A request is dispatched if and only if no container carries it and no job of the service is in progress |
| `CronScan.NextCronFireIsLeast` | packages/agent-rust/src/cron.rs:212-223 | `next_cron_fire` is the least matching minute after its argument within the horizon, or there is none |
| `CronScan.DueCronFireIsGreatest` | packages/agent-rust/src/cron.rs:225-239 | `due_cron_fire` is the greatest matching minute in (max(last, now - horizon), now], or there is none |
| `CronScan.DueIffNextReached` | packages/agent-rust/src/cron.rs:212-239 | Within the horizon a fire is due if and only if the next fire after the last one exists and has been reached |
| `CronHorizon.ExpressionHorizonIff` | packages/agent-rust/src/cron.rs:31-34 | An accepted expression has a next fire within 366 days of every instant if and only if its weekday field is not a bare star or some allowed month has an allowed day that exists in every year |
| `CronHorizon.HorizonSufficesIff` | packages/agent-rust/src/cron.rs:31-34 | On the Gregorian calendar, the same for every schedule whose fields allow some value the calendar has |
| `CronHorizon.ParsedIsSensible` | packages/agent-rust/src/cron.rs:151-176 | Every field of an accepted expression allows a value in its bounds, and only a bare star leaves a day field unrestricted, allowing all |
| `CronScan.LeapDayScheduleMissesTheHorizon` | packages/agent-rust/src/cron.rs:31-34 | A schedule for 29 February alone has no next fire from anywhere in 2026, although it is a real date |
| `CronScan.ScanNextCronFire` | packages/agent-rust/src/cron.rs:214-223 | The upward scan computes the next fire |
| `CronScan.ScanDueCronFire` | packages/agent-rust/src/cron.rs:229-239 | The downward scan computes the due fire |
| `Calendar.DateOfDayNumber` | packages/agent-rust/src/cron.rs:184-206 | Day numbers and Gregorian dates correspond one to one |
| `CronParser.ExpressionAcceptance` | packages/agent-rust/src/cron.rs:151-176 | An expression is accepted if and only if it has five words each of which is a list of valid items of its field |
| `CronParser.FieldAcceptance` | packages/agent-rust/src/cron.rs:135-148 | A field is accepted if and only if it is `*` or reads as a comma list of valid items |
| `CronParser.FieldMeaning` | packages/agent-rust/src/cron.rs:135-148 | An accepted field's set is exactly the union of its items' stepped ranges if and only if no item's last step overflows 64 bits |
| `CronParser.ExpandExact` | packages/agent-rust/src/cron.rs:121-128 | Stepping yields exactly the denoted values if and only if the addition past the end does not overflow |
| `CronParser.OverflowingItem` | packages/agent-rust/src/cron.rs:121-128 | The minute item `5/9223372036854775807` is accepted, overflows the stepping loop and also fires at minutes 3 and 1 |
| `CronParser.ExpandItem` | packages/agent-rust/src/cron.rs:69-128 | The item loop computes the item's values, or rejects the item |
| `CronParser.ReadField` | packages/agent-rust/src/cron.rs:135-148 | The field loop collects the union of its items, rejecting at the first bad item |
| `CronParser.DenotationInBounds` | packages/agent-rust/src/cron.rs:36-48 | Every denoted value lies in its field's bounds |
| `CronParser.SundayFolds` | packages/agent-rust/src/cron.rs:163-164 | Day-of-week 7 becomes 0; the other weekdays are themselves |
| `Types.DurationReads` | packages/agent-rust/src/types.rs:83-100 | A number with a unit has the value it reads as |
| `Types.OtherDurationsAreZero` | packages/agent-rust/src/types.rs:83-100 | Anything else counts as zero |
| `StampProofs.StampDecidesDrift` | packages/agent-rust/src/types.rs:299-330 | Two configurations have the same stamp if and only if environment and restart mark are equal and secret references and volumes are equal once sorted by name |
| `StampProofs.ReorderingKeepsStamp` | packages/agent-rust/src/types.rs:299-330 | Reordering uniquely named secret references and volumes does not change the stamp |
| `StampProofs.EscapeAllDecodes` | packages/agent-rust/src/types.rs:299-330 | Escaped JSON text, as in section 7 of RFC 8259, determines the string and what follows it |
| `RoutingProofs.PushIsCrossRead` | packages/shared/src/edge.ts:67-98 | Grouping pushed shards gives the same table, domain by domain and in the same order, as cross-reading statuses built from the same containers minus those draining |
| `RoutingProofs.SameReplicas` | packages/agent-rust/src/status.rs:259-283 | The replicas a status reports as serving are exactly those a shard ships, in the same order |
| `RoutingProofs.ShardsNameRoutable` | packages/agent-rust/src/upstream.rs:43-58 | The table a rollout reasons about has exactly the lines the edge's shard lists: the running, published, not draining containers of the desired services behind that edge, each with its port and route |
| `RoutingProofs.NothingDropped` | packages/agent-rust/src/upstream.rs:46-52 | With nothing draining, the routed containers are those inspected |
| `Routing.BuildUpstreamShards` | packages/agent-rust/src/upstream.rs:14-62 | Every edge named by a service gets a shard, even an empty one, listing the running, published, not excluded replicas in configuration and replica order |
| `Routing.BuildEdgeBackendsFromShards` | packages/agent-rust/src/edge.rs:18-40 | Domains in order of first appearance, each with its backends in shard order |
| `Routing.EdgeHealthPathForDomain` | packages/agent-rust/src/edge.rs:43-53 | The first health path in reading order, or none exists |
| `CrossReading.BuildEdgeBackendsByCrossRead` | packages/shared/src/edge.ts:67-98 | The join of desired services and statuses, grouped by domain in order of first appearance; nodes without address or state, and the edge itself, are skipped |
| `Routes.BuildShardRoutes` | packages/agent-rust/src/routes.rs:14-26 | One route per domain with the domain's upstreams in order and its first health path |
| `Routes.MergeRoutesByDomain` | packages/agent-rust/src/routes.rs:30-60 | Routes of one domain are joined in order of first appearance, keeping the first health path |
| `Routes.BuiltRoutesAreMerged` | packages/agent-rust/src/bin/agent-edge.rs:133 | Merging routes built from shards changes nothing |
| `Routes.MergingKeepsUpstreams` | packages/agent-rust/src/routes.rs:30-60 | After merging each domain occurs once, with exactly the concatenation of its routes' upstreams |
| `Ports.LocalState.AllocatePort` | packages/agent-rust/src/state.rs:53-66 | A filed slot keeps its port; a new one gets the first free port cyclically from its hash, in the window; nothing else changes |
| `Ports.LocalState.ReleasePort` | packages/agent-rust/src/state.rs:69-71 | Exactly the released slot is gone |
| `Ports.FindFree` | packages/agent-rust/src/state.rs:60-63 | The probing loop ends at the first free window port in cyclic order |
| `Ports.ProbeEndsIff` | packages/agent-rust/src/state.rs:60-63 | The probe ends if and only if a window port is free |
| `Ports.RoomLeft` | packages/agent-rust/src/state.rs:59-63 | A table of fewer than 10000 entries leaves a window port free |
| `Ports.StaysInjective` | packages/agent-rust/src/state.rs:53-71 | Over any sequence of calls an injective table stays injective, and every port not there at the start lies in 20000-29999 |
| `Ports.StableUntilReleased` | packages/agent-rust/src/state.rs:53-57 | An allocation is stable until its own slot is released |
| `Ports.ComputeHash` | packages/agent-rust/src/state.rs:44-50 | The loop computes the 31-multiplier hash in 32-bit wrap-around arithmetic |
| `Backup.KeyRoundTrip` | packages/agent-rust/src/backup.rs:32-58 | For every prefix, database and instant, the object key's timestamp parses back to the instant floored to the second |
| `Backup.StampRoundTrip` | packages/agent-rust/src/backup.rs:32-52 | Parsing a printed timestamp gives the instant floored to the second, for any year a 32-bit field holds |
| `Backup.PruningIsExact` | packages/agent-rust/src/backup.rs:65-74 | Pruning selects exactly the dated keys strictly older than the window, never an undated one, and a dump's key exactly when its instant is |
| `Merge.MergeProjectServices` | packages/shared/src/merge.ts:42-54 | The full merge drops the owner's entries and appends the incoming ones, or reports the first foreign or repeated key |
| `Merge.MergeProjectServicesPartial` | packages/shared/src/merge.ts:74-98 | The partial merge replaces in place and appends what is new, or reports the first foreign or repeated key |
| `Merge.AssertNoDuplicates` | packages/shared/src/merge.ts:15-24 | Reports the first key met twice; none if and only if keys are unique |
| `MergeProofs.OwnersIsolated` | packages/shared/src/merge.ts:26-72 | A merge leaves every other owner's entries as they were, in order; the owner's own depend only on what it had and what it publishes |
| `MergeProofs.DeploysCommute` | packages/shared/src/merge.ts:42-98 | Merges by different owners, full or partial, give every owner the same entries in either order |
| `MergeProofs.CommutingIsAccepted` | packages/shared/src/merge.ts:15-24 | Either both orders of two owners' merges end accepted or both end refused |
| `MergeProofs.UniqueByOwner` | packages/shared/src/merge.ts:15-24 | Keys are unique on a node exactly when they are unique within each owner |
| `MergeProofs.PartialAcceptedIff` | packages/shared/src/merge.ts:74-98 | On a node with unique keys a partial merge is accepted if and only if every name listed twice is already there |
| `MergeProofs.RepeatedUpsertSlipsThrough` | packages/shared/src/merge.ts:80-98 | A service listed twice replaces silently when the node runs it, and is refused when it does not |
| `MergeProofs.OwnersDistinct` | packages/shared/src/config.ts:722-724 | Distinct (project, component) pairs have distinct owners |
| `MergeProofs.FootprintsDistinctInOneEnv` | packages/shared/src/config.ts:731-736 | Within one environment distinct pairs have distinct footprint owners |
| `MergeProofs.FootprintsCollideAcrossEnvs` | packages/shared/src/config.ts:711-713 | Project `blog` in environment `staging` and project `blog-staging` have one footprint owner |
| `MergeProofs.FootprintsCollideIff` | packages/shared/src/config.ts:711-736 | Two footprints coincide if and only if owner and environment do, or one owner extends the other by a dash and a piece that, with its own environment, is the other's environment |
| `Ownership.DeployPlansNothingForSiblings` | packages/agent-rust/src/reconcile.rs:285-384 | After any accepted deploy the plan for every other owner's service is the same actions in the same order |
| `Ownership.PlanAgrees` | packages/agent-rust/src/reconcile.rs:285-384 | Two sets of services that agree on a key plan the same for it |
| `Ownership.OnlyOwnAnchors` | packages/agent-rust/src/reconcile.rs:121-280 | Of the recorded fires only the service's own and its backup's matter to its plan |
| `StatusWrite.StatusWriter.MaybeWrite` | packages/agent-rust/src/status_write.rs:259-273 | Writes when first, changed or due; as long as no failing put takes hold, what is stored has the content of the current status, and the tracker knows what is stored |
| `StatusWrite.StatusWriter.ForceWrite` | packages/agent-rust/src/status_write.rs:276-286 | A put that succeeds brings tracker and store in step whatever happened before; one that fails leaves the tracker, which is then in step exactly when nothing was stored and it was before, or what was stored has the content it remembers |
| `StatusWrite.StaleAfterAmbiguousPut` | packages/agent-rust/src/bin/agent-app.rs:147-160 | A put that takes hold although it reports failure can leave a stale status stored while the next tick skips |
| `StatusWrite.OrderDoesNotMatter` | packages/agent-rust/src/status_write.rs:100-157 | The fingerprinted content is blind to the order of services, replicas and edge routes, and to time stamps and host samples |
| `StatusWrite.ContentDecides` | packages/agent-rust/src/status_write.rs:100-157 | Two statuses listed in order have the same fingerprint if and only if they agree on everything but time stamps, schedule rollups and host samples |
| `StatusWrite.FreshIff` | packages/shared/src/status.ts:186-190 | A node reads fresh at every instant between ticks, for all tick sequences, if and only if poll and liveness intervals together are at most the stale window plus one millisecond; if poll <= liveness <= stale / 2 its heartbeat is strictly younger than the window |
| `StatusWrite.DefaultPollGoesStale` | packages/agent-rust/src/types.rs:27-33 | With the agent's default intervals some run of ticks reads stale |
| `StatusWrite.ResolvedIsSafe` | packages/agent-rust/src/status_write.rs:299-326 | The resolved liveness interval is at most half the stale window, so polling at least as often keeps the heartbeat younger than the window |
| `Absorbing.RefusalIsNeverWrong` | packages/shared/src/autoscale.ts:203-229 | If some placement of the victim's services passes admission on every survivor, the aggregate check accepts the drain |
| `Absorbing.SingleSurvivorIsExact` | packages/shared/src/autoscale.ts:203-229 | With one survivor the answer is admission of the merged node, both ways |
| `Absorbing.AcceptanceCanBeWrong` | packages/shared/src/autoscale.ts:207-208 | With two survivors the aggregate can accept a drain no placement can carry out |
| `Autoscale.DecisionIff` | packages/shared/src/autoscale.ts:116-201 | The pool grows if and only if it is below the floor, or awake, hot and below the ceiling; it shrinks if and only if it is awake, not hot, above the floor, every node was seen cold and some drainable node can be absorbed |
| `Autoscale.DecisionIsJustified` | packages/shared/src/autoscale.ts:116-201 | The pool shrinks only above the floor, out of cooldown, when every node was seen cold, and by the coldest drainable node that can be absorbed; it grows only below the floor or below the ceiling; the floor wins over cooldown |

## Left out

- Docker, S3, SQS, SSM, ECR, CloudWatch and instance metadata: each call is an effect that succeeds or fails. Stopping and removing a container always takes hold, because the agent swallows their errors.
- Error message texts: an error is the key of the service it is recorded against.
- Agent.AppAgent.RefreshRouting: the shards of all edges but the one watched, whichever it is; their puts are one answer, `others`, that decides with the watched edge's own whether the publish succeeds. Two tables are the same when they name the same containers, ports and routes, so a container that takes over another's port is a change here, which the original's comparison of ports alone does not see.
- Agent.AppAgent.RolloutService: heartbeat writes and grace periods only pass time; the no-downtime clause asks that the service was reachable and serving (all current replicas running with ports, `maxSurge` and `replicas` at least 1) and that agent and store were in step, without which it fails.
- Agent.AppAgent.AllocatePort: chooses any port for a new slot; which one is the affair of `Ports.LocalState.AllocatePort`.
- Agent.AppAgent.RunBackup: dumping, uploading and pruning are one effect that records the fire when it succeeds.
- Pass.Tick: plans and applies; the status write that ends the agent's tick is in `StatusWrite.dfy`, statistics and log shipping are not modelled. Containers that exit by themselves during a pass are not modelled; the schedule machine has them. Anchor seeding and pruning of the agent's tick are in the schedule machine only.
- Apply.ApplyOne: `Remove` frees no ports, as in the source, and `ScaleDown` and `Remove` do not republish routing first, so a service that is to shrink or to go is not promised to keep the containers the edge routes to; every other service is.
- Admission.AdmissionSound: assumes the node starts with no undesired container and at most the wanted replicas of each service at their configured sizes, which is when the check is made.
- CronMachine.AtMostOnce: assumes that the wall clock does not go backwards and that a failed record leaves the stored state as it was.
- Pass.TwoTicks: containers are read back as run, by `Docker.LabelsRoundTrip`; nothing else changes the node between the passes.
- Backup.StampRoundTrip: follows the date library's rule for numeric fields; its own range of years, narrower than 32 bits, is not modelled. Validation of database names and the choice of target databases are left out.
- StatusWrite.OrderDoesNotMatter: the digest of the content is taken to be injective, so the fingerprint is the content itself, for statuses and for shards.
- StatusWrite.FreshIff: a status is stamped with the time of its tick.
- CronLoss.ForgottenFireRepeats: on a schedule made for the forgotten fire, within 365 days of it; beyond the scan horizon of 366 days it is no longer due. Any other schedule is the affair of `CronLoss.RepeatsIffLatest`.
- Takeover.ReachesIff: running containers are taken to publish distinct ports, which `Ports.StaysInjective` and the container runtime see to.
- Overcommit.GivenUpSurgeOverflows: drives the effects of the two planned rollouts up to the overflow by hand.
- Ambiguity.StopsARoutedReplica: drives the routing effects of the rollout, the tick's end and the drain, without the pulls and heartbeats between them.
- RoutingProofs.PushIsCrossRead: the edge is not one of the app nodes, and every node has an address.
- StampProofs.StampDecidesDrift: environments list their entries in key order, as the agent's map does; the ordering of the TypeScript side (`localeCompare`) is replaced by byte order.
- Autoscale.DecisionIsJustified: utilization averages are over the reals, ties between nodes use byte order, reason texts are left out, and so is the choice of instance type for a new node.
- Ports.LocalState.AllocatePort: requires a free window port for a new slot, without which the original's probe does not end.
- Job request validation, service networks and their repair, log shipping, host statistics, the edge's proxy configuration, schema parsing and the command line: no invariant proved here lives there.
