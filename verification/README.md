# The lifecycle engine of herd-wake, verified

herd-wake runs one dev server per project behind listeners of its own. A request wakes a sleeping
project and waits for it; a project nobody uses is stopped; a budget caps how many run at once; a
reload changes the configuration while all of this goes on. This project models the code that
decides when a process may start, when it may be stopped, and where a request goes meanwhile, and
proves what that code promises.

## How it is built

| files | what they model |
|---|---|
| `Backoff.dfy` | the retry schedule shared by supervisor and resolver |
| `Lifecycle.dfy`, `LifecycleRuns.dfy`, `Supervisor.dfy` | the process supervisor: its critical sections as functions, every run of them, and the class that is proved equal to the functions |
| `Idle.dfy`, `Monitor.dfy` | the activity tracker and one wake-up of the idle monitor |
| `StopGate.dfy`, `GateSafety.dfy`, `Accesses.dfy`, `GateProgress.dfy` | the stop-gate handshake over every interleaving of single atomic accesses, on one tracker and one supervisor: what it prevents, and what goes through |
| `BudgetRuns.dfy`, `Eviction.dfy` | the running-server budget: the caps over every interleaving, and one reservation exactly |
| `Config.dfy` | validation of ports, hosts and listen addresses |
| `Routing.dfy`, `Linking.dfy` | listeners, routers and handler switches, and what every operation keeps of their wiring |
| `Rest.dfy`, `Teardown.dfy`, `Rebuild.dfy`, `Carryover.dfy`, `Throughout.dfy`, `Reload.dfy` | what a daemon at rest serves, and the reload, step by step and as a whole |
| `Dynamic.dfy`, `DaemonRuns.dfy` | worktrees that come, are restarted and are dropped, and the whole life of a daemon |
| `Conservation.dfy`, `RecordRuns.dfy` | reloads, restarts, drops and requests one operation at a time, in every order: memberships, routes, and who is in the table |
| `Meanwhile.dfy`, `Undisturbed.dfy`, `LostAndLate.dfy` | a reload with requests and drops in between at any point: what becomes of it, of the worktrees registered meanwhile, and inputs on which one is lost |
| `Resolver.dfy`, `ResolverRuns.dfy`, `Worktrees.dfy` | single-flight resolution of worktrees, over every interleaving, and where it meets the daemon |
| `Ports.dfy`, `PortClaims.dfy` | port allocation of a sync |
| `EnvFile.dfy`, `EnvRoundTrip.dfy`, `EnvForms.dfy`, `EnvFiles.dfy`, `EnvPrecedence.dfy` | env files and the environment of a child |
| `Ring.dfy` | the buffer of recent output |
| `Options.dfy`, `Sets.dfy` | an option type, and counting in sets |

Three patterns recur. An object whose methods update its fields is a class with those fields; each
of its methods ensures that the object's `View()` becomes a function of its old view. What holds over
runs is proved about these functions: a datatype of steps, a predicate for when a step may be taken,
a function for what it does, and induction over every sequence of steps the predicate admits. Whatever
the outside world decides - whether a spawn succeeds, when a child exits, when a probe answers, what
time it is, what a `port_command` prints - is a parameter of a step.

The main results:

- **Stop gate.** A request counted while it is forwarded never goes to a process generation that a
  gated stop has begun to stop, even if the monitor's context ends and its gate opens early. An upgrade
  with `websockets_keep_alive: false` gives up its slot just before it is forwarded; for this one kind
  there is a run in which it reaches a process that an eviction is stopping, and, if it is held up
  there for the idle timeout, one in which it reaches a process that the idle monitor is stopping.
  `OnlyMomentaryEscapes` proves that this is exactly the set of kinds that can. And the handshake lets
  through what it should: from every reachable state a request whose start has succeeded, or that finds
  the project running, goes on to the process by its own steps; one whose start was refused never does,
  in any run; every request can leave and give back what it holds; and an idle monitor that finds nothing
  stops the project if and only if the deadline has passed.
- **Supervisor.** Every startup request is answered exactly once and none is stranded; events of old
  process generations are inert; a stop has one owner; nothing is spawned after retirement. In every
  reachable state `StartAnswers` says what a start by hand or on demand comes to: on demand a failed
  project is refused before the time its failures and the events since determine (`Due`), and started
  from that time on.
- **Budget.** No interleaving exceeds `max_running` or an entry's cap, and a reservation left alone starts
  its project exactly if both leave room. The eviction victim is the evictable project whose last use, by
  start or by request, is longest ago, and as many are evicted as are needed. Since a reservation tries three evictions, it ends with neither a
  start nor a refusal exactly when three succeed and were not enough; `LoweredCapRunsOut` is a family of
  inputs where that happens.
- **Reload.** After a reload the daemon answers every request as one newly built from the configuration
  would, except for projects of surviving wildcard entries; what is unchanged keeps its very record,
  what is changed its tracker and its switch exactly if its listen address, port and hostname stay, and
  then it is never without a route (`KeptByItsFields`, `RouteIsNeverLost`); and no port the rebuild
  needs is ever taken by the daemon itself. At every point while it runs, from the first suspended
  switch on, projects that stay answer as before, and requests on a kept route reach the old project,
  wait, or reach the new one.
  Whatever requests and drops come in between, the reload still ends at rest, serving the configuration
  (`EndsAtRest`), unless a request registers a name of the configuration before the reload commissions it.
- **Worktrees.** Memberships are counted once over every order of the single operations of reloads,
  restarts, drops and requests. But "a registered worktree is routed" and "a record that is not retired is
  in the table" fail of the code, each in two ways:
  - A drop first releases the route, then waits for the process, then deletes the row
    (`internal/daemon/wildcard.go:569-579`). A restart in between finds the row still there
    (`internal/daemon/wildcard.go:614-618`) and inherits a route that is gone; the drop then leaves the
    new row alone (`StrandedOnce`).
  - A resolution never asks whether its entry is still there (`internal/daemon/wildcard.go:322-389`). If a
    reload takes the entry away while it goes on, the worktree is registered for a listener that is
    closed, or about to be (`LateIsUnreached`), and no later reload collects it. In both cases requests
    for it meet the answer that its name is taken, if they meet anything (`OffIsRefused`).
  - A reload that adds a project puts it into the row of its name whoever is there
    (`internal/daemon/daemon.go:336`); a worktree of that name registered since the reload took stock stays
    on its listener, in no row and on no list (`LostToReload`).
  - A restart does the same if a drop has deleted the row it found and a request has registered the
    worktree again (`LostToRestart`).

  The exact conditions, over every interleaving of the single operations: requests for a worktree's hostname
  are sent to it if and only if its very entry was in the table when it registered and nothing has
  displaced the hostname since, that is, where every project finds room, if its entry's listener has not
  been closed, nor it been dropped or collected (`WorktreeIsRouted`); and a record is lost if and only if
  its row has been overwritten (`NobodyElseIsLost`). A worktree that registers at any point of a reload
  is in the table and routed at its end if and only if its entry survives, the configuration does not have
  its name, and no drop of it has begun; if it is not retired, it is lost if and only if the configuration
  has its name (`RegisteredMeanwhile`). Between reloads and restarts, a worktree is routed exactly when it
  was registered in time and no drop of it has begun since (`AskedIsRouted`, `RoutedUnlessDropped`).
- **Sync.** Ports never collide and supervisor ports never move. A second sync with the same answers can
  still move a project (`SecondSyncMayMove`): when its `port_command` names a port that the first sync
  refused it and that has become free. `SecondSync` proves that this is the only reason.
- **Environment.** Every file of blank lines, comments and assignments - bare, in single or in double quotes,
  exported or not, with any white space around their parts - is read as it is meant, and any other is
  refused for its first malformed line (`FileIsRead`, `FirstFaultIsReported`). The documented precedence holds for a name whatever the
  values exactly when no inline `env` key begins with that name and an equals sign; such a key is not
  rejected by validation (`internal/config/config.go:584-699`), and `SmugglingBreaksThePromise` is one.

Where the code and its comments disagree, the model follows the code. `internal/idle/tracker.go:37-43`
says a request is never forwarded to a process the idle monitor has decided to stop; for upgrades that
end their bracket early `MomentaryEscapes` has a run, for every timeout, in which one is.
`internal/envfile/envfile.go:259-264` states the precedence without the condition above.
`internal/daemon/wildcard.go:103-104` asks that an entry's projects be retired before its listener is
closed; one that registers meanwhile is not.

## Model

| member | source | states |
|---|---|---|
| Backoff.DelayMonotoneBounded | internal/process/supervisor.go:311-329 | more failures never shorten the wait, which lies between one and thirty seconds |
| Backoff.DelayDoubles | internal/process/supervisor.go:311-313 | one second after the first failure, twice the last delay after each further one, up to thirty |
| Backoff.BackoffDelay | internal/process/supervisor.go:314-329 | the loop that leaves early computes the closed form min(2^(n-1), 30) seconds |
| Backoff.ResolveBackoff | internal/daemon/wildcard.go:311-317 | the resolver's differently guarded loop gives the same delay for every n >= 1, and the base delay below |
| Lifecycle.InvStep | internal/process/supervisor.go:240-301 | every event keeps the supervisor's invariant: commands and generations, stops, and channels each queued or answered once |
| Lifecycle.InvRun | internal/process/supervisor.go:240-301 | the invariant holds after every run |
| LifecycleRuns.ExactlyOneAnswer | internal/process/supervisor.go:229-239 | in every reachable state a startup channel has one value, or none and is queued exactly once; waiters exist only while starting |
| LifecycleRuns.AnswersAreFinal | internal/process/supervisor.go:729-734 | no run sends twice on a channel, so no send blocks under the lock |
| LifecycleRuns.ReadyMeansRunning | internal/process/supervisor.go:645-654 | success is only ever reported at a moment the project is running |
| LifecycleRuns.NoWaiterStranded | internal/process/supervisor.go:618-630 | from every reachable state with an unanswered channel there is a run of exits and sends that answers it |
| LifecycleRuns.StaleEventsAreInert | internal/process/supervisor.go:561-614 | a late exit, probe success or timeout of an older generation changes nothing about the newer one |
| LifecycleRuns.ActiveIsLatest | internal/process/supervisor.go:529-545 | starting and running always belong to the command spawned last, whose exit handler is still to run |
| LifecycleRuns.OneStopOwner | internal/process/supervisor.go:355-428 | the state is stopping exactly while one stop drains, and only that one's end moves it on, to stopped |
| LifecycleRuns.RetiredNeverSpawns | internal/process/supervisor.go:263-273 | after Retire no run contains another spawn |
| LifecycleRuns.StepFacts | internal/process/supervisor.go:286-298 | only a start from stopped or failed raises the generation; without a spawn no step makes a project active |
| LifecycleRuns.StreakIsCounted | internal/process/supervisor.go:306-309 | the failure counter is the number of startup failures, observed from phases and answers alone, since the last readiness or manual start |
| LifecycleRuns.FailureSchedulesRetry | internal/process/supervisor.go:568-571 | every startup failure at time t schedules the retry at t plus the delay of the streak |
| LifecycleRuns.NoRetryBeforeBackoff | internal/process/supervisor.go:252-261 | after the n-th failure in a row at t every on-demand call before t + min(2^(n-1), 30) s is told when the retry is due and starts nothing, whatever happens but a manual start |
| LifecycleRuns.RetryAfterBackoff | internal/process/supervisor.go:255-260 | from that time on, unless it is retired, the next on-demand call starts a new generation and queues its channel |
| LifecycleRuns.DueIsScheduled | internal/process/supervisor.go:306-309 | the time of the next retry is what the events so far determine: none since the last readiness or manual start, else the last failure's time plus the delay of its streak |
| LifecycleRuns.StartAnswers | internal/process/supervisor.go:240-301 | in every reachable state a start is answered ready, joined, told to wait for the stop, refused as retired, refused on demand exactly while failed and before the retry is due, or else spawns; a spawn that fails counts and schedules |
| LifecycleRuns.ProbeReleasesEveryone | internal/process/supervisor.go:644-655 | in every reachable starting state whose probe has not timed out its success makes the project running, clears the backoff and answers every waiter with success |
| LifecycleRuns.StopReleasesEveryone | internal/process/supervisor.go:355-391 | a stop of a starting or running project begins at once, answers every waiter, and can end as stopped |
| LifecycleRuns.AbortIsTimeout | internal/process/supervisor.go:659-672 | while starting, the reason kept for the exit is the readiness timeout iff the probe of this very generation has timed out |
| LifecycleRuns.ExitDecides | internal/process/supervisor.go:555-614 | in every reachable state what an exit comes to: a failed startup, its reason owed to every waiter and the retry scheduled; stopped or failed from running, with no backoff; nothing while stopping |
| Supervisor.Supervisor.EnsureStarted | internal/process/supervisor.go:240-246 | resets the backoff, then joins, answers or spawns as the specification says |
| Supervisor.Supervisor.EnsureStartedOnDemand | internal/process/supervisor.go:252-261 | answers with the backoff error while failed and before the retry is due, else as EnsureStarted without the reset; what that means is LifecycleRuns.StartAnswers |
| Supervisor.Supervisor.EnsureStartedLocked | internal/process/supervisor.go:277-301 | the four-way switch over the state, with a spawn that may fail |
| Supervisor.Supervisor.RecordStartFailure | internal/process/supervisor.go:306-309 | one more failure, and the next retry at now plus its delay |
| Supervisor.Supervisor.NotifyWaiters | internal/process/supervisor.go:729-734 | every waiter is sent the outcome once and the list is empty |
| Supervisor.Supervisor.Spawn | internal/process/supervisor.go:485-549 | a successful spawn is a new generation, starting, with its exit handler and probe to come; a failed one leaves nothing behind |
| Supervisor.Supervisor.SetState | internal/process/supervisor.go:206-209 | state and lock-free mirror change together |
| Supervisor.Supervisor.Retire | internal/process/supervisor.go:269-273 | sets the flag and nothing else |
| Supervisor.Supervisor.StopAsync | internal/process/supervisor.go:355-391 | no-op, join, or own the stop; waiters of a startup are failed at once |
| Supervisor.Supervisor.FinishStop | internal/process/supervisor.go:412-425 | the end of a stop: stopped, error cleared |
| Supervisor.Supervisor.FailStartup | internal/process/supervisor.go:569-589 | an exit while starting: failed, backoff recorded, waiters handed to the exit handler |
| Supervisor.Supervisor.HandleExit | internal/process/supervisor.go:555-614 | the whole critical section of the exit handler, for current and superseded commands |
| Supervisor.Supervisor.DeliverFailure | internal/process/supervisor.go:618-630 | one send of the failed waiters' outcome |
| Supervisor.Supervisor.ProbeSucceeded | internal/process/supervisor.go:644-655 | running, backoff cleared, waiters told, if still starting with this command |
| Supervisor.Supervisor.ProbeTimeout | internal/process/supervisor.go:659-672 | the abort reason is recorded if still starting with this command |
| Idle.Tracker.BeginStop | internal/idle/tracker.go:161-175 | alone, a stop may begin iff no gate is armed, both counters are zero and no lease is unexpired; a refusal leaves nothing armed |
| Idle.Tracker.Release | internal/idle/tracker.go:171-174 | the gate is cleared and its channel closed once |
| Idle.Tracker.RequestEnded | internal/idle/tracker.go:61-64 | completion time stored, slot given back |
| Idle.Tracker.Parked | internal/idle/tracker.go:136-140 | requests in flight, open connections or an unexpired lease |
| Idle.Tracker.Deadline | internal/idle/tracker.go:146-152 | the timeout after the later of the start and the last completion |
| IdleMonitor.Monitor.Tick | internal/idle/monitor.go:89-131 | without interference the project is stopped iff it is running, unparked, past its deadline and no gate is armed; exactly then its gate stays armed |
| IdleMonitor.Monitor.Reevaluate | internal/idle/monitor.go:115-131 | under the armed gate the decision is taken afresh; the gate is given back at once unless the stop begins |
| IdleMonitor.Monitor.Finish | internal/idle/monitor.go:113-131 | once the stop is over, or no longer waited for, the gate is given back and its channel closed once |
| Accesses.BeginStopIsItsAccesses | internal/idle/tracker.go:161-175 | the single accesses of an attempt, uninterrupted, do to activity, gate and closes exactly what BeginStop ensures |
| Accesses.EndIsItsAccesses | internal/idle/tracker.go:61-64 | and those of a request that ends what RequestEnded and PersistentClosed ensure |
| GateSafety.SysInvStep | internal/proxy/ondemand.go:207-267 | each single atomic access of a request, a monitor, an eviction or the supervisor keeps the whole system's invariant |
| GateSafety.SysInvRun | internal/idle/tracker.go:37-44 | it holds after every interleaving |
| GateSafety.GateShelters | internal/idle/tracker.go:154-175 | from a successful BeginStop to its release every counted request has not read the gate yet, waits on it, or is leaving |
| GateSafety.ForwardedIsNotDoomed | internal/idle/monitor.go:105-131 | a request that stays counted is only forwarded to a generation no gated stop has begun to stop, and none begins while it is there |
| GateSafety.GateConservation | internal/idle/tracker.go:161-175 | the gate is armed iff one owner is between its swap and its clear; each channel is closed exactly once |
| GateSafety.ClearIsByOwner | internal/idle/tracker.go:167-174 | no clear removes another owner's gate |
| GateSafety.CounterConservation | internal/proxy/ondemand.go:160-201 | both counters equal the open brackets, the upgrade that ends its bracket early included |
| GateSafety.HoldLimit | internal/proxy/ondemand.go:237-245 | requests past the hold check never exceed hold_max_requests, and the counter overshoots only by those being turned away |
| GateSafety.NoEarlyIdleStop | internal/idle/monitor.go:115-126 | a decision to stop is at least the idle timeout after the process start and after everything seen finished, with both counters read as zero under the gate |
| GateSafety.SeenIsEverythingFinished | internal/idle/tracker.go:31-36 | what the decision has seen is every request and upgrade finished by the counter reads |
| GateSafety.MomentaryEscapes | internal/proxy/ondemand.go:191-200 | for every idle timeout a run in which a non-keep-alive upgrade is forwarded to a process that the only stop there is, an eviction or the idle monitor, is stopping |
| GateSafety.OnlyMomentaryEscapes | internal/idle/tracker.go:37-43 | whoever stops and whatever the timeout, a kind of request can be forwarded to a process a gated stop is stopping iff it is the non-keep-alive upgrade |
| GateProgress.StartedIsForwarded | internal/proxy/ondemand.go:250-259 | from every reachable state a request whose channel was answered with success goes on, by its own steps alone, to the current generation |
| GateProgress.RunningIsForwarded | internal/proxy/ondemand.go:220-228 | one past the gate that finds the project running goes on so without taking a hold |
| GateProgress.PassesTheGate | internal/proxy/ondemand.go:212-218 | one that sees no gate passes; one that sees a gate passes exactly once that has closed |
| GateProgress.ColdIsHeld | internal/proxy/ondemand.go:237-251 | one that finds it not running is held, if there is room, and waits on a channel of its own from EnsureStartedOnDemand |
| GateProgress.OverLimitLeaves | internal/proxy/ondemand.go:238-244 | without room it is turned away, and the counter is what it was |
| GateProgress.ColdStartIsForwarded | internal/proxy/ondemand.go:237-259 | a whole cold start: from every reachable state with the project stopped a run forwards the request to the next generation |
| GateProgress.RefusedIsNotForwarded | internal/proxy/ondemand.go:252-255 | one whose channel was answered otherwise is not forwarded in any run, by whatever steps |
| GateProgress.EveryoneCanLeave | internal/proxy/ondemand.go:160-201 | from every reachable state each request's own steps are enough to end it, with hold and bracket given back |
| GateProgress.GoesOnIfQuiet | internal/idle/tracker.go:161-175 | an attempt left alone goes on iff it finds no request, no connection and no unexpired lease, in the tracker's own fields |
| GateProgress.IdleIsStopped | internal/idle/monitor.go:115-131 | from every reachable state an idle monitor under its gate stops a running project iff the timeout has passed since the later of start and last completion, else leaves it alone |
| GateProgress.StoppedIsLeft | internal/idle/monitor.go:116-119 | a project that is not running is left alone |
| GateProgress.EvictionStops | internal/daemon/budget.go:403 | an eviction under its gate stops a starting or running project at once |
| GateProgress.StopEnds | internal/idle/tracker.go:171-174 | once the stop is over the gate is taken down and closed, and whoever waits at it goes on |
| BudgetRuns.StartKeeps | internal/daemon/budget.go:255-261 | a count taken while everything but starts goes on bounds what is held, so the start it admits stays within both caps |
| BudgetRuns.BudgetStep | internal/daemon/budget.go:233-285 | every step of every project and of the reservation keeps the caps |
| BudgetRuns.CapsHold | internal/daemon/budget.go:16-39 | over all runs registered starting and running projects stay within max_running, and each entry's within its cap |
| BudgetRuns.ReservationDecides | internal/daemon/budget.go:255-262 | a reservation nobody interferes with starts its project iff the starting and running projects, of all and of its entry, are fewer than the caps that are set |
| Eviction.Table.CountRunning | internal/daemon/budget.go:298-309 | the two loops' counts are the numbers of slot holders, of all and of the entry |
| Eviction.Table.EvictionOrder | internal/daemon/budget.go:332-352 | exactly the pool's slot holders, least recently active first, ties by name; field by field in OrderIsByUse |
| Eviction.Table.Evict | internal/daemon/budget.go:381-414 | the victim is the least recently active evictable project, field by field in VictimExactly; without one, every holder is listed with its reason, field by field in BlockersSayWhy |
| Eviction.Table.TryReserve | internal/daemon/budget.go:233-285 | starts iff at most two evictions make room and can be made, refuses with blockers, or runs out of attempts, each exactly characterised; a start is within both caps, and as many are evicted as are needed, each the victim in its turn |
| Eviction.Table.NextEviction | internal/daemon/budget.go:418-426 | it names the project an eviction would take if no gate were armed, or there is none |
| Eviction.VictimIsUnique | internal/daemon/budget.go:329-331 | there is only one project an eviction may take |
| Eviction.VictimExactly | internal/daemon/budget.go:329-380 | an eviction takes v iff v runs, is not always on, has no request, connection, unexpired lease or armed gate, and every other such project was started or last used at some time no earlier than v was either, and later or with a later name |
| Eviction.OrderIsByUse | internal/daemon/budget.go:332-352 | the order lists exactly the starting and running projects of the pool, each later used than those before it, by start or request, or as late and later by name |
| Eviction.BlockersSayWhy | internal/daemon/budget.go:354-380 | a refusal names every starting and running project of the pool, each with the first that holds of: always on, starting, requests, connections, lease, another stop |
| Eviction.RoomIsCounted | internal/daemon/budget.go:255-275 | no eviction is needed iff the slots taken are fewer than the caps that are set, else as many as it takes to get below both, of the entry's own as its cap needs |
| Eviction.LoweredCapRunsOut | internal/daemon/budget.go:255-284 | with three or more running over a cap of one the three attempts end with neither start nor refusal |
| Config.ClaimPort | internal/config/config.go:500-529 | one claim against the first claimant of a port |
| Config.FirstClaimantSuffices | internal/config/config.go:510-528 | comparing with the first claimant only is enough for all pairs |
| Config.ValidateProjects | internal/config/config.go:482-530 | no error iff all listed projects are pairwise fine, and every conflict reported is there |
| Config.ValidateEntries | internal/config/config.go:535-547 | no error iff every wildcard port is its own, and every conflict reported is there |
| Config.Validate | internal/config/config.go:466-550 | no sharing error iff no pair conflicts; every conflict reported is between the parties it names, at the port or host it names |
| Config.PairsAreEnough | internal/config/config.go:469-472 | the order-dependent check and the pairwise statement agree |
| Config.NoConflictByPorts | internal/config/config.go:469-550 | that is, iff hostnames are unique, projects that share a supervisor port all have one and listen on one address, and no application or wildcard port has another use |
| Config.OneClaimantPerRoute | internal/config/config.go:469-472 | two projects of a valid configuration on one address have different hostnames |
| Routing.AttachedKeeps | internal/daemon/daemon.go:317-347 | attaching keeps listeners, routers, records and entries wired |
| Routing.DetachedKeeps | internal/daemon/daemon.go:353-378 | detaching keeps them wired, closing the listener with its last member |
| Routing.InheritedKeeps | internal/daemon/reload.go:250-256 | taking over a route keeps them wired |
| Routing.EntryBoundKeeps | internal/daemon/wildcard.go:83-101 | binding an entry at a free address keeps them wired |
| Routing.EntryUnboundKeeps | internal/daemon/wildcard.go:105-115 | closing an entry's listener keeps them wired, whether or not a project is still on it; whoever is can no longer be reached through it |
| Linking.JoinedLinks | internal/daemon/daemon.go:317-347 | a project joining a listener keeps memberships counted and only members routed, even where its hostname is already taken there |
| Linking.DetachedLinks | internal/daemon/daemon.go:353-378 | and so does one that leaves, even where its hostname is by now another's |
| Linking.EntryUnboundLinks | internal/daemon/wildcard.go:105-115 | and the closing of an entry's listener, whoever is on it |
| Conservation.RetireKeeps | internal/daemon/state.go:282-294 | retiring any record, at any time, routed, off its listener, being replaced or retired before, keeps who holds what and releases each membership at most once |
| Conservation.AskKeeps | internal/daemon/wildcard.go:378-389 | registering a worktree, in time or after its entry has gone, keeps who holds what |
| Conservation.UnbindKeeps | internal/daemon/wildcard.go:105-115 | so does closing an entry's listener with projects still on it |
| Conservation.SwapKeeps | internal/daemon/reload.go:248-256 | so does replacing a claimed record, whether it still has a route or a drop has taken it meanwhile |
| Conservation.MembershipIsConserved | internal/daemon/daemon.go:273-289 | after every sequence of the operations of reloads, restarts, drops and requests a listener's members is the number of records bound to it that are not retired or wait to be replaced; without an entry it is there iff that is positive |
| Conservation.RoutesAreMembers | internal/daemon/router.go:83-95 | after every such sequence a router sends a hostname only to the switch of such a record with this hostname, and everything only to that of one without; where each project that joined found its hostname free, to every one of them, and one without is alone |
| Conservation.ReplacementIsRouted | internal/daemon/reload.go:250-256 | after every such sequence a replacement takes over the membership iff the record it replaces still has a listener, and the requests of a hostname iff the router still sends them to that record's switch |
| RecordRuns.SentUnlessDisplaced | internal/daemon/router.go:83-95 | over every such sequence a hostname stays with its switch exactly until a record with this hostname leaves or joins that listener, or it is closed |
| RecordRuns.SentIsAnswered | internal/daemon/router.go:51-67 | a request sent to a switch reaches the record that holds it, or waits exactly while that is being replaced |
| RecordRuns.WorktreeIsRouted | internal/daemon/wildcard.go:322-389 | over every interleaving a registered worktree is sent its hostname's requests iff its very entry was in the table when it registered and nothing has displaced the hostname since; where every project finds room, iff also its listener has stayed open and it has been neither dropped nor collected |
| RecordRuns.NobodyElseIsLost | internal/daemon/daemon.go:332-337 | over every interleaving a record that is not retired is in no row and on no list iff a reload or a restart has put its own project into its row |
| Meanwhile.RegisteredMeanwhile | internal/daemon/reload.go:142-239 | a worktree registered at any point of a reload, with any requests and drops in between, is at its end in the table and routed iff its entry survives, the configuration does not have its name and no drop of it has begun; not retired, it is lost iff the configuration has its name |
| Undisturbed.EndsAtRest | internal/daemon/reload.go:55-240 | a reload with any requests and drops in between ends at rest, serving the configuration, if no request registers a name of the configuration |
| Undisturbed.NeverInItsOwnWay | internal/daemon/reload.go:195-233 | whatever came in between, each project to attach finds room and no other listener on its port, and each entry to bind finds its port free |
| LostAndLate.LostToReload | internal/daemon/daemon.go:332-337 | a reload with one request in its midst that leaves a record on its listener, not retired, in no row and on no list |
| LostAndLate.LostToRestart | internal/daemon/wildcard.go:614-633 | operations of a restart, a drop and a request that leave one likewise |
| LostAndLate.LateIsUnreached | internal/daemon/wildcard.go:322-389 | a reload that changes an entry, with a worktree registered before or after the listener is closed: registered, not retired, no drop begun, and its requests meet the new entry's resolver |
| Rest.AnswersAsConfigured | internal/daemon/router.go:51-67 | a daemon at rest gives every request the answer the configuration alone determines |
| Rest.OneAnswerExpected | internal/config/config.go:469-472 | the configuration determines one answer per request |
| Rest.RoutingIsConfigured | internal/daemon/router.go:16-28 | a request is answered some way iff the configuration says so, where no entry's project takes it |
| Rebuild.RoomFor | internal/daemon/reload.go:195-202 | after the teardown there is room at the address of every project to attach, and no listener at another address of its port |
| Rebuild.EntryAddressFree | internal/daemon/reload.go:228-233 | and none at all on the port of an entry to bind |
| Carryover.WhoGoes | internal/daemon/reload.go:147-175 | removed, changed and orphaned projects are together exactly those that do not stay |
| Carryover.TornDownThenRebuilding | internal/daemon/reload.go:178-193 | after the teardown all that is left in service fits the new configuration, and each changed project waits on its route or is off every route |
| Carryover.FreshRoute | internal/daemon/reload.go:197-202 | commissioning on a fresh route is one project's progress and disturbs no other |
| Carryover.KeptRoute | internal/daemon/reload.go:203-213 | commissioning on the kept route keeps switch and tracker and disturbs no other |
| Throughout.ThroughoutReload | internal/daemon/reload.go:29-43 | at every point of a reload, from the first switch suspended to the last entry bound, projects that stay are answered by their very record, and a changed one on a kept route answers as before until suspended, then holds requests, then answers as the new one |
| Throughout.RouteIsNeverLost | internal/daemon/reload.go:157-160 | at every point of a reload a project whose listen address, port and hostname stay, whatever else changes, is answered by its old record, held, or answered by its new one |
| Throughout.KeptByItsFields | internal/daemon/reload.go:203-213 | after it a configured project has its tracker; its switch iff listen address, port and hostname stay; its record iff nothing but its source changes |
| Throughout.EntryKeptByItsFields | internal/daemon/reload.go:115-130 | and an entry is the very same iff nothing but its cap changes |
| Throughout.WorktreeKeptWithItsEntry | internal/daemon/reload.go:161-175 | a worktree's project has its very record iff its entry is kept so, and else is gone |
| Reload.Daemon.Attach | internal/daemon/daemon.go:317-347 | the new listener, record, table row and route |
| Reload.Daemon.Detach | internal/daemon/daemon.go:353-378 | route and membership gone, or the switch suspended |
| Reload.Daemon.Retire | internal/daemon/state.go:282-294 | at most once per project |
| Reload.Daemon.Commission | internal/daemon/reload.go:248-266 | on the inherited route or a fresh one |
| Reload.Daemon.BindEntry | internal/daemon/wildcard.go:83-101 | listener and entry registered |
| Reload.Daemon.UnbindEntry | internal/daemon/wildcard.go:105-115 | listener and entry forgotten, and whoever was on it is on none |
| Reload.Daemon.DiffProjects | internal/daemon/reload.go:91-106 | the three lists are added, changed and removed, a dynamic project counting as changed when its name is taken over |
| Reload.Daemon.DiffEntries | internal/daemon/reload.go:115-130 | the entries added, removed and changed, up to their cap |
| Reload.Daemon.DetachAll | internal/daemon/reload.go:147-176 | rows of projects that leave are deleted, every kept route and no other is suspended, and exactly what goes is on the list to retire |
| Reload.Daemon.RetireAll | internal/daemon/state.go:300-313 | in any order, exactly the listed projects are retired, in service or off their listener already, those keeping their route suspended, all others untouched |
| Reload.Daemon.TearDown | internal/daemon/reload.go:142-193 | everything that goes is retired and off its listener before anything is built |
| Reload.Daemon.Start | internal/daemon/daemon.go:124-145 | a new daemon is at rest and serves its configuration |
| Reload.Daemon.ApplyConfig | internal/daemon/reload.go:88-241 | from a daemon at rest a valid configuration is applied: at rest again, serving exactly it, unchanged records and entries identical, trackers kept, switches kept iff listen address, port and hostname stay, the rest retired |
| Reload.Daemon.Reload | internal/daemon/reload.go:55-86 | a reload is applied iff the configuration is valid; an invalid one changes nothing at all |
| Reload.ReloadedAsFresh | internal/daemon/reload.go:17-53 | every request gets the answer a daemon freshly built from the new configuration gives, but where a surviving entry's project takes it |
| Reload.UntouchedRoutes | internal/daemon/reload.go:42-48 | unchanged projects and those of unchanged entries are answered by the very same state as before |
| Reload.Daemon.Materialise | internal/daemon/wildcard.go:378-389 | a free name is registered, and routed if the resolver's entry is still in the table; a taken one is left alone |
| Reload.Daemon.DropDynamic | internal/daemon/wildcard.go:569-579 | retired, and then its row deleted |
| Reload.Daemon.ForgetDynamic | internal/daemon/wildcard.go:574-578 | the second half, after the wait for the process: the row is deleted if it is still this record's |
| Reload.Daemon.RestartDynamic | internal/daemon/wildcard.go:614-633 | the swap, unless the project was replaced meanwhile |
| Dynamic.WorktreeHasRoom | internal/daemon/wildcard.go:359-389 | the hostname of an unregistered worktree is free on its entry's listener |
| Dynamic.MaterialisedAtRest | internal/daemon/wildcard.go:378-389 | a daemon at rest is at rest again after materialising for an entry in the table |
| Dynamic.LateAtRest | internal/daemon/wildcard.go:378-389 | and after materialising for one that has gone |
| Dynamic.DropBegun | internal/daemon/wildcard.go:564-573 | the first half of a drop leaves a daemon at rest: the project retired and off its listener, its row there, every other project untouched |
| Dynamic.DropEnded | internal/daemon/wildcard.go:574-578 | and so does the second half, which removes just that row |
| Dynamic.DroppedAtRest | internal/daemon/wildcard.go:564-579 | a whole drop leaves no trace in table or routes, with every other project untouched |
| Dynamic.RestartedAtRest | internal/daemon/wildcard.go:581-633 | a restart of whatever record the table holds, one a drop has begun to take away included, leaves a daemon at rest with the record swapped, in service iff the old one was, and every other project untouched |
| Dynamic.RestartedIsRouted | internal/daemon/reload.go:250-256 | after it the project is routed iff its old record still had its listener |
| Dynamic.DropThenRestartStrands | internal/daemon/wildcard.go:564-633 | a project in service that is restarted between the halves of a drop is registered, not retired and not routed; its requests go to the resolver |
| Dynamic.StrandedOnce | internal/daemon/wildcard.go:614-633 | such an input for every entry and worktree, from a new daemon |
| Worktrees.OffIsRefused | internal/daemon/wildcard.go:378-385 | there, whatever materialising comes to, no project answers them, and the table stays as it is |
| Dynamic.RetiredOnce | internal/daemon/state.go:54-57 | retiring or dropping again, in any combination, changes nothing |
| DaemonRuns.StepKeeps | internal/daemon/wildcard.go:322-633 | each reload, request for a worktree of an entry that is or was there, half of a drop and restart, in any order, leaves a daemon at rest serving its configuration, and what it does to each other project's route is exact |
| DaemonRuns.AlwaysAsConfigured | internal/daemon/router.go:16-28 | at every point of every run a request is answered some way iff the current configuration says so, where no entry's project takes it |
| DaemonRuns.NobodyIsLost | internal/daemon/state.go:54-57 | at every point between reloads, restarts, requests and halves of drops a record is retired or the one its table row holds; what a request in the midst of a reload or a restart changes about this is Meanwhile.RegisteredMeanwhile and RecordRuns.NobodyElseIsLost |
| DaemonRuns.AskedIsRouted | internal/daemon/wildcard.go:378-389 | a worktree that has just been registered is routed iff its very entry is still in the table |
| DaemonRuns.RoutedUnlessDropped | internal/daemon/wildcard.go:564-633 | over every run a registered worktree is routed iff it was and no drop of it has begun since, whatever restarts and reloads came after |
| Resolving.Resolver.Enter | internal/daemon/wildcard.go:254-270 | joins the call in flight, reports a fresh failure, or leads a new call |
| Resolving.Resolver.Record | internal/daemon/wildcard.go:274-288 | a failure counts up and dates the next attempt, anything else forgets |
| Resolving.EnterKeeps | internal/daemon/wildcard.go:254-270 | leading happens only with no call in flight and the backoff over |
| Resolving.EntersByLog | internal/daemon/wildcard.go:254-270 | a request joins what is in flight, is told the last reason iff nothing is and the retry is not due yet, and else leads a new call: a failure whose time is over keeps nobody from it |
| Resolving.RecordKeeps | internal/daemon/wildcard.go:274-288 | the record stays what the log of resolutions says |
| ResolverRuns.StepKeeps | internal/daemon/wildcard.go:244-308 | every step of every request keeps the resolver's invariant |
| ResolverRuns.SingleFlight | internal/daemon/wildcard.go:236-243 | two requests never materialise one worktree at a time |
| ResolverRuns.SharedOutcome | internal/daemon/wildcard.go:294-299 | everyone a resolution releases asked for that worktree and gets its leader's result |
| ResolverRuns.NobodyForgotten | internal/daemon/wildcard.go:289-308 | a waiting request can take its outcome, or its leader can still go on |
| ResolverRuns.FailuresAreCounted | internal/daemon/wildcard.go:276-287 | the count is the number of failures other than 404 since the last success or 404 |
| ResolverRuns.BackoffIsKept | internal/daemon/wildcard.go:259-267 | in every run no resolution begins before the delay after the failures before it is over |
| ResolverRuns.LookFinds | internal/daemon/wildcard.go:254-270 | in every reachable state a request waits for whoever is at work on its worktree, else is told why while the backoff lasts, else sets to work itself |
| ResolverRuns.HoldAdmits | internal/daemon/wildcard.go:245-252 | it is let in to wait iff fewer than the limit are inside |
| ResolverRuns.LeaderAnswers | internal/daemon/wildcard.go:272-291 | what materialising comes to reaches its leader by its own steps and is there for all who wait; a free name is registered, a taken one refused |
| ResolverRuns.RegisteredOnce | internal/daemon/wildcard.go:378-388 | over every run in which only requests change the table, no registered project is displaced or given out again, and calls for one name never give out two projects |
| Worktrees.SettleMaterialises | internal/daemon/wildcard.go:378-389 | the registering step of a request is what Materialise does to the table, and it answers with the project registered, if any |
| ResolverRuns.WaitingLimit | internal/daemon/wildcard.go:245-252 | requests waiting never exceed the limit |
| Ports.LowestFree | internal/discovery/discovery.go:552-557 | a free port of the range with none free below it, or none at all |
| Ports.Syncer.Allocate | internal/discovery/discovery.go:548-559 | claims the lowest free port |
| Ports.Syncer.Release | internal/discovery/discovery.go:541-545 | gives back only what the name holds |
| Ports.Syncer.BuildProject | internal/discovery/discovery.go:427-512 | supervisor port kept or allocated, application port from the probe, kept or allocated, with what was claimed given back on a skip |
| Ports.Syncer.SyncEntry | internal/discovery/discovery.go:350-373 | the loop over the candidates registers, keeps or skips each |
| PortClaims.CollectUsed | internal/discovery/discovery.go:254-262 | of every valid configuration, each port in use has a holder that uses it: application ports, wildcard ports and supervisor ports not shared by hostname their own |
| PortClaims.ManagedHold | internal/discovery/discovery.go:254-258 | so each project of a managed file holds both its ports when the sync begins |
| PortClaims.BuildClaims | internal/discovery/discovery.go:427-512 | nobody loses a port, and what is generated holds both of its own |
| PortClaims.PortsAreExclusive | internal/discovery/discovery.go:298-300 | all ports of the result are different and nobody else's, and supervisor ports of registered projects never change |
| PortClaims.NewCandidateGets | internal/discovery/discovery.go:441-512 | a new candidate is registered iff there is a supervisor port for it, the lowest free one, and an application port, its command's or the lowest free one beside; else nothing is taken |
| PortClaims.KnownCandidateKeeps | internal/discovery/discovery.go:441-512 | a registered one keeps its supervisor port and moves its application port only to a usable one its command names; while it names none it is left as it is |
| PortClaims.ReportsAreRight | internal/discovery/discovery.go:350-373 | every project of the result is reported, as added, updated or unchanged, as it is |
| PortClaims.FinalIsBuilt | internal/discovery/discovery.go:350-373 | the result has exactly the candidates built or kept, each as in its turn |
| PortClaims.SyncedFits | internal/discovery/discovery.go:441-500 | no port of a worktree registered by a sync is one that the rest of the configuration uses |
| PortClaims.BuildAgain | internal/discovery/discovery.go:476-502 | a registration met again stays exactly if its probe does not name a port it could move to |
| PortClaims.SecondSync | internal/discovery/discovery.go:350-373 | a second sync leaves every registration unchanged if no probe names a port that has become free; and only then, where every candidate is registered |
| PortClaims.SecondSyncMayMove | internal/discovery/discovery.go:493-500 | an input on which the second sync moves a project |
| EnvFile.ParseDoubleQuoted | internal/envfile/envfile.go:150-180 | the loop computes the recursive reading of escapes and closing quote, or the fault |
| EnvFile.Override | internal/envfile/envfile.go:185-193 | the first variable of the name is dropped and the new one added at the end |
| EnvFile.Parse | internal/envfile/envfile.go:74-91 | the file's definitions merged in order, or the first malformed line and its fault |
| EnvRoundTrip.Unquotes | internal/envfile/envfile.go:146-149 | reading an escaped value gives the value, for all values |
| EnvRoundTrip.ParsesQuoted | internal/envfile/envfile.go:96-123 | a quoted assignment parses to its variable, the name export included |
| EnvRoundTrip.ParsesWhatIsPrinted | internal/envfile/envfile.go:74-180 | parsing what is printed gives back exactly the list, for all values and all distinct identifiers |
| EnvForms.FileIsRead | internal/envfile/envfile.go:52-91 | every file of blank lines, comments and assignments in any form is read as meant: white space, export keywords, carriage returns and a byte order mark change nothing |
| EnvForms.BareIsItself | internal/envfile/envfile.go:141-142 | an unquoted value without newline, outer white space or leading quote is read as it stands |
| EnvForms.SingleIsItself | internal/envfile/envfile.go:129-137 | and so is one in single quotes without newline or single quote |
| EnvForms.DoubleQuotedIs | internal/envfile/envfile.go:150-180 | a double-quoted value is read piece by piece, three backslash sequences meaning something and all others themselves; unclosed, or followed by text, it is a fault |
| EnvForms.SingleQuotedIs | internal/envfile/envfile.go:129-137 | a single-quoted one likewise, nothing inside meaning anything |
| EnvForms.AssignmentIs | internal/envfile/envfile.go:96-112 | what a line with an equals sign defines, or whether it is the name or the value that is at fault |
| EnvForms.NoEqualsIs | internal/envfile/envfile.go:100-103 | a line without an equals sign, exported or not, is no assignment |
| EnvForms.FirstFaultIsReported | internal/envfile/envfile.go:84-87 | a file is refused for its first malformed line, counted from one, whatever comes after |
| EnvFiles.OverridingKeepsTheLast | internal/envfile/envfile.go:182-184 | overriding one by one leaves each name once, with its last definition at its last position |
| EnvFiles.Load | internal/envfile/envfile.go:211-236 | the last definitions of all files in order, or the first file that cannot be used; missing optional files count for nothing |
| EnvFiles.LastsMeanTheSame | internal/envfile/envfile.go:195-199 | the merged list means the right-biased union of all definitions |
| EnvFiles.LoadedExactly | internal/envfile/envfile.go:211-236 | all files are loaded iff each has no malformed line, or is optional and missing; else the first that is neither is reported, with its line and fault if it could be read |
| EnvFiles.LastFileWins | internal/envfile/envfile.go:195-199 | the value of a name is what the last of the files that define it says, by its own text |
| EnvPrecedence.ChildEnv | internal/envfile/envfile.go:269-296 | the inherited list, the node_path PATH, the files' variables and the sorted inline map, in this order |
| EnvPrecedence.AsPromised | internal/envfile/envfile.go:259-264 | the last occurrence of a name is inline, else files, else node_path, else inherited, when no inline key smuggles it in |
| EnvPrecedence.PrecedenceExactly | internal/envfile/envfile.go:259-264 | for a name this holds for all values iff no inline key begins with the name and an equals sign |
| EnvPrecedence.ChildGetsWhatIsMeant | internal/envfile/envfile.go:195-264 | from the files' text to the child: the value is what the right-biased union of all definitions says |
| EnvPrecedence.SmugglingBreaksThePromise | internal/envfile/envfile.go:292-294 | an inline key on which the documented precedence fails |
| Ring.RingBuffer.Append | internal/process/ring.go:19-29 | the buffer keeps holding the last lines of the whole history |
| Ring.RingBuffer.Last | internal/process/ring.go:33-44 | the suffix of the history of length min(n, capacity, history), or all that is buffered for n <= 0 |

## Left out

- Processes: signals, process groups, log files, the output pump, readiness probing itself and the `lastExit` text; spawn success, exit, group gone, probe success and timeout are events.
- HTTP forwarding, header handling, WebSocket tunnelling and diagnostic pages; forwarding is a step.
- YAML decoding, file and directory checks, git worktree rules, running `port_command`, the Herd CLI: their outcomes are given.
- Field validation other than ports, hosts, listen addresses and unique names, and `validateBudget`.
- Liveness under fair scheduling and memory effects weaker than sequential consistency.
- Daemon shutdown (`stopAll`, draining), the control API and the CLI.
- Supervisor.Supervisor.HandleExit: a critical section reads the clock once, as a parameter; the delivery of failed waiters, which follows without the lock, is a step of its own.
- IdleMonitor.Monitor.Tick: runs without interference, up to the wait for the stop, after which Finish gives the gate back; everything that can come in between is in StopGate.
- GateProgress.ColdStartIsForwarded: with no other step in between; that nobody is starved is not part of it.
- EnvForms.FileIsRead: white space around the parts of a line is of one byte; inside a value it is any.
- Idle.Tracker.BeginStop: the channel of a lost compare-and-swap, which nobody can see, counts as closed.
- GateSafety.ForwardedIsNotDoomed: one tracker over one supervisor; a manual stop, a reload or a crash may still take a process from under a request, as in the code. A reservation refused by the budget shows as a request that gives up.
- GateSafety.NoEarlyIdleStop: a completion's clock read and its store are one step, since two finishers can otherwise store out of order; and a lease granted after the check does not abort the stop.
- BudgetRuns.CapsHold: the caps do not change, and a state check that lets a start skip its reservation is one step with that start.
- Eviction.Table.TryReserve: one reservation without interference, on values in name order, with a spawn that succeeds; the blocker of a project that became parked between check and gate is not told apart.
- Config.Validate: which of several claimants of a port is named is not stated, and names are checked in a given order.
- Conservation.MembershipIsConserved: each operation is one step, so no point between the lock and the router in the middle of an attach, detach or commission.
- DaemonRuns.StepKeeps: a reload and the swap of a restart are one step each. They exclude one another, but neither requests nor drops: for a reload these are in Meanwhile and Undisturbed, for a restart in Conservation and RecordRuns.
- DaemonRuns.AlwaysAsConfigured: as for StepKeeps, at the points between reloads and restarts; within a reload it is ThroughoutReload and, at its end, EndsAtRest.
- DaemonRuns.NobodyIsLost: as for StepKeeps; the exact condition with requests in the midst of a reload or a restart is in RecordRuns and Meanwhile.
- DaemonRuns.RoutedUnlessDropped: as for StepKeeps; over every interleaving it is RecordRuns.WorktreeIsRouted.
- Meanwhile.RegisteredMeanwhile: the reload begins at rest, with nobody lost before. That a drop may delete the row of a project to be changed before the reload looks it up again (`internal/daemon/reload.go:156-157`), where the code would fail, is not part of it.
- Undisturbed.EndsAtRest: one direction; a name of the configuration registered by a request, but dropped again before the end, does no harm either.
- Throughout.ThroughoutReload: a drop that begins while the reload is under way is not part of it, and projects already off their listener are not spoken of.
- Reload.Daemon.Reload: the verdict of the checks of single fields is given; the refusals before Run and during shutdown are not modelled.
- Routing.AttachedKeeps: a listener is known by its address, and a record whose listener has been closed under it has none, where the code keeps a reference to the closed one; routers swap whole tables at once.
- Reload.Daemon.ApplyConfig: no external bind failure, hence not the restore path; no dynamic project appears or vanishes midway; lists are sets, so their order is not stated; activation, monitors and the caps applied to surviving entries are not part of it.
- Reload.Daemon.Start: the table rows that New writes first and Run writes again are written once.
- Reload.Daemon.Materialise: the registering section; the checks before it are the resolver's verdict in ResolverRuns. The vanish guard in front of the route is not modelled.
- Reload.Daemon.RestartDynamic: the swap only, after the port has been found to differ and to be free.
- ResolverRuns.RegisteredOnce: two labels materialised at once may still be given the same application port, as in the code.
- Ports.Syncer.SyncEntry: the managed file, removed projects, summaries and Herd actions are not modelled; candidates carry what their directory, the Herd check and `port_command` answer.
- EnvFile.Parse: a string stands for bytes, one char a byte; a fault carries its kind and line number and no text.
- EnvFiles.Load: permission warnings and error texts are not modelled.
- EnvPrecedence.ChildEnv: the PATH of the daemon and the directory of node_path are given as one string.
- Ring.RingBuffer.Append: a buffer of capacity zero, on which the code would panic, is excluded by the constructor.
