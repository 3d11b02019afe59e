# Verification of the go-overlay supervisor

go-overlay is a process supervisor that runs as PID 1 of a container. It reads a list of services,
rejects configurations whose dependency graph is broken, starts every enabled service after its
dependencies, restarts services that exit, watches their health, and stops everything on a signal or
when a `required` service fails. This project models that behaviour in Dafny and proves what holds over
every run of it.

Check everything with `dafny verify dfyconfig.toml`.

## The models

**Validation** (`Config`, `Validation`). `hasCycles` is a recursive method over two mutable maps in a
`Search` object; a ghost trace records the order in which services were finished and through which
entry an unknown name was met. The reference checks, the search from every service, the defaults and
the name, wait and restart checks are the loops of the program.

**The protocol** (`Supervisor`). One state holds a program counter for each service goroutine
(`mains`), one record for each `startService` call with its `ServiceProcess` (`attempts`), the
dependency marks, `activeServices` with the WaitGroup counter, the restart counters, and the shutdown
state with `shutdownOnce` and the exit code. Every lock-protected update, compare-and-swap, channel close
and select choice is one step, chosen freely among the enabled ones, so a run is any interleaving, of any
length, over any number of services. Process exits, launch results, health results, operator requests,
signals and timeouts are free choices of the environment. An operator request may reach an incarnation
at any time after it was registered, because the handler looks it up under the lock and acts on it
later. The compare-and-swap of a stop request and the cancellation it causes are one step.

The end of the program (`os.Exit` in the signal handler, or the return of the main goroutine) just ends
the run, so it is covered by proving everything for all prefixes.

`Invariant` has the global invariant and shows that every step keeps it. The theorems about runs follow:
`Lifecycle` (incarnations, marks, dependency order, the shutdown and its callers), `Budget` and
`BudgetReached` (restart limits, and that they are exact), `Succession` and `ExitHandling` (which attempts
are restarted, and with what status they end), `HealthVerdicts` (what an unhealthy service leads to),
`Outcomes` (one-shots, the exit code and the shutdown it brings), `GivingUp` (why a required service is marked failed), `Startup`
and `Settling` (progress, confluence, and that startup comes to an end), `Drain` (shutdown; `Sums` adds up
the weights of the measures). `ExitStatus`, `SilentFailures` and `SignalExit` prove for which configurations
the documented exit status can be trusted, with runs built in `Driving`; `Limits` has single runs in which
promises are broken.

**The objects** (`SharedState`). The dependency tracker with its channels, the `ServiceProcess`, the
registry and the restart counters as classes. Their methods are proved against the same functions
(`MarkReady`, `CasIntent`, `Registry.Add`, `ExitDecision` and so on) that the steps of the protocol apply.

**The rest** (`Health`, `LogStream`, `Timing`). The health monitor loop over any sequence of check
results, the log streamer over any cut of the byte stream into reads, and the waits and the shutdown in
ideal time, where a wait ends exactly when its event happens.

## Where the program does not do what its documentation says

* `README.md:137-138` promises exit status 1 when a `required` service fails, and 0 for a shutdown driven by
  a signal. The first half breaks in four ways. A start error on a *restart* is only logged
  (`cmd/go-overlay/restart.go:121-125`), be it a restart by policy (`Limits.RestartStartErrorIsSilent`,
  `SilentFailures.RestartPolicyIsSilent`) or by the operator (`Limits.OperatorRestartIsSilent`,
  `SilentFailures.OperatorRestartIsSilent`). A service whose dependency failed is marked failed without a look
  at `required` (`cmd/go-overlay/service.go:249-252`, `SilentFailures.OptionalDependencyExample`), and so is
  one whose wait timed out (`SilentFailures.TimedOutWaitIsSilent`). In all other cases, that is after a failed
  pre-script, a failed first start or a failing one-shot, a required service that is marked failed has set the
  exit code (`GivingUp.RequiredGivesUp`). Read off the file, and over all runs without signals, the condition is
  exact (`SilentFailures.PromiseExactly`): with neither timeouts nor operator restarts of required services, the
  promise is kept if and only if no required service has a restart policy or depends on a service that is not
  required; with timeouts, if and only if none has a restart policy or a dependency; with operator restarts, if
  and only if no service is required.
  The second half holds if and only if no service is required: one that fails while the shutdown is on still
  sets the exit code (`SignalExit.SignalPromiseExactly`).
* `README.md:326` says that dependents of a one-shot wait until it exits successfully. A one-shot that the
  operator restarts is marked ready at once (`Limits.RestartedOneshotIsReady`). Before a shutdown a
  one-shot is ready exactly when its first run exited cleanly by itself or was cut short by that request
  (`Outcomes.OneshotReadyExactly`).
* The operator is told that a restart was initiated whenever the request is accepted. A request that comes
  before `finishService` reads the intent arms a restart, and only a shutdown can then keep it from being
  tried (`Succession.OperatorRestartHappens`). One that comes later is never read
  (`Lifecycle.LateRequestIsUnread`, `Limits.LateRequestIsLost`); whether a restart follows is then up to the
  restart policy alone (`Succession.SuccessorExactly`).
* `hasCycles` leaves its stack mark set for an unknown name. For any graph it returns true exactly when a
  cycle can be reached or the same unknown name is met twice (`Validation.SearchFrom`), which on the
  graphs it is called with, where all references are known, is exactly a cycle.

## Model

| member | source | states |
|---|---|---|
| Validation.Search.HasCycles | cmd/go-overlay/validation.go:471-492 | The recursive search over the two shared maps ends; a positive answer is a reachable cycle or an unknown name met twice; a negative one leaves every finished subtree ranked and the caller's stack marks as they were |
| Validation.SearchFrom | cmd/go-overlay/validation.go:424-424 | With fresh maps, on any graph, the answer is true if and only if a cycle is reachable from the root or two reachable entries name the same unknown service; on a graph whose references are all known, if and only if a cycle is reachable |
| Validation.SearchAll | cmd/go-overlay/validation.go:423-429 | The searches from all enabled services find nothing if and only if the graph has a topological rank, in whatever order the map is iterated |
| Validation.RefsOkCloses | cmd/go-overlay/validation.go:400-421 | The reference checks that run first make the graph of enabled services closed, which the search relies on |
| Validation.ValidateDependencyRefs | cmd/go-overlay/validation.go:432-442 | No error if and only if all dependencies exist and are enabled; an error names a dependency with that defect |
| Validation.ValidateWaitAfterRefs | cmd/go-overlay/validation.go:444-462 | No error if and only if every per-dependency wait names a declared dependency; an error names one that does not |
| Validation.ValidateDependencies | cmd/go-overlay/validation.go:391-430 | Accepts if and only if for every enabled service each dependency is the name of a service whose last entry in the file is not switched off, each per-dependency wait names a dependency, and the enabled graph is acyclic; every error describes such a defect that is there |
| Validation.MapsMean | cmd/go-overlay/validation.go:391-398 | For every list, repeated names included: the first map has exactly the names in the file, and the second says of each whether its last entry is enabled |
| Validation.EnabledServicesMean | cmd/go-overlay/validation.go:415-421 | The graph that is searched holds, for each name, exactly the last enabled service of that name |
| Timing.DefaultsAgree | cmd/go-overlay/validation.go:41-52 | After the defaults no timeout is zero, a second pass changes nothing, and the effective service and global timeouts are those that the fallbacks of stopping and shutdown would give without them |
| Timing.DocumentedDefaults | cmd/go-overlay/validation.go:41-52 | A timeout of zero becomes 7, 10, 30 or 300 seconds; any other value is kept |
| Validation.ConfigFile.CheckNames | cmd/go-overlay/validation.go:54-71 | A missing `enabled` becomes true, a given one stays, and nothing else changes; the errors are those of repeated names |
| Validation.DuplicateErrorsMean | cmd/go-overlay/validation.go:54-64 | The name errors are about exactly the names that occur more than once, one for each service beyond the first of its name |
| Validation.ConfigFile.Validate | cmd/go-overlay/validation.go:38-93 | Every service keeps all its fields and gets an explicit enabled flag: what the environment says about it, else what the file says, else true; the collected errors are those of all checks in order, for any outcome of the outside checks of each service; when there is none, the enabled services form a well-formed acyclic graph with unique names |
| Validation.ServiceAccepted | cmd/go-overlay/validation.go:95-115 | A service has no error if and only if no outside validator objects and, when it is enabled, every grace period is in range, the restart settings are legal and a one-shot is restarted by policy for no exit and no count |
| Validation.FieldErrorsMean | cmd/go-overlay/validation.go:75-80 | An error is collected if and only if the checks of the service at some position report it |
| Validation.ConfigFile.ApplyOverrides | cmd/go-overlay/env.go:101-136 | Every service gets an explicit enabled flag and keeps all other fields |
| Validation.Flags.LeaveOn | cmd/go-overlay/env.go:101-136 | The flag it gets: a disabling variable wins over an enabling one, that over the list of the only services to run, and that over the file |
| Validation.ValidateWaitAfter | cmd/go-overlay/validation.go:225-249 | The same errors in any iteration order of the map |
| Validation.WaitErrorsMean | cmd/go-overlay/validation.go:225-249 | One error, about this service, for each configured wait outside 0 to 300 |
| Validation.AcceptedWaits | cmd/go-overlay/validation.go:225-249 | There is no wait error if and only if every grace period the service can ask for is between 0 and 300 seconds |
| Validation.AcceptedRestartPolicy | cmd/go-overlay/validation.go:325-373 | No restart error if and only if the policy is known, delay and limit are not negative, and a one-shot is restarted by policy for no exit and no count |
| Validation.RestartErrorsMean | cmd/go-overlay/validation.go:325-373 | Which of the three restart fields are reported, by the values of the fields; none is reported twice |
| Validation.NoDuplicateErrors | cmd/go-overlay/validation.go:54-64 | There is no name error if and only if all names are different |
| Validation.AcceptedIsWellFormed | cmd/go-overlay/validation.go:38-93 | What the protocol assumes follows from acceptance: known references, a rank, unique names, valid limits, no restart policy on a one-shot |
| Invariant.StepKeepsInv | cmd/go-overlay/service.go:238-276 | Every step of every goroutine keeps the global invariant of attempts, registry, marks and shutdown |
| Invariant.RunKeepsInv | cmd/go-overlay/service.go:212-236 | The invariant holds in every state of every run |
| Invariant.RegisterKeepsInv | cmd/go-overlay/service.go:150-157 | `addActiveService` never finds its name taken |
| Invariant.RemoveKeepsInv | cmd/go-overlay/service.go:159-167 | `removeActiveService`, which goes by name, always removes and stops its own caller's incarnation |
| Lifecycle.SingleIncarnation | cmd/go-overlay/restart.go:89-126 | Per name at most one of a pending first start, a live incarnation or a pending restart, in every reachable state |
| Lifecycle.RegistryExact | cmd/go-overlay/service.go:150-167 | The WaitGroup counter equals the number of registered services, and an incarnation is registered exactly between add and remove |
| Lifecycle.MarksPermanentAndExclusive | cmd/go-overlay/deps.go:29-47 | Marks only grow, and no name is ever both ready and failed, so the select between them is never ambiguous |
| Lifecycle.DependencyOrder | cmd/go-overlay/service.go:244-276 | Everything that a started or ready service depends on, through any chain, is marked ready and not failed, also during restarts and shutdown |
| Lifecycle.FailedBlocksDependents | cmd/go-overlay/service.go:403-426 | No service that depends on a failed one through any chain is ever started or marked ready, in any continuation |
| Lifecycle.StateOnlyMovesForward | cmd/go-overlay/service.go:88-148 | States of an incarnation only move forward, the intent is written once, Stopping implies an intent, Failed is only seen between the error and the removal |
| Lifecycle.WinningRequest | cmd/go-overlay/service.go:136-148 | The first stop request accepted before `finishService` reads it is kept, is the one acted on, and is never reported as a failure |
| Lifecycle.LateRequestIsUnread | cmd/go-overlay/service.go:550-574 | A request accepted after that never reaches the exit handling, in any continuation |
| Lifecycle.ShutdownNeverWaitsOnCaller | cmd/go-overlay/main.go:173-229 | A goroutine of a service inside `shutdownOnce` has no incarnation of that service counted by the WaitGroup, the runner stays inside, and every counted incarnation has a step of its own that does not need `shutdownOnce`, on all call paths |
| Lifecycle.EnvironmentIsFree | cmd/go-overlay/service.go:410-425 | In every reachable state the free choices of the environment are there, and only there: both outcomes of a launch, an exit and a pre-script, each event of a wait whose channel is closed, timeouts, signals, health verdicts and operator requests; a shutdown waits exactly as long as services are registered |
| Budget.RestartBudget | cmd/go-overlay/restart.go:34-73 | With a limit M the counter stays within M although check and increment lock separately, and after k operator restarts there are at most (k+1)(M+1) starts |
| BudgetReached.RestartBudgetReached | cmd/go-overlay/restart.go:34-73 | In every configuration and for every service with a restart policy and a limit, some run makes exactly that many starts, for every k |
| Outcomes.OneshotDependenciesCompleted | cmd/go-overlay/service.go:254-273 | A process was started only if the first run of each one-shot dependency exited cleanly or was restarted by the operator, even though a shutdown may mark one-shots ready |
| Outcomes.OneshotReadyExactly | cmd/go-overlay/service.go:264-273 | Before a shutdown, a finished one-shot is ready if and only if its first run completed, and failed if and only if it did not |
| Outcomes.LongRunningReadyExactly | cmd/go-overlay/service.go:523-525 | A service that is no one-shot is ready if and only if some process of it has got past the marking in `startService`, in every reachable state; a start skipped by the shutdown marks nothing |
| Outcomes.RequiredFailureIsReported | cmd/go-overlay/restart.go:47-79 | An attempt of a required service that failed on its own, was unhealthy, or did not start as the first one, has a successor or has set the exit code to 1 |
| GivingUp.RequiredGivesUp | cmd/go-overlay/service.go:244-270 | A required service that was marked failed has set the exit code to 1 unless its dependency wait ended on a failed dependency, a timeout or a shutdown |
| ExitStatus.SafeKeepsPromise | cmd/go-overlay/main.go:173-176 | For each choice of allowing timeouts and operator restarts of required services: a configuration that is safe for it reports every failure of a required service in every such run without signals |
| SilentFailures.PromiseExactly | cmd/go-overlay/main.go:157-157 | For each such choice the safe configurations are exactly those that keep the promise in every run |
| SilentFailures.OptionalDependencyIsSilent | cmd/go-overlay/service.go:249-252 | For every configuration and every required service with a dependency that is not required, a run without signals, timeouts and operator restarts of required services that leaves it failed with exit code 0 |
| SilentFailures.OptionalDependencyExample | cmd/go-overlay/service.go:249-252 | The same for a configuration of two services |
| SilentFailures.TimedOutWaitIsSilent | cmd/go-overlay/service.go:417-419 | Every required service with a dependency can be marked failed by a timeout alone, with exit code 0 |
| SilentFailures.RestartPolicyIsSilent | cmd/go-overlay/restart.go:121-125 | For every configuration and every required service with a restart policy, such a run in which its restart does not start and the exit code is 0 |
| SilentFailures.OperatorRestartIsSilent | cmd/go-overlay/service.go:560-563 | For every configuration and every required service, a run with a single operator restart of it and nothing else out of the ordinary in which the restart does not start and the exit code is 0 |
| SignalExit.SignalPromiseExactly | cmd/go-overlay/main.go:160-171 | Every shutdown that the signal handler runs exits with 0 if and only if no service is required |
| SignalExit.RequiredOverridesSignal | cmd/go-overlay/main.go:164-170 | For every configuration and every required service, a run in which the signal handler runs the shutdown and exits with 1 |
| ExitHandling.RestartExactly | cmd/go-overlay/restart.go:34-80 | In every reachable state a finished attempt is followed by a restart after an operator request always, after a shutdown request never, and otherwise only if the policy is `always`, or `on-failure` and the exit failed or was forced by the health monitor; if it then is not, the service has a limit and its counter has reached it |
| ExitHandling.FailureForCause | cmd/go-overlay/restart.go:51-79 | An exit brings the supervisor down only for a required service, and only if it failed or was forced by the health monitor or the policy is `always`, and never while the policy still allows a restart |
| ExitHandling.ExitStatusKept | cmd/go-overlay/service.go:532-574 | The attempt whose process ended with a status returns with that status and with the stop intent written before, in every continuation |
| HealthVerdicts.MonitoredExactly | cmd/go-overlay/health.go:38-55 | From the call of `startHealthMonitor` on an incarnation has a monitor if and only if its service has a health check, and the unhealthy verdict can come while it watches |
| HealthVerdicts.UnhealthyIsStopped | cmd/go-overlay/health.go:150-159 | An unhealthy service with policy `always` or `on-failure` gets a stop request that wakes its `startService`; in every continuation in which the attempt has returned it ended on a request, that of the health policy if there was none before, and then it has a restart or has reached its limit |
| HealthVerdicts.UnhealthyIsReported | cmd/go-overlay/health.go:161-165 | For an unhealthy required service without such a policy, in every continuation the exit code is 1 or the very next step of the monitor sets it |
| Outcomes.FailureShutsDown | cmd/go-overlay/main.go:160-180 | Once the exit code is set or the signal handler has started, the shutdown context is cancelled or the step towards it is enabled |
| Succession.SuccessorExactly | cmd/go-overlay/restart.go:34-80 | A finished attempt is followed by a restart if and only if the intent read was the operator's or the restart decision, from the exit and the count it read, was to restart |
| Succession.OperatorRestartHappens | cmd/go-overlay/ipc.go:169-194 | An operator request accepted before the intent is read arms a restart, which only a shutdown can keep from being tried |
| Outcomes.ExitCodeOnlyByRequired | cmd/go-overlay/main.go:173-176 | The exit code is 0 or 1, and exactly the failure steps of required services set it |
| Outcomes.ExitCodeOverRuns | cmd/go-overlay/main.go:157-157 | After any run the exit code is 1 if and only if it was before or some step of the run was such a failure; it never returns to 0 |
| Limits.RestartStartErrorIsSilent | cmd/go-overlay/restart.go:121-125 | A run in which a required service with a restart policy is gone for good while the supervisor rests with exit code 0 |
| Limits.OperatorRestartIsSilent | cmd/go-overlay/restart.go:121-125 | The same for one without a restart policy and without dependencies, after one operator restart |
| Limits.RestartStartErrorIsUnread | cmd/go-overlay/restart.go:121-125 | The start error of a restart is read by no step of any continuation |
| Limits.LateRequestIsLost | cmd/go-overlay/service.go:550-555 | A run in which an accepted operator request is never answered |
| Limits.LateStartEscapes | cmd/go-overlay/service.go:473-515 | A run whose completed shutdown leaves a process behind, because its start had passed the shutdown check |
| Limits.RestartedOneshotIsReady | cmd/go-overlay/service.go:560-563 | A run in which a one-shot is ready although none of its processes exited cleanly |
| Startup.NoStartupDeadlock | cmd/go-overlay/service.go:298-318 | Before a shutdown, whoever waits for an unmarked dependency reaches through its dependencies an unmarked service that waits for no mark itself and can move without a timeout |
| Startup.StartupAgrees | cmd/go-overlay/service.go:238-276 | In every interleaving without timeouts, shutdown or operator restart of a one-shot's first run, marks never contradict the recursive classification, and a service whose goroutine has returned is marked |
| Startup.StartupConfluence | cmd/go-overlay/service.go:238-276 | Two such interleavings that have classified every service end with the same marks |
| Settling.StartupSettles | cmd/go-overlay/service.go:212-231 | In a world in which no required service fails by itself, from wherever such a run has got to some run without timeouts marks every service and leaves the shutdown state alone |
| Settling.CalmStepLowers | cmd/go-overlay/service.go:238-276 | Before a shutdown every calm step of anyone, that is any step without crashes of long-running services, operator requests and health steps, lowers a natural number |
| Settling.EveryCalmRunSettles | cmd/go-overlay/service.go:212-231 | So calm runs are bounded in length, and every one that cannot be continued calmly has marked every service |
| Settling.StartupProgresses | cmd/go-overlay/service.go:238-276 | Before a shutdown, whatever crashes, restarts, health results and operator requests go on beside: no step adds to what the unmarked services have left to do, and each of their own steps takes from it |
| Settling.EveryFairRunSettles | cmd/go-overlay/service.go:212-231 | So in every run that follows a world in which no required service fails by itself the unmarked services take a bounded number of steps, and until all are marked one of them can take such a step |
| Drain.AtMostOneLateStart | cmd/go-overlay/service.go:472-515 | After cancellation each service starts at most one more process, and only if its start had already passed the shutdown check |
| Drain.UnbegunStaysAway | cmd/go-overlay/service.go:238-242 | A service whose goroutine had not begun when the context was cancelled runs no pre-script, is never started and gets no mark, in any continuation |
| Drain.StepLowersMeasure | cmd/go-overlay/main.go:182-229 | After cancellation every step of anyone lowers a natural number |
| Drain.ShutdownTerminates | cmd/go-overlay/main.go:182-229 | So no run after cancellation is longer than that number |
| Drain.ShutdownDrains | cmd/go-overlay/service.go:532-574 | Until everything is drained some step other than a timeout is enabled |
| Drain.DrainsWithoutTimeout | cmd/go-overlay/main.go:214-216 | From anywhere after cancellation a run without timeouts drains all services and completes the shutdown |
| Drain.ShutdownLeavesNothingExactly | cmd/go-overlay/main.go:198-227 | A completed `runShutdown` that did not give up after a force kill leaves nothing registered in any continuation, if and only if no start was between its shutdown check and its registration when the context was cancelled |
| SharedState.KeyInjective | cmd/go-overlay/deps.go:33-33 | The keys of two different marks never collide, whatever the names |
| SharedState.ChannelStore.ChannelOf | cmd/go-overlay/deps.go:20-27 | The channel of a name exists once, is created open, and the set of closed ones does not change |
| SharedState.DependencyTracker.Mark | cmd/go-overlay/deps.go:29-47 | Marking adds exactly one name to one kind of mark; a repeated mark changes nothing, so no channel is closed twice |
| SharedState.DependencyTracker.IsClosed | cmd/go-overlay/deps.go:61-77 | The non-blocking check is true exactly for marked names |
| SharedState.ServiceProcess.RequestStop | cmd/go-overlay/service.go:136-144 | Accepted if and only if no intent was written; only then is the intent written and the context cancelled |
| SharedState.Supervision.AddActiveService | cmd/go-overlay/service.go:150-157 | The registry step of the protocol, on the mutable map and counter |
| SharedState.Supervision.RemoveActiveService | cmd/go-overlay/service.go:159-167 | The removal step; stops the registered incarnation and no other |
| SharedState.Supervision.RestartCount | cmd/go-overlay/restart.go:15-19 | A name without entry counts zero |
| SharedState.Supervision.IncrementRestartCount | cmd/go-overlay/restart.go:21-26 | One more for this name, all others unchanged |
| SharedState.Supervision.ResetRestartCount | cmd/go-overlay/restart.go:28-32 | The counter of this name is gone, all others unchanged |
| SharedState.Supervision.HandleServiceExit | cmd/go-overlay/restart.go:34-80 | If the policy asks for a restart and the limit is not reached: exactly one timer for the service, after the configured delay or else one second, and one more restart counted; a required service that may not restart any more, or fails without a restart policy for it, sets the exit code and asks for the shutdown; otherwise nothing; this is the decision the protocol takes, and no restart is ever immediate |
| SharedState.Supervision.FinishService | cmd/go-overlay/service.go:550-574 | Run without interruption: the incarnation leaves the registry stopped, its error is set only by an unrequested failing exit, and counters, timers, exit code and returned error follow the winning intent |
| SharedState.Supervision.HandleRestartService | cmd/go-overlay/ipc.go:169-194 | Only requests the stop of the named incarnation, reports whether it was accepted, and leaves registry and counter alone |
| Health.Monitor.HandleUnhealthyService | cmd/go-overlay/health.go:150-166 | With policy `always` or `on-failure` it is a stop request and touches nothing else; otherwise a required service sets the exit code and asks for the shutdown, and for any other nothing changes |
| Health.Monitor.Run | cmd/go-overlay/health.go:64-100 | Over any results the handler runs at most once, at the first tick that ends a run of failures of the configured length; the published counter is always the number of trailing failures |
| Health.FirstRunIsExact | cmd/go-overlay/health.go:87-98 | At that tick exactly the configured number of checks in a row have failed |
| Health.DefaultsMean | cmd/go-overlay/health.go:23-36 | A field that is zero gets 30 seconds, 3 failures, 5 and 10 seconds; any other value is kept |
| Health.LastHealthyMeans | cmd/go-overlay/health.go:75-83 | The recorded time is that of the last passed check, and there is none if no check passed |
| LogStream.BufferedReader.ReadSlice | cmd/go-overlay/service.go:650-653 | What a call delivers depends on the remaining bytes alone, not on how they were read, and nothing is dropped |
| LogStream.StreamServiceLogs | cmd/go-overlay/service.go:648-673 | The printed lines are a function of the bytes, for every partition into reads |
| LogStream.NothingIsLost | cmd/go-overlay/service.go:648-681 | Up to carriage returns and line feeds, the concatenated lines are the input |
| LogStream.LinesAreClean | cmd/go-overlay/service.go:675-681 | Every printed line is non-empty, fits the buffer, has no line feed and no trailing carriage return |
| LogStream.FittingLinesAreExact | cmd/go-overlay/service.go:648-681 | Without carriage returns and with lines that fit the buffer, not counting the line feed, exactly the non-empty lines are printed |
| LogStream.LogLines | cmd/go-overlay/service.go:648-673 | A line of up to 65536 bytes without line breaks is printed as it is, whatever follows its line feed; a longer one is cut after 65536 bytes |
| Timing.WaitClosedForm | cmd/go-overlay/service.go:307-317 | The sequential waits end at the maximum of the start plus all grace periods and, per dependency, its ready time plus the grace periods from it on |
| Timing.GraceHonoured | cmd/go-overlay/service.go:428-443 | No service goes on before each dependency has been ready for the wait that the file gives for it: the common one, or the one under its name |
| Timing.GraceMeans | cmd/go-overlay/config.go:66-74 | The grace period of a dependency is the configured number of seconds, and none when there is none or it is not positive |
| Timing.SelectDependency | cmd/go-overlay/service.go:410-425 | The select continues at its earliest event, never after a mark, the shutdown or the timeout, with any of those due then |
| Timing.WaitAfterDependency | cmd/go-overlay/service.go:428-443 | Success comes exactly `wait_after` seconds later, or at once when that is not positive; a shutdown after the end cannot prevent it, and on a tie either may win |
| Timing.WaitForDependency | cmd/go-overlay/service.go:403-426 | Success comes exactly `wait_after` seconds after the ready time or the entry, whichever is later, only for a dependency ready within the configured timeout; an undisturbed wait succeeds |
| Timing.WaitForServiceDependencies | cmd/go-overlay/service.go:298-318 | Success comes exactly at the closed-form time, with every dependency ready in time and for the wait the file gives; undisturbed waits succeed |
| Timing.StopBound | cmd/go-overlay/service.go:617-646 | A stopped process is gone within the service timeout plus its reaction to SIGKILL, and before the service timeout exactly when it reacts to SIGTERM that early |
| Timing.TimeoutsAreConfigured | cmd/go-overlay/main.go:231-237 | A positive timeout in the file is the one that is waited for, be it of a stop, of the shutdown or of a dependency |
| Timing.RunShutdown | cmd/go-overlay/main.go:182-229 | Returns within the global timeout plus five seconds; reports that all stopped only if they did within the global timeout, and gives up only if a process outlives the force kill; takes the branch without force kill whenever the timeouts fit |
| Timing.NoForceKill | cmd/go-overlay/main.go:214-227 | If for every process the service timeout plus its reaction to SIGKILL is below the global timeout, all are gone before it |

## Left out

- Process launch, PTYs, files, signals, process groups, users and the commands of health checks: free choices of the environment in the protocol.
- The zombie reaper, the IPC transport, the command line, logging and colours: input and output.
- TOML decoding and environment merging: the models start from a decoded list of services. The environment variables about enabled services are parameters, already read as booleans and as a list of names.
- The validators of required fields, names, commands, scripts, log files, users, health check fields and env files: they look at the file system or at one value, and their results are parameters. Validation error messages are reduced to field and service.
- Post-scripts and progress tickers: they touch no shared state. A service goroutine is taken as finished when its result has been handled.
- The return of the main goroutine: it ends a run. It waits for first incarnations only, so restarted ones may still be draining then.
- Wall-clock jitter: module Timing works in ideal time, and the protocol has no clock.
- The limit of the buffered reader on consecutive empty reads. A read error counts as the end of the stream, as it does in the program.
- The misuse checks inside `sync.WaitGroup`: the counter is a number, and a wait may end whenever it is zero.
- FinishService: describes a finish that nobody interrupts. What other goroutines do between its parts is covered by the steps of the protocol.
- `processService` and `startService` are steps over a state value, not methods, because their interleaving is the point. The objects they share are classes in `SharedState`.
- RunShutdown: works in ideal time and speaks of the processes registered when it starts. A start that had already passed its shutdown check adds one process, which Drain.AtMostOneLateStart bounds and Drain.ShutdownLeavesNothingExactly follows.
- OneshotDependenciesCompleted: speaks of the first run, because a later run, which only the operator can cause, is not waited for by anyone.
