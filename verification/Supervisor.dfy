/**
 The supervisor as a step machine. Every lock-protected update, compare-and-swap, channel close
 and select choice of the program is one step; a run is any sequence of enabled steps.
 */
module Supervisor {
  import opened Config

  datatype Intent = NoIntent | ShutdownIntent | PolicyIntent | OperatorIntent

  datatype ServiceState = Pending | Starting | Running | Stopping | Stopped | Failed

  /** How a process ended: the stop intent `finishService` read, and whether `Wait` gave an error. */
  datatype Exit = Exit(intent: Intent, failed: bool)

  /** Why `startService` returned. Only `StartError` and an unrequested failed exit return an error. */
  datatype Outcome = Skipped | StartError | Ended(exit: Exit) {
    predicate IsError() {
      StartError? || (Ended? && exit.intent.NoIntent? && exit.failed)
    }
  }

  /** `startService` before it has a process; `Timer` and `Fired` are the restart timer in front of it. */
  datatype PrePhase =
    | Timer   // restart timer armed
    | Fired   // timer fired, no shutdown seen
    | Check   // entry of startService
    | Launch  // shutdown check passed, process not started

  /** `startService` while its `ServiceProcess` is in `activeServices`. */
  datatype LivePhase =
    | Announce              // registered as Starting
    | Monitor               // Running, health monitor not started
    | Publish               // about to mark the service ready
    | Select                // waiting for the exit or for the service context
    | Request               // context done, about to request a shutdown stop
    | Stop                  // about to enter Stopping and signal the process
    | Reap                  // Stopping, waiting for the exit
    | Finish(failed: bool)  // finishService entered
    | Record                // unrequested failed exit, about to set the error
    | Remove(exit: Exit)    // intent read, about to leave activeServices

  /** `finishService` and `handleServiceExit` after `removeActiveService`. */
  datatype PostPhase = Reset | Decide | Count | Schedule | Trigger | InOnce

  datatype Phase =
    | Pre(pre: PrePhase)
    | Register              // process started, not yet in activeServices
    | Live(live: LivePhase)
    | Post(post: PostPhase, exit: Exit)
    | Returned(outcome: Outcome)
  {
    /** A process was started. */
    predicate Launched() { Register? || Live? || Post? || (Returned? && outcome.Ended?) }
  }

  datatype Health = NoMonitor | Watching | Alarm | InShutdown | Over

  /** One `startService` call together with the `ServiceProcess` it creates. */
  datatype Attempt = Attempt(
    name: Name,
    first: bool,
    phase: Phase,
    intent: Intent,
    state: ServiceState,
    health: Health)

  /** `processService` before it calls `startService`. */
  datatype BeforeStart =
    | Fresh
    | PreScript
    | PreTrigger        // required pre-script failed, about to set the exit code
    | PreOnce           // inside gracefulShutdown
    | Waiting(dep: nat)
    | Grace(dep: nat)   // dependency ready, wait_after running
    | Failing           // about to mark the service failed

  /** Where the `processService` goroutine of a service stands. */
  datatype Main =
    | Before(stage: BeforeStart)
    | Awaiting(attempt: nat)
    | ErrTrigger        // required service did not start, about to set the exit code
    | ErrOnce           // inside gracefulShutdown
    | Finished

  datatype Caller = MainCaller(name: Name) | AttemptCaller(id: nat) | HealthCaller(id: nat) | SignalCaller

  /** `shutdownOnce` and the progress of the one `runShutdown` call under it. */
  datatype Once =
    | Idle
    | Begin(who: Caller)
    | Closing(who: Caller)
    | Draining(who: Caller)
    | Forced(who: Caller)
    | Done

  datatype Signal = Listening | Handling | Exiting

  /** `dependencyTracker`: the names whose ready, respectively failed, channel is closed. */
  datatype Tracker = Tracker(ready: set<Name>, failed: set<Name>) {
    function MarkReady(n: Name): Tracker { Tracker(ready + {n}, failed) }
    function MarkFailed(n: Name): Tracker { Tracker(ready, failed + {n}) }
  }

  /** `activeServices`, by the id of the registered attempt, and the `shutdownWg` counter. */
  datatype Registry = Registry(active: map<Name, nat>, wg: int) {
    function Add(n: Name, id: nat): Registry { Registry(active[n := id], wg + 1) }
    function Drop(n: Name): Registry { if n in active then Registry(active - {n}, wg - 1) else this }
  }

  /** `restartCounts`, and how many operator restarts were acted on so far (history only). */
  datatype Restarts = Restarts(counts: map<Name, int>, honoured: map<Name, nat>) {
    function Of(n: Name): int { if n in counts then counts[n] else 0 }
    function Honoured(n: Name): nat { if n in honoured then honoured[n] else 0 }
    function Increment(n: Name): Restarts { this.(counts := counts[n := Of(n) + 1]) }
    function Reset(n: Name): Restarts { Restarts(counts - {n}, honoured[n := Honoured(n) + 1]) }
  }

  /** Shutdown context, `shutdownOnce`, the waiter on `shutdownWg`, exit code and signal handler. */
  datatype Shutdown = Shutdown(cancelled: bool, once: Once, drained: bool, exitCode: int, signal: Signal) {
    /** `exitCode.CompareAndSwap(0, 1)` */
    function Fail(): Shutdown { this.(exitCode := if exitCode == 0 then 1 else exitCode) }
  }

  datatype State = State(
    mains: map<Name, Main>,
    attempts: seq<Attempt>,
    deps: Tracker,
    reg: Registry,
    restarts: Restarts,
    down: Shutdown)

  datatype MainEvent = Advance | PreDone(ok: bool) | DepReady | DepFailed | DepTimeout | SeesShutdown

  datatype AttemptEvent = Next | Started(ok: bool) | ContextDone | ProcessExit(failed: bool)

  datatype HealthEvent = Unhealthy | Cancelled | Proceed

  datatype OnceEvent = Enter(who: Caller) | Proceeds | WaitGroupZero | GlobalTimeout | ForceTimeout

  datatype Step =
    | MainStep(name: Name, mainEvent: MainEvent)
    | AttemptStep(id: nat, attemptEvent: AttemptEvent)
    | HealthStep(id: nat, healthEvent: HealthEvent)
    | OperatorRestart(id: nat)
    | SignalStep
    | OnceStep(onceEvent: OnceEvent)

  // ----- shared-object operations, also the specifications of the methods in SharedState -----

  /** `CompareAndSwap` of the stop intent: written once, the first writer wins. */
  function CasIntent(intent: Intent, wanted: Intent): (r: Intent) {
    if intent.NoIntent? then wanted else intent
  }

  datatype ExitAction = GiveUp | Restart | FailSupervisor

  /** The decision of `handleServiceExit`, from the restart count it read. */
  function ExitDecision(svc: Service, count: int, exitErr: bool): ExitAction {
    var shouldRestart := svc.restart.Always? || (svc.restart.OnFailure? && exitErr);
    if shouldRestart && svc.maxRestarts > 0 && count >= svc.maxRestarts then
      if svc.required then FailSupervisor else GiveUp
    else if shouldRestart then Restart
    else if svc.required && exitErr then FailSupervisor
    else GiveUp
  }

  /** `finishService` reports an unhealthy stop as an error of its own, whatever the exit status. */
  function ExitErr(exit: Exit): bool { exit.intent.PolicyIntent? || exit.failed }

  // ----- initial state -----

  function Init(cfg: Services): State {
    State(map n | n in cfg :: Before(Fresh), [], Tracker({}, {}), Registry(map[], 0), Restarts(map[], map[]),
          Shutdown(false, Idle, false, 0, Listening))
  }

  function NewAttempt(n: Name, first: bool): Attempt {
    Attempt(n, first, Pre(if first then Check else Timer), NoIntent, Pending, NoMonitor)
  }

  // ----- processService -----

  predicate BeforeEnabled(svc: Service, s: State, stage: BeforeStart, ev: MainEvent) {
    match stage
    case PreScript => ev.PreDone? && (svc.preScript == "" ==> ev.ok)
    case PreOnce => ev.Advance? && s.down.once.Done?
    case Waiting(i) =>
      if i < |svc.dependsOn| then
        || (ev.DepReady? && svc.dependsOn[i] in s.deps.ready)
        || (ev.DepFailed? && svc.dependsOn[i] in s.deps.failed)
        || ev.DepTimeout?
        || (ev.SeesShutdown? && s.down.cancelled)
      else ev.Advance?
    case Grace(i) =>
      || ev.Advance?
      || (ev.SeesShutdown? && s.down.cancelled && i < |svc.dependsOn| && svc.WaitFor(svc.dependsOn[i]) > 0)
    case _ => ev.Advance?
  }

  predicate MainEnabled(cfg: Services, s: State, n: Name, ev: MainEvent) {
    n in cfg && n in s.mains &&
    match s.mains[n]
    case Before(stage) => BeforeEnabled(cfg[n], s, stage, ev)
    case Awaiting(i) => ev.Advance? && i < |s.attempts| && s.attempts[i].phase.Returned?
    case ErrTrigger => ev.Advance?
    case ErrOnce => ev.Advance? && s.down.once.Done?
    case Finished => false
  }

  /** The next place of `processService`, for the stages that only move on. */
  function BeforeNext(svc: Service, cancelled: bool, stage: BeforeStart, ev: MainEvent): Main {
    match stage
    case Fresh => if cancelled then Finished else Before(PreScript)
    case PreScript =>
      Before(if ev.PreDone? && ev.ok then Waiting(0) else if svc.required then PreTrigger else Failing)
    case PreTrigger => Before(PreOnce)
    case PreOnce => Before(Failing)
    case Waiting(i) => Before(if ev.DepReady? then Grace(i) else Failing)
    case Grace(i) => Before(if ev.Advance? then Waiting(i + 1) else Failing)
    case Failing => Finished
  }

  function BeforeApply(svc: Service, s: State, n: Name, stage: BeforeStart, ev: MainEvent): State {
    var launch := stage.Waiting? && stage.dep >= |svc.dependsOn|;
    s.(mains := s.mains[n := if launch then Awaiting(|s.attempts|) else BeforeNext(svc, s.down.cancelled, stage, ev)],
       attempts := if launch then s.attempts + [NewAttempt(n, true)] else s.attempts,
       deps := if stage.Failing? then s.deps.MarkFailed(n) else s.deps,
       down := if stage.PreTrigger? then s.down.Fail() else s.down)
  }

  /** `processService` receives the result of its `startService` call. */
  function SettleApply(svc: Service, s: State, n: Name, outcome: Outcome): State {
    s.(mains := s.mains[n := if outcome.StartError? && svc.required then ErrTrigger else Finished],
       deps := if outcome.StartError? || (svc.oneshot && outcome.IsError()) then s.deps.MarkFailed(n)
               else if svc.oneshot then s.deps.MarkReady(n)
               else s.deps)
  }

  function MainApply(cfg: Services, s: State, n: Name, ev: MainEvent): State
    requires MainEnabled(cfg, s, n, ev)
  {
    match s.mains[n]
    case Before(stage) => BeforeApply(cfg[n], s, n, stage, ev)
    case Awaiting(i) => SettleApply(cfg[n], s, n, s.attempts[i].phase.outcome)
    case ErrTrigger => s.(mains := s.mains[n := ErrOnce], down := s.down.Fail())
    case ErrOnce => s.(mains := s.mains[n := Finished])
    case Finished => s
  }

  // ----- startService, finishService, handleServiceExit, restart timers -----

  predicate AttemptEnabled(cfg: Services, s: State, i: nat, ev: AttemptEvent) {
    i < |s.attempts| && s.attempts[i].name in cfg &&
    var a := s.attempts[i];
    match a.phase
    case Pre(p) => if p.Launch? then ev.Started? else ev.Next?
    case Register => ev.Next?
    case Live(p) =>
      if p.Select? then ev.ProcessExit? || (ev.ContextDone? && (s.down.cancelled || !a.intent.NoIntent?))
      else if p.Reap? then ev.ProcessExit?
      else ev.Next?
    case Post(p, _) => ev.Next? && (p.InOnce? ==> s.down.once.Done?)
    case Returned(_) => false
  }

  function PreNext(cancelled: bool, p: PrePhase, ev: AttemptEvent): Phase {
    match p
    case Timer => if cancelled then Returned(Skipped) else Pre(Fired)
    case Fired => if cancelled then Returned(Skipped) else Pre(Check)
    case Check => if cancelled then Returned(Skipped) else Pre(Launch)
    case Launch => if ev.Started? && ev.ok then Register else Returned(StartError)
  }

  function LiveNext(svc: Service, a: Attempt, p: LivePhase, ev: AttemptEvent): Attempt {
    match p
    case Announce => a.(phase := Live(Monitor), state := Running)
    case Monitor => a.(phase := Live(Publish), health := if svc.healthCheck.Some? then Watching else NoMonitor)
    case Publish => a.(phase := Live(Select))
    case Select => a.(phase := Live(if ev.ProcessExit? then Finish(ev.failed) else Request))
    case Request => a.(phase := Live(Stop), intent := CasIntent(a.intent, ShutdownIntent))
    case Stop => a.(phase := Live(Reap), state := Stopping)
    case Reap => a.(phase := Live(Finish(ev.ProcessExit? && ev.failed)))
    case Finish(failed) =>
      a.(phase := Live(if a.intent.NoIntent? && failed then Record else Remove(Exit(a.intent, failed))))
    case Record => a.(phase := Live(Remove(Exit(NoIntent, true))), state := Failed)
    case Remove(e) =>
      a.(phase := match e.intent
                  case ShutdownIntent => Returned(Ended(e))
                  case OperatorIntent => Post(Reset, e)
                  case _ => Post(Decide, e))
  }

  function PostNext(svc: Service, count: int, p: PostPhase, e: Exit): Phase {
    match p
    case Reset => Post(Schedule, e)
    case Decide =>
      (match ExitDecision(svc, count, ExitErr(e))
       case Restart => Post(Count, e)
       case FailSupervisor => Post(Trigger, e)
       case GiveUp => Returned(Ended(e)))
    case Count => Post(Schedule, e)
    case Schedule => Returned(Ended(e))
    case Trigger => Post(InOnce, e)
    case InOnce => Returned(Ended(e))
  }

  /** `SetState(Stopped)` on whoever is registered under the name. */
  function StopRegistered(attempts: seq<Attempt>, reg: Registry, n: Name): seq<Attempt> {
    if n in reg.active && reg.active[n] < |attempts| then
      attempts[reg.active[n] := attempts[reg.active[n]].(state := Stopped)]
    else attempts
  }

  function LiveApply(svc: Service, s: State, i: nat, p: LivePhase, ev: AttemptEvent): State
    requires i < |s.attempts|
  {
    var a := s.attempts[i];
    var moved := s.attempts[i := LiveNext(svc, a, p, ev)];
    s.(attempts := if p.Remove? then StopRegistered(moved, s.reg, a.name) else moved,
       deps := if p.Publish? && !svc.oneshot then s.deps.MarkReady(a.name) else s.deps,
       reg := if p.Remove? then s.reg.Drop(a.name) else s.reg)
  }

  function PostApply(svc: Service, s: State, i: nat, p: PostPhase, e: Exit): State
    requires i < |s.attempts|
  {
    var a := s.attempts[i];
    var n := a.name;
    var moved := s.attempts[i := a.(phase := PostNext(svc, s.restarts.Of(n), p, e))];
    s.(attempts := if p.Schedule? then moved + [NewAttempt(n, false)] else moved,
       restarts := if p.Reset? then s.restarts.Reset(n) else if p.Count? then s.restarts.Increment(n) else s.restarts,
       down := if p.Trigger? then s.down.Fail() else s.down)
  }

  function AttemptApply(cfg: Services, s: State, i: nat, ev: AttemptEvent): State
    requires AttemptEnabled(cfg, s, i, ev)
  {
    var a := s.attempts[i];
    match a.phase
    case Pre(p) => Put(s, i, a.(phase := PreNext(s.down.cancelled, p, ev)))
    case Register => s.(attempts := s.attempts[i := a.(phase := Live(Announce), state := Starting)],
                        reg := s.reg.Add(a.name, i))
    case Live(p) => LiveApply(cfg[a.name], s, i, p, ev)
    case Post(p, e) => PostApply(cfg[a.name], s, i, p, e)
    case Returned(_) => s
  }

  function Put(s: State, i: nat, a: Attempt): State
    requires i < |s.attempts|
  {
    s.(attempts := s.attempts[i := a])
  }

  // ----- health monitor, operator, signal -----

  /** The health context is cancelled once the process has exited. */
  predicate Exited(p: Phase) {
    p.Post? || p.Returned? || (p.Live? && (p.live.Finish? || p.live.Record? || p.live.Remove?))
  }

  predicate HealthEnabled(cfg: Services, s: State, i: nat, ev: HealthEvent) {
    i < |s.attempts| && s.attempts[i].name in cfg &&
    match s.attempts[i].health
    case NoMonitor => false
    case Watching => ev.Unhealthy? || (ev.Cancelled? && (s.down.cancelled || Exited(s.attempts[i].phase)))
    case Alarm => ev.Proceed?
    case InShutdown => ev.Proceed? && s.down.once.Done?
    case Over => false
  }

  function HealthNext(svc: Service, a: Attempt, ev: HealthEvent): Attempt {
    match a.health
    case Watching =>
      if ev.Cancelled? then a.(health := Over)
      else if svc.RestartsOnFailure() then a.(health := Over, intent := CasIntent(a.intent, PolicyIntent))
      else a.(health := if svc.required then Alarm else Over)
    case Alarm => a.(health := InShutdown)
    case InShutdown => a.(health := Over)
    case _ => a
  }

  function HealthApply(cfg: Services, s: State, i: nat, ev: HealthEvent): State
    requires HealthEnabled(cfg, s, i, ev)
  {
    var a := s.attempts[i];
    s.(attempts := s.attempts[i := HealthNext(cfg[a.name], a, ev)],
       down := if a.health.Alarm? then s.down.Fail() else s.down)
  }

  /** A handler that looked the incarnation up while it was registered may act on it at any later time. */
  predicate Known(p: Phase) { p.Launched() && !p.Register? }

  predicate OperatorEnabled(cfg: Services, s: State, i: nat) {
    i < |s.attempts| && s.attempts[i].name in cfg && Known(s.attempts[i].phase) && s.attempts[i].intent.NoIntent?
  }

  // ----- runShutdown under shutdownOnce -----

  /** The goroutine is inside `shutdownOnce.Do`: running `runShutdown` or blocked until it returns. */
  predicate InsideOnce(s: State, who: Caller) {
    match who
    case MainCaller(n) => n in s.mains && (s.mains[n] == Before(PreOnce) || s.mains[n].ErrOnce?)
    case AttemptCaller(i) => i < |s.attempts| && s.attempts[i].phase.Post? && s.attempts[i].phase.post.InOnce?
    case HealthCaller(i) => i < |s.attempts| && s.attempts[i].health.InShutdown?
    case SignalCaller => s.down.signal.Handling?
  }

  predicate OnceEnabled(s: State, ev: OnceEvent) {
    var once := s.down.once;
    match ev
    case Enter(who) => once.Idle? && InsideOnce(s, who)
    case Proceeds => once.Begin? || once.Closing? || ((once.Draining? || once.Forced?) && s.down.drained)
    case WaitGroupZero => (once.Draining? || once.Forced?) && !s.down.drained && s.reg.wg == 0
    case GlobalTimeout => once.Draining?
    case ForceTimeout => once.Forced?
  }

  function OnceNext(once: Once, empty: bool, ev: OnceEvent): Once {
    match ev
    case Enter(who) => Begin(who)
    case Proceeds =>
      (match once
       case Begin(who) => Closing(who)
       case Closing(who) => if empty then Done else Draining(who)
       case _ => Done)
    case WaitGroupZero => once
    case GlobalTimeout => if once.Draining? then Forced(once.who) else once
    case ForceTimeout => Done
  }

  function OnceApply(s: State, ev: OnceEvent): State {
    var d := s.down;
    s.(down := d.(cancelled := d.cancelled || (ev.Proceeds? && d.once.Begin?),
                  once := OnceNext(d.once, |s.reg.active| == 0, ev),
                  drained := d.drained || ev.WaitGroupZero?))
  }

  // ----- steps and runs -----

  predicate Enabled(cfg: Services, s: State, step: Step) {
    match step
    case MainStep(n, ev) => MainEnabled(cfg, s, n, ev)
    case AttemptStep(i, ev) => AttemptEnabled(cfg, s, i, ev)
    case HealthStep(i, ev) => HealthEnabled(cfg, s, i, ev)
    case OperatorRestart(i) => OperatorEnabled(cfg, s, i)
    case SignalStep => s.down.signal.Listening? || (s.down.signal.Handling? && s.down.once.Done?)
    case OnceStep(ev) => OnceEnabled(s, ev)
  }

  function Apply(cfg: Services, s: State, step: Step): State
    requires Enabled(cfg, s, step)
  {
    match step
    case MainStep(n, ev) => MainApply(cfg, s, n, ev)
    case AttemptStep(i, ev) => AttemptApply(cfg, s, i, ev)
    case HealthStep(i, ev) => HealthApply(cfg, s, i, ev)
    case OperatorRestart(i) => Put(s, i, s.attempts[i].(intent := CasIntent(s.attempts[i].intent, OperatorIntent)))
    case SignalStep => s.(down := s.down.(signal := if s.down.signal.Listening? then Handling else Exiting))
    case OnceStep(ev) => OnceApply(s, ev)
  }

  /** `steps` can be taken one after the other from `s`. */
  predicate Runs(cfg: Services, s: State, steps: seq<Step>)
    decreases |steps|
  {
    steps == [] || (Enabled(cfg, s, steps[0]) && Runs(cfg, Apply(cfg, s, steps[0]), steps[1..]))
  }

  /** The state after `steps`. */
  function Exec(cfg: Services, s: State, steps: seq<Step>): State
    requires Runs(cfg, s, steps)
    decreases |steps|
  {
    if steps == [] then s else Exec(cfg, Apply(cfg, s, steps[0]), steps[1..])
  }
}
