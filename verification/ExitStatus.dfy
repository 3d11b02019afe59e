/**
 The documented promise about the exit status, "1 when a required service fails", and the
 configurations that keep it in every run.
 */
module ExitStatus {
  import opened Config
  import opened Supervisor
  import opened Invariant
  import opened Outcomes
  import opened GivingUp

  /** What may happen to required services in the runs that are looked at. */
  datatype Allowed = Allowed(timeouts: bool, operators: bool)

  const NOTHING := Allowed(false, false)

  /** No signal, and no dependency timeout or operator restart of a required service that is not allowed. */
  predicate Permitted(cfg: Services, allow: Allowed, s: State, step: Step) {
    match step
    case MainStep(n, ev) => ev.DepTimeout? ==> allow.timeouts || (n in cfg && !cfg[n].required)
    case OperatorRestart(i) =>
      allow.operators || (i < |s.attempts| && s.attempts[i].name in cfg && !cfg[s.attempts[i].name].required)
    case SignalStep => false
    case _ => true
  }

  predicate RunPermitted(cfg: Services, allow: Allowed, s: State, steps: seq<Step>)
    requires Runs(cfg, s, steps)
    decreases |steps|
  {
    steps == [] || (Permitted(cfg, allow, s, steps[0]) && RunPermitted(cfg, allow, Apply(cfg, s, steps[0]), steps[1..]))
  }

  /** The newest attempt of the service could not be restarted, or failed with no restart to follow. */
  ghost predicate LeftBroken(s: State, n: Name) {
    exists i: nat :: Last(s, i) && s.attempts[i].name == n && s.attempts[i].phase.Returned? &&
      match s.attempts[i].phase.outcome
      case Skipped => false
      case StartError => !s.attempts[i].first
      case Ended(e) => FailureExit(e)
  }

  /** A service has failed: it is marked so, or its newest attempt was left broken. */
  ghost predicate Broken(s: State, n: Name) { n in s.deps.failed || LeftBroken(s, n) }

  /** The exit code is 1, or a goroutine of a required service is at the instruction that sets it. */
  ghost predicate Announced(cfg: Services, s: State) {
    s.down.exitCode == 1 || exists m :: m in s.mains && s.mains[m].ErrTrigger? && m in cfg && cfg[m].required
  }

  ghost predicate PromiseKept(cfg: Services, s: State) {
    forall n :: n in cfg && cfg[n].required && Broken(s, n) ==> Announced(cfg, s)
  }

  /** Every permitted run keeps the promise. */
  ghost predicate Promise(cfg: Services, allow: Allowed) {
    forall steps :: Runs(cfg, Init(cfg), steps) && RunPermitted(cfg, allow, Init(cfg), steps) ==>
      PromiseKept(cfg, Exec(cfg, Init(cfg), steps))
  }

  predicate DependsOnRequired(cfg: Services, n: Name) {
    n in cfg && forall d :: d in cfg[n].dependsOn ==> d in cfg && cfg[d].required
  }

  /** What can be read off the file: required services have no restart policy and depend on required ones only. */
  predicate Safe(cfg: Services) {
    forall n :: n in cfg && cfg[n].required ==> !cfg[n].RestartsOnFailure() && DependsOnRequired(cfg, n)
  }

  /** With timeouts it may have no dependency, and with operator restarts there is no safe required service. */
  predicate SafeService(cfg: Services, allow: Allowed, n: Name) {
    && DependsOnRequired(cfg, n) && !cfg[n].RestartsOnFailure()
    && (allow.timeouts ==> cfg[n].dependsOn == []) && !allow.operators
  }

  predicate SafeFor(cfg: Services, allow: Allowed) {
    forall n :: n in cfg && cfg[n].required ==> SafeService(cfg, allow, n)
  }

  // ----- ordinary runs -----

  /** Attempts of required services are first attempts that no operator has touched. */
  ghost predicate Untroubled(cfg: Services, s: State) {
    forall i :: 0 <= i < |s.attempts| && s.attempts[i].name in cfg && cfg[s.attempts[i].name].required ==>
      s.attempts[i].first && !s.attempts[i].intent.OperatorIntent?
  }

  /** Without a signal it takes a failure to enter the shutdown. */
  predicate ShutdownMeansFailure(s: State) {
    s.down.signal.Listening? && (!s.down.once.Idle? ==> s.down.exitCode == 1)
  }

  ghost predicate OrdinaryInv(cfg: Services, s: State) {
    Inv(cfg, s) && ExitInv(cfg, s) && Untroubled(cfg, s) && ShutdownMeansFailure(s)
  }

  lemma InsideIsFailure(cfg: Services, s: State, who: Caller)
    requires Inv(cfg, s) && ExitInv(cfg, s) && s.down.signal.Listening? && InsideOnce(s, who)
    ensures s.down.exitCode == 1
  {
    match who {
      case MainCaller(n) => assert MainReported(s, n);
      case AttemptCaller(i) => assert FailureReported(cfg, s, i);
      case HealthCaller(i) => assert FailureReported(cfg, s, i);
      case SignalCaller =>
    }
  }

  lemma AttemptOnce(cfg: Services, s: State, i: nat, ev: AttemptEvent)
    requires AttemptEnabled(cfg, s, i, ev)
    ensures AttemptApply(cfg, s, i, ev).down.signal == s.down.signal
    ensures AttemptApply(cfg, s, i, ev).down.once == s.down.once
  {
  }

  lemma StepOnce(cfg: Services, s: State, step: Step)
    requires Enabled(cfg, s, step) && Permitted(cfg, NOTHING, s, step)
    ensures Apply(cfg, s, step).down.signal == s.down.signal
    ensures !Apply(cfg, s, step).down.once.Idle? ==>
              !s.down.once.Idle? || (step.OnceStep? && step.onceEvent.Enter? && InsideOnce(s, step.onceEvent.who))
  {
    match step {
      case AttemptStep(i, ev) => AttemptOnce(cfg, s, i, ev);
      case _ =>
    }
  }

  lemma StepKeepsMeaning(cfg: Services, s: State, step: Step)
    requires Inv(cfg, s) && ExitInv(cfg, s) && ShutdownMeansFailure(s)
    requires Enabled(cfg, s, step) && Permitted(cfg, NOTHING, s, step)
    ensures ShutdownMeansFailure(Apply(cfg, s, step))
  {
    hide Inv, ExitInv, Apply, InsideOnce;
    StepOnce(cfg, s, step);
    StepExitCode(cfg, s, step);
    if step.OnceStep? && step.onceEvent.Enter? && InsideOnce(s, step.onceEvent.who) {
      InsideIsFailure(cfg, s, step.onceEvent.who);
    }
  }

  lemma UntroubledFrom(cfg: Services, s: State, t: State, i: nat, b: Attempt, appended: seq<Attempt>)
    requires Untroubled(cfg, s) && i < |s.attempts| && t.attempts == s.attempts[i := b] + appended
    requires b.name in cfg && cfg[b.name].required ==> b.first && !b.intent.OperatorIntent?
    requires forall k :: 0 <= k < |appended| ==> appended[k].name in cfg && !cfg[appended[k].name].required
    ensures Untroubled(cfg, t)
  {
  }

  /** A required service without a restart policy, not restarted by the operator, is not restarted at all. */
  lemma NextUntroubled(svc: Service, cancelled: bool, count: int, a: Attempt, ev: AttemptEvent)
    requires AttemptOk(svc, cancelled, a) && !a.intent.OperatorIntent? && !svc.RestartsOnFailure()
    ensures !AttemptNext(svc, cancelled, count, a, ev).intent.OperatorIntent? && !Schedules(a.phase)
  {
  }

  lemma NextName(svc: Service, cancelled: bool, count: int, a: Attempt, ev: AttemptEvent)
    ensures var b := AttemptNext(svc, cancelled, count, a, ev); b.name == a.name && b.first == a.first
  {
  }

  lemma InvAttempt(cfg: Services, s: State, i: nat)
    requires Inv(cfg, s) && i < |s.attempts|
    ensures s.attempts[i].name in cfg && AttemptOk(cfg[s.attempts[i].name], s.down.cancelled, s.attempts[i])
  {
  }

  lemma AttemptKeepsUntroubled(cfg: Services, s: State, t: State, i: nat, ev: AttemptEvent)
    requires Safe(cfg) && Inv(cfg, s) && Untroubled(cfg, s)
    requires AttemptEnabled(cfg, s, i, ev) && t == AttemptApply(cfg, s, i, ev)
    ensures Untroubled(cfg, t)
  {
    hide Inv;
    var a := s.attempts[i];
    var svc, count := cfg[a.name], s.restarts.Of(a.name);
    InvAttempt(cfg, s, i);
    AttemptEffect(cfg, s, i, ev);
    NextName(svc, s.down.cancelled, count, a, ev);
    if svc.required {
      NextUntroubled(svc, s.down.cancelled, count, a, ev);
    }
    UntroubledFrom(cfg, s, t, i, AttemptNext(svc, s.down.cancelled, count, a, ev),
                   if Schedules(a.phase) then [NewAttempt(a.name, false)] else []);
  }

  lemma MainKeepsUntroubled(cfg: Services, s: State, t: State, n: Name, ev: MainEvent)
    requires Untroubled(cfg, s) && MainEnabled(cfg, s, n, ev) && t == MainApply(cfg, s, n, ev)
    ensures Untroubled(cfg, t)
  {
  }

  lemma StepKeepsUntroubled(cfg: Services, s: State, t: State, step: Step)
    requires Safe(cfg) && Inv(cfg, s) && Untroubled(cfg, s)
    requires Enabled(cfg, s, step) && Permitted(cfg, NOTHING, s, step) && t == Apply(cfg, s, step)
    ensures Untroubled(cfg, t)
  {
    hide Inv, Safe;
    match step {
      case AttemptStep(i, ev) => AttemptKeepsUntroubled(cfg, s, t, i, ev);
      case MainStep(n, ev) => MainKeepsUntroubled(cfg, s, t, n, ev);
      case HealthStep(i, _) => UntroubledFrom(cfg, s, t, i, t.attempts[i], []);
      case OperatorRestart(i) => UntroubledFrom(cfg, s, t, i, t.attempts[i], []);
      case SignalStep =>
      case OnceStep(_) =>
    }
  }

  lemma {:induction false} RunKeepsOrdinary(cfg: Services, s: State, steps: seq<Step>)
    requires Safe(cfg) && OrdinaryInv(cfg, s) && Runs(cfg, s, steps) && RunPermitted(cfg, NOTHING, s, steps)
    ensures OrdinaryInv(cfg, Exec(cfg, s, steps))
    ensures forall n :: n in cfg && cfg[n].required ==> !TimedOut(steps, n)
    decreases |steps|
  {
    hide Inv, ExitInv, Safe, Untroubled, ShutdownMeansFailure;
    if steps != [] {
      var t := Apply(cfg, s, steps[0]);
      StepKeepsInv(cfg, s, steps[0]);
      StepKeepsExit(cfg, s, t, steps[0]);
      StepKeepsUntroubled(cfg, s, t, steps[0]);
      StepKeepsMeaning(cfg, s, steps[0]);
      RunKeepsOrdinary(cfg, t, steps[1..]);
      forall n | n in cfg && cfg[n].required ensures !TimedOut(steps, n) {
        assert !TimedOut(steps[1..], n);
        assert steps == [steps[0]] + steps[1..];
      }
    }
  }

  // ----- safe configurations keep the promise -----

  /** What an ordinary run of a safe configuration has established. */
  ghost predicate SafeEnd(cfg: Services, s: State, steps: seq<Step>) {
    && Safe(cfg) && OrdinaryInv(cfg, s) && ReasonsKnown(cfg, s, steps)
    && (forall n :: n in cfg && cfg[n].required ==> !TimedOut(steps, n))
  }

  lemma {:induction false} FailedIsReported(cfg: Services, rank: map<Name, nat>, s: State, steps: seq<Step>, n: Name)
    requires SafeEnd(cfg, s, steps) && Ranked(cfg, rank) && n in cfg && cfg[n].required && n in s.deps.failed
    ensures Announced(cfg, s)
    decreases rank[n]
  {
    FailedMain(cfg, s, steps, n);
    if s.mains[n].Finished? && s.down.exitCode != 1 {
      var d :| d in cfg[n].dependsOn && d in s.deps.failed;
      FailedIsReported(cfg, rank, s, steps, d);
    }
  }

  lemma FailedMain(cfg: Services, s: State, steps: seq<Step>, n: Name)
    requires SafeEnd(cfg, s, steps) && n in cfg && cfg[n].required && n in s.deps.failed
    ensures n in s.mains && (s.mains[n].Finished? || Announced(cfg, s))
    ensures s.mains[n].Finished? ==> s.down.exitCode == 1 || DependencyFailed(cfg, s, n)
  {
    assert MainOk(cfg, s, n) && MainReported(s, n) && ReasonKnown(cfg, s, steps, n) && !TimedOut(steps, n);
  }

  lemma BrokenIsReported(cfg: Services, s: State, steps: seq<Step>, n: Name)
    requires SafeEnd(cfg, s, steps) && n in cfg && cfg[n].required && LeftBroken(s, n)
    ensures Announced(cfg, s)
  {
    var i: nat :| Last(s, i) && s.attempts[i].name == n && s.attempts[i].phase.Returned? &&
      match s.attempts[i].phase.outcome
      case Skipped => false
      case StartError => !s.attempts[i].first
      case Ended(e) => FailureExit(e);
    assert FailureReported(cfg, s, i);
  }

  lemma SafeRunKeeps(cfg: Services, steps: seq<Step>)
    requires WellFormed(cfg) && Safe(cfg) && Runs(cfg, Init(cfg), steps) && RunPermitted(cfg, NOTHING, Init(cfg), steps)
    ensures PromiseKept(cfg, Exec(cfg, Init(cfg), steps))
  {
    var rank :| Ranked(cfg, rank);
    var t := Exec(cfg, Init(cfg), steps);
    SafeRun(cfg, steps);
    forall n | n in cfg && cfg[n].required && Broken(t, n) ensures Announced(cfg, t) {
      if n in t.deps.failed {
        FailedIsReported(cfg, rank, t, steps, n);
      } else {
        BrokenIsReported(cfg, t, steps, n);
      }
    }
  }

  /** In a configuration that is safe for them, the allowed events cannot happen to required services. */
  lemma {:induction false} NothingHappens(cfg: Services, allow: Allowed, s: State, steps: seq<Step>)
    requires SafeFor(cfg, allow) && Inv(cfg, s) && Runs(cfg, s, steps) && RunPermitted(cfg, allow, s, steps)
    ensures RunPermitted(cfg, NOTHING, s, steps)
    decreases |steps|
  {
    hide Inv;
    if steps != [] {
      StepKeepsInv(cfg, s, steps[0]);
      NothingHappensNow(cfg, allow, s, steps[0]);
      NothingHappens(cfg, allow, Apply(cfg, s, steps[0]), steps[1..]);
    }
  }

  lemma NothingHappensNow(cfg: Services, allow: Allowed, s: State, step: Step)
    requires SafeFor(cfg, allow) && Enabled(cfg, s, step) && Permitted(cfg, allow, s, step)
    ensures Permitted(cfg, NOTHING, s, step)
  {
  }

  /** Safe configurations keep the promise in all permitted runs. */
  lemma SafeKeepsPromise(cfg: Services, allow: Allowed)
    requires WellFormed(cfg) && SafeFor(cfg, allow)
    ensures Promise(cfg, allow)
  {
    forall steps | Runs(cfg, Init(cfg), steps) && RunPermitted(cfg, allow, Init(cfg), steps)
      ensures PromiseKept(cfg, Exec(cfg, Init(cfg), steps))
    {
      InitInv(cfg);
      NothingHappens(cfg, allow, Init(cfg), steps);
      SafeRunKeeps(cfg, steps);
    }
  }

  lemma InitOrdinary(cfg: Services)
    ensures OrdinaryInv(cfg, Init(cfg))
  {
    InitInv(cfg);
    InitReasons(cfg);
  }

  lemma SafeRun(cfg: Services, steps: seq<Step>)
    requires WellFormed(cfg) && Safe(cfg) && Runs(cfg, Init(cfg), steps) && RunPermitted(cfg, NOTHING, Init(cfg), steps)
    ensures SafeEnd(cfg, Exec(cfg, Init(cfg), steps), steps)
  {
    hide Inv, ExitInv, Safe, Untroubled, ShutdownMeansFailure, ReasonsKnown;
    InitOrdinary(cfg);
    InitReasons(cfg);
    RunKeepsOrdinary(cfg, Init(cfg), steps);
    RunKeepsReasons(cfg, Init(cfg), steps, []);
    assert [] + steps == steps;
  }
}
