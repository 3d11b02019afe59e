/** Why a required service is marked failed, and when that reaches the exit code. */
module GivingUp {
  import opened Config
  import opened Supervisor
  import opened Invariant
  import opened Outcomes

  /** The step ends a dependency wait of `n` without success. */
  predicate EndsWait(step: Step, n: Name) {
    step.MainStep? && step.name == n
    && (step.mainEvent.DepFailed? || step.mainEvent.DepTimeout? || step.mainEvent.SeesShutdown?)
  }

  predicate WaitEnded(past: seq<Step>, n: Name) { exists step :: step in past && EndsWait(step, n) }

  predicate TimedOut(past: seq<Step>, n: Name) { MainStep(n, DepTimeout) in past }

  predicate DependencyFailed(cfg: Services, s: State, n: Name) {
    n in cfg && exists d :: d in cfg[n].dependsOn && d in s.deps.failed
  }

  /** `processService` is about to mark the service failed, or has done so and returned. */
  predicate GivesUp(s: State, n: Name) {
    n in s.mains && (s.mains[n] == Before(Failing) || (s.mains[n].Finished? && n in s.deps.failed))
  }

  /** Giving up has a reason: an unsuccessful wait, or a failure that a required service has reported. */
  predicate ReasonKnown(cfg: Services, s: State, past: seq<Step>, n: Name) {
    && (WaitEnded(past, n) ==>
          GivesUp(s, n) && (DependencyFailed(cfg, s, n) || s.down.cancelled || TimedOut(past, n)))
    && (n in cfg && cfg[n].required && GivesUp(s, n) && !WaitEnded(past, n) ==> s.down.exitCode == 1)
  }

  ghost predicate ReasonsKnown(cfg: Services, s: State, past: seq<Step>) {
    forall n :: n in cfg ==> ReasonKnown(cfg, s, past, n)
  }

  /** What a step does to the goroutines of other services. */
  ghost predicate LeavesAlone(s: State, t: State, n: Name) {
    && n in s.mains && n in t.mains && t.mains[n] == s.mains[n]
    && s.deps.failed <= t.deps.failed && (n in t.deps.failed ==> n in s.deps.failed)
    && (s.down.cancelled ==> t.down.cancelled)
  }

  /** A step that leaves `processService` of `n` where it is. */
  lemma ReasonStays(cfg: Services, s: State, t: State, past: seq<Step>, step: Step, n: Name)
    requires ReasonKnown(cfg, s, past, n) && !EndsWait(step, n)
    requires LeavesAlone(s, t, n) && (s.down.exitCode == 1 ==> t.down.exitCode == 1)
    ensures ReasonKnown(cfg, t, past + [step], n)
  {
    EndedAfter(past, step, n);
  }

  lemma EndedAfter(past: seq<Step>, step: Step, n: Name)
    ensures WaitEnded(past + [step], n) <==> WaitEnded(past, n) || EndsWait(step, n)
    ensures TimedOut(past, n) ==> TimedOut(past + [step], n)
  {
    if x :| x in past && EndsWait(x, n) {
      assert x in past + [step];
    }
    if EndsWait(step, n) {
      assert step in past + [step];
    }
  }

  lemma BeforeReason(cfg: Services, s: State, t: State, n: Name, stage: BeforeStart, ev: MainEvent, past: seq<Step>)
    requires ReasonKnown(cfg, s, past, n) && n in cfg && n in s.mains && s.mains[n] == Before(stage)
    requires BeforeEnabled(cfg[n], s, stage, ev) && t == BeforeApply(cfg[n], s, n, stage, ev)
    requires BeforeOk(cfg[n], s, n, stage) && MainReported(s, n)
    ensures ReasonKnown(cfg, t, past + [MainStep(n, ev)], n)
  {
    EndedAfter(past, MainStep(n, ev), n);
  }

  lemma SettleReason(cfg: Services, s: State, t: State, n: Name, i: nat, past: seq<Step>, ev: MainEvent)
    requires ReasonKnown(cfg, s, past, n) && n in cfg && n in s.mains && s.mains[n] == Awaiting(i) && i < |s.attempts|
    requires s.attempts[i].name == n && s.attempts[i].phase.Returned? && FailureReported(cfg, s, i)
    requires n !in s.deps.failed && ev.Advance? && (cfg[n].oneshot ==> !cfg[n].RestartsOnFailure())
    requires t == SettleApply(cfg[n], s, n, s.attempts[i].phase.outcome)
    ensures ReasonKnown(cfg, t, past + [MainStep(n, ev)], n)
  {
    EndedAfter(past, MainStep(n, ev), n);
  }

  lemma ErrReason(cfg: Services, s: State, t: State, n: Name, past: seq<Step>, ev: MainEvent)
    requires ReasonKnown(cfg, s, past, n) && n in s.mains && Complains(s.mains[n]) && MainReported(s, n)
    requires n in t.mains && t.mains[n] == (if s.mains[n].ErrTrigger? then ErrOnce else Finished) && ev.Advance?
    requires t.down.exitCode == s.down.exitCode || t.down.exitCode == 1
    ensures ReasonKnown(cfg, t, past + [MainStep(n, ev)], n)
  {
    EndedAfter(past, MainStep(n, ev), n);
  }

  lemma MainReason(cfg: Services, s: State, t: State, n: Name, ev: MainEvent, past: seq<Step>)
    requires WellFormed(cfg) && MainOk(cfg, s, n) && MainReported(s, n) && ReasonKnown(cfg, s, past, n)
    requires s.mains[n].Awaiting? ==> FailureReported(cfg, s, s.mains[n].attempt)
    requires MainEnabled(cfg, s, n, ev) && t == MainApply(cfg, s, n, ev)
    ensures ReasonKnown(cfg, t, past + [MainStep(n, ev)], n)
  {
    match s.mains[n] {
      case Before(stage) => BeforeReason(cfg, s, t, n, stage, ev, past);
      case Awaiting(i) => SettleReason(cfg, s, t, n, i, past, ev);
      case ErrTrigger => ErrReason(cfg, s, t, n, past, ev);
      case ErrOnce => ErrReason(cfg, s, t, n, past, ev);
      case Finished =>
    }
  }

  lemma AttemptLeavesMains(cfg: Services, s: State, t: State, i: nat, ev: AttemptEvent, n: Name)
    requires AttemptEnabled(cfg, s, i, ev) && t == AttemptApply(cfg, s, i, ev) && n in s.mains
    ensures LeavesAlone(s, t, n)
  {
  }

  lemma MainLeavesOthers(cfg: Services, s: State, t: State, m: Name, ev: MainEvent, n: Name)
    requires MainEnabled(cfg, s, m, ev) && t == MainApply(cfg, s, m, ev) && n in s.mains && n != m
    ensures LeavesAlone(s, t, n)
  {
  }

  lemma StepLeavesAlone(cfg: Services, s: State, t: State, step: Step, n: Name)
    requires Enabled(cfg, s, step) && t == Apply(cfg, s, step) && n in s.mains
    requires !(step.MainStep? && step.name == n)
    ensures LeavesAlone(s, t, n)
  {
    match step {
      case AttemptStep(i, ev) => AttemptLeavesMains(cfg, s, t, i, ev, n);
      case MainStep(m, ev) => MainLeavesOthers(cfg, s, t, m, ev, n);
      case _ =>
    }
  }

  lemma InvKeys(cfg: Services, s: State, n: Name)
    requires Inv(cfg, s) && n in cfg
    ensures n in s.mains
  {
  }

  lemma MainIsReported(cfg: Services, s: State, n: Name)
    requires Inv(cfg, s) && ExitInv(cfg, s) && n in cfg
    ensures MainOk(cfg, s, n) && MainReported(s, n)
    ensures s.mains[n].Awaiting? ==> FailureReported(cfg, s, s.mains[n].attempt)
  {
    assert MainOk(cfg, s, n);
  }

  lemma StepKeepsReasons(cfg: Services, s: State, t: State, step: Step, past: seq<Step>)
    requires WellFormed(cfg) && Inv(cfg, s) && ExitInv(cfg, s) && ReasonsKnown(cfg, s, past)
    requires Enabled(cfg, s, step) && t == Apply(cfg, s, step)
    ensures ReasonsKnown(cfg, t, past + [step])
  {
    StepExitCode(cfg, s, step);
    forall n | n in cfg ensures ReasonKnown(cfg, t, past + [step], n) {
      hide Inv, ExitInv, WellFormed, ReasonKnown, Apply;
      InvKeys(cfg, s, n);
      if step.MainStep? && step.name == n {
        MainIsReported(cfg, s, n);
        StepIsMain(cfg, s, step);
        MainReason(cfg, s, t, n, step.mainEvent, past);
      } else {
        StepLeavesAlone(cfg, s, t, step, n);
        ReasonStays(cfg, s, t, past, step, n);
      }
    }
  }

  lemma StepIsMain(cfg: Services, s: State, step: Step)
    requires Enabled(cfg, s, step) && step.MainStep?
    ensures Apply(cfg, s, step) == MainApply(cfg, s, step.name, step.mainEvent)
  {
  }

  lemma {:induction false} RunKeepsReasons(cfg: Services, s: State, steps: seq<Step>, past: seq<Step>)
    requires WellFormed(cfg) && Inv(cfg, s) && ExitInv(cfg, s) && ReasonsKnown(cfg, s, past) && Runs(cfg, s, steps)
    ensures ReasonsKnown(cfg, Exec(cfg, s, steps), past + steps)
    decreases |steps|
  {
    hide Inv, ExitInv, WellFormed, ReasonsKnown;
    if steps == [] {
      assert past + steps == past;
    } else {
      var t := Apply(cfg, s, steps[0]);
      StepKeepsInv(cfg, s, steps[0]);
      StepKeepsExit(cfg, s, t, steps[0]);
      StepKeepsReasons(cfg, s, t, steps[0], past);
      RunKeepsReasons(cfg, t, steps[1..], past + [steps[0]]);
      assert past + [steps[0]] + steps[1..] == past + steps;
    }
  }

  lemma InitReasons(cfg: Services)
    ensures ReasonsKnown(cfg, Init(cfg), []) && ExitInv(cfg, Init(cfg))
  {
  }

  /**
   A required service that was marked failed has set the exit code to 1, unless a dependency wait of it
   ended without success: on a failed dependency, on the timeout, or on a shutdown.
   */
  lemma RequiredGivesUp(cfg: Services, steps: seq<Step>, n: Name)
    requires WellFormed(cfg) && Runs(cfg, Init(cfg), steps) && n in cfg && cfg[n].required
    requires var t := Exec(cfg, Init(cfg), steps); n in t.mains && t.mains[n].Finished? && n in t.deps.failed
    ensures var t := Exec(cfg, Init(cfg), steps);
            if WaitEnded(steps, n) then DependencyFailed(cfg, t, n) || t.down.cancelled || TimedOut(steps, n)
            else t.down.exitCode == 1
  {
    InitInv(cfg);
    InitReasons(cfg);
    RunKeepsReasons(cfg, Init(cfg), steps, []);
    assert [] + steps == steps;
    assert ReasonKnown(cfg, Exec(cfg, Init(cfg), steps), steps, n);
  }
}
