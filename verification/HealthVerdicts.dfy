/** What the verdict of a health monitor leads to, in every run. */
module HealthVerdicts {
  import opened Config
  import opened Supervisor
  import opened Invariant
  import opened Lifecycle
  import opened Succession
  import ExitHandling

  // ----- which incarnations are watched -----

  /** Past the call of `startHealthMonitor`. */
  predicate PastMonitor(p: Phase) {
    (p.Live? && !p.live.Announce? && !p.live.Monitor?) || p.Post? || (p.Returned? && p.outcome.Ended?)
  }

  predicate MonitorOk(svc: Service, a: Attempt) {
    if PastMonitor(a.phase) then a.health.NoMonitor? <==> svc.healthCheck.None? else a.health.NoMonitor?
  }

  ghost predicate AllMonitored(cfg: Services, s: State) {
    forall i :: 0 <= i < |s.attempts| && s.attempts[i].name in cfg ==> MonitorOk(cfg[s.attempts[i].name], s.attempts[i])
  }

  lemma LiveMonitored(svc: Service, a: Attempt, p: LivePhase, ev: AttemptEvent)
    requires MonitorOk(svc, a) && a.phase == Live(p)
    ensures MonitorOk(svc, LiveNext(svc, a, p, ev))
  {
  }

  lemma NextMonitored(svc: Service, cancelled: bool, count: int, a: Attempt, ev: AttemptEvent)
    requires MonitorOk(svc, a)
    ensures MonitorOk(svc, AttemptNext(svc, cancelled, count, a, ev))
  {
    match a.phase {
      case Live(p) => LiveMonitored(svc, a, p, ev);
      case _ =>
    }
  }

  lemma MonitoredFrom(cfg: Services, s: State, t: State, i: nat, b: Attempt, appended: seq<Attempt>)
    requires AllMonitored(cfg, s) && i < |s.attempts| && t.attempts == s.attempts[i := b] + appended
    requires b.name == s.attempts[i].name && (b.name in cfg ==> MonitorOk(cfg[b.name], b))
    requires forall c :: c in appended ==> c == NewAttempt(c.name, c.first)
    ensures AllMonitored(cfg, t)
  {
  }

  lemma AttemptMonitored(cfg: Services, s: State, t: State, i: nat, ev: AttemptEvent)
    requires Inv(cfg, s) && AttemptEnabled(cfg, s, i, ev) && t == AttemptApply(cfg, s, i, ev) && AllMonitored(cfg, s)
    ensures AllMonitored(cfg, t)
  {
    hide Inv, MonitorOk;
    var a := s.attempts[i];
    var svc, count := cfg[a.name], s.restarts.Of(a.name);
    AttemptEffect(cfg, s, i, ev);
    NextMonitored(svc, s.down.cancelled, count, a, ev);
    MonitoredFrom(cfg, s, t, i, AttemptNext(svc, s.down.cancelled, count, a, ev),
                  if Schedules(a.phase) then [NewAttempt(a.name, false)] else []);
  }

  lemma MainMonitored(cfg: Services, s: State, n: Name, ev: MainEvent)
    requires MainEnabled(cfg, s, n, ev) && AllMonitored(cfg, s)
    ensures AllMonitored(cfg, MainApply(cfg, s, n, ev))
  {
  }

  lemma HealthMonitored(svc: Service, a: Attempt, ev: HealthEvent)
    requires MonitorOk(svc, a)
    ensures MonitorOk(svc, HealthNext(svc, a, ev))
  {
  }

  lemma StepMonitored(cfg: Services, s: State, t: State, step: Step)
    requires Inv(cfg, s) && Enabled(cfg, s, step) && t == Apply(cfg, s, step) && AllMonitored(cfg, s)
    ensures AllMonitored(cfg, t)
  {
    hide Inv, AllMonitored;
    match step {
      case AttemptStep(i, ev) => AttemptMonitored(cfg, s, t, i, ev);
      case MainStep(n, ev) => MainMonitored(cfg, s, n, ev);
      case HealthStep(i, ev) => WatcherMonitored(cfg, s, t, i, ev);
      case OperatorRestart(i) => OperatorMonitored(cfg, s, t, i);
      case SignalStep => SameMonitored(cfg, s, t);
      case OnceStep(_) => SameMonitored(cfg, s, t);
    }
  }

  lemma WatcherMonitored(cfg: Services, s: State, t: State, i: nat, ev: HealthEvent)
    requires HealthEnabled(cfg, s, i, ev) && t == HealthApply(cfg, s, i, ev) && AllMonitored(cfg, s)
    ensures AllMonitored(cfg, t)
  {
    HealthMonitored(cfg[s.attempts[i].name], s.attempts[i], ev);
    MonitoredFrom(cfg, s, t, i, t.attempts[i], []);
  }

  lemma OperatorMonitored(cfg: Services, s: State, t: State, i: nat)
    requires i < |s.attempts| && AllMonitored(cfg, s)
    requires t == Put(s, i, s.attempts[i].(intent := CasIntent(s.attempts[i].intent, OperatorIntent)))
    ensures AllMonitored(cfg, t)
  {
    MonitoredFrom(cfg, s, t, i, t.attempts[i], []);
  }

  lemma SameMonitored(cfg: Services, s: State, t: State)
    requires AllMonitored(cfg, s) && t.attempts == s.attempts
    ensures AllMonitored(cfg, t)
  {
  }

  lemma {:induction false} RunMonitored(cfg: Services, s: State, steps: seq<Step>)
    requires Inv(cfg, s) && Runs(cfg, s, steps) && AllMonitored(cfg, s)
    ensures AllMonitored(cfg, Exec(cfg, s, steps))
    decreases |steps|
  {
    if steps != [] {
      StepKeepsInv(cfg, s, steps[0]);
      StepMonitored(cfg, s, Apply(cfg, s, steps[0]), steps[0]);
      RunMonitored(cfg, Apply(cfg, s, steps[0]), steps[1..]);
    }
  }

  /**
   From the call of `startHealthMonitor` on, an incarnation has a monitor exactly when its service has a
   health check, and while it still watches, the verdict that the service is unhealthy can come at any time.
   */
  lemma MonitoredExactly(cfg: Services, s: State, i: nat)
    requires Reachable(cfg, s) && i < |s.attempts|
    ensures s.attempts[i].name in cfg
    ensures var a, svc := s.attempts[i], cfg[s.attempts[i].name];
            && (PastMonitor(a.phase) ==> (a.health.NoMonitor? <==> svc.healthCheck.None?))
            && (!PastMonitor(a.phase) ==> a.health.NoMonitor?)
            && (a.health.Watching? ==> Enabled(cfg, s, HealthStep(i, Unhealthy)))
  {
    ReachableAttempt(cfg, s, i);
    InitInv(cfg);
    var steps :| Runs(cfg, Init(cfg), steps) && Exec(cfg, Init(cfg), steps) == s;
    RunMonitored(cfg, Init(cfg), steps);
    assert MonitorOk(cfg[s.attempts[i].name], s.attempts[i]);
  }

  // ----- an unhealthy service with a restart policy -----

  /**
   An unhealthy verdict on a service whose policy is `always` or `on-failure` is a stop request: its
   `startService` can leave its select at once, and when it has returned the attempt ended on a request, which
   was that of the health policy if there was none before. A restart follows it then, unless the service has a
   limit and its restart counter has reached it.
   */
  lemma UnhealthyIsStopped(cfg: Services, s: State, t: State, i: nat)
    requires Reachable(cfg, s) && i < |s.attempts| && s.attempts[i].name in cfg
    requires s.attempts[i].health.Watching? && BeforeRead(s.attempts[i].phase)
    requires cfg[s.attempts[i].name].restart.Always? || cfg[s.attempts[i].name].restart.OnFailure?
    requires Leads(cfg, Apply(cfg, s, HealthStep(i, Unhealthy)), t)
    ensures i < |t.attempts|
    ensures var a, b, svc := s.attempts[i], t.attempts[i], cfg[s.attempts[i].name];
            && b.intent == (if a.intent.NoIntent? then PolicyIntent else a.intent)
            && (b.phase == Live(Select) ==> Enabled(cfg, t, AttemptStep(i, ContextDone)))
            && (b.phase.Returned? ==> b.phase.outcome.Ended? && b.phase.outcome.exit.intent == b.intent)
            && (b.phase.Returned? && a.intent.NoIntent? && !HasSuccessor(t, i) ==>
                  0 < svc.maxRestarts <= t.restarts.Of(a.name))
  {
    hide HasSuccessor;
    var s1 := Apply(cfg, s, HealthStep(i, Unhealthy));
    LeadsByStep(cfg, s, HealthStep(i, Unhealthy));
    LeadsOn(cfg, Init(cfg), s, s1);
    LeadsOn(cfg, Init(cfg), s1, t);
    WinningRequest(cfg, s1, t, i);
    LeadsForward(cfg, s1, t);
    assert Forward(s1.attempts[i], t.attempts[i]);
    if t.attempts[i].phase.Returned? {
      ExitHandling.RestartExactly(cfg, t, i);
    }
  }

  // ----- an unhealthy required service without one -----

  ghost predicate Raised(s: State, i: nat) {
    i < |s.attempts| && (s.attempts[i].health.Alarm? || s.down.exitCode == 1)
  }

  lemma NextKeepsHealth(svc: Service, cancelled: bool, count: int, a: Attempt, ev: AttemptEvent)
    requires AttemptOk(svc, cancelled, a) && !a.health.NoMonitor?
    ensures AttemptNext(svc, cancelled, count, a, ev).health == a.health
  {
  }

  lemma InvAttempt(cfg: Services, s: State, i: nat)
    requires Inv(cfg, s) && i < |s.attempts| && s.attempts[i].name in cfg
    ensures AttemptOk(cfg[s.attempts[i].name], s.down.cancelled, s.attempts[i])
    ensures s.down.exitCode == 0 || s.down.exitCode == 1
  {
  }

  lemma AttemptRaised(cfg: Services, s: State, t: State, j: nat, ev: AttemptEvent, i: nat)
    requires Inv(cfg, s) && AttemptEnabled(cfg, s, j, ev) && t == AttemptApply(cfg, s, j, ev) && Raised(s, i)
    ensures Raised(t, i)
  {
    hide Inv, AttemptOk;
    var a := s.attempts[j];
    AttemptEffect(cfg, s, j, ev);
    InvAttempt(cfg, s, j);
    if !a.health.NoMonitor? {
      NextKeepsHealth(cfg[a.name], s.down.cancelled, s.restarts.Of(a.name), a, ev);
    }
  }

  lemma StepRaised(cfg: Services, s: State, t: State, step: Step, i: nat)
    requires Inv(cfg, s) && Enabled(cfg, s, step) && t == Apply(cfg, s, step) && Raised(s, i)
    ensures Raised(t, i)
  {
    hide Inv;
    match step {
      case AttemptStep(j, ev) => AttemptRaised(cfg, s, t, j, ev, i);
      case MainStep(n, ev) => MainGrows(cfg, s, n, ev);
      case HealthStep(j, ev) => InvAttempt(cfg, s, j);
      case _ =>
    }
  }

  lemma {:induction false} RunRaised(cfg: Services, s: State, steps: seq<Step>, i: nat)
    requires Inv(cfg, s) && Runs(cfg, s, steps) && Raised(s, i)
    ensures Raised(Exec(cfg, s, steps), i)
    decreases |steps|
  {
    if steps != [] {
      StepKeepsInv(cfg, s, steps[0]);
      StepRaised(cfg, s, Apply(cfg, s, steps[0]), steps[0], i);
      RunRaised(cfg, Apply(cfg, s, steps[0]), steps[1..], i);
    }
  }

  /**
   An unhealthy verdict on a required service without such a policy: in every continuation the supervisor
   has exit code 1, or the monitor itself still has the step before it that sets it.
   */
  lemma UnhealthyIsReported(cfg: Services, s: State, t: State, i: nat)
    requires Reachable(cfg, s) && i < |s.attempts| && s.attempts[i].name in cfg
    requires s.attempts[i].health.Watching? && cfg[s.attempts[i].name].required
    requires !cfg[s.attempts[i].name].restart.Always? && !cfg[s.attempts[i].name].restart.OnFailure?
    requires Leads(cfg, Apply(cfg, s, HealthStep(i, Unhealthy)), t)
    ensures t.down.exitCode == 1
            || (Enabled(cfg, t, HealthStep(i, Proceed)) && Apply(cfg, t, HealthStep(i, Proceed)).down.exitCode == 1)
  {
    var s1 := Apply(cfg, s, HealthStep(i, Unhealthy));
    LeadsByStep(cfg, s, HealthStep(i, Unhealthy));
    LeadsOn(cfg, Init(cfg), s, s1);
    LeadsOn(cfg, Init(cfg), s1, t);
    ReachableInv(cfg, s1);
    ReachableInv(cfg, t);
    var steps :| Runs(cfg, s1, steps) && Exec(cfg, s1, steps) == t;
    RunRaised(cfg, s1, steps, i);
  }
}
