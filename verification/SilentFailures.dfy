/** For every configuration that is not safe, a permitted run that breaks the promise about the exit status. */
module SilentFailures {
  import opened Config
  import opened Supervisor
  import opened Invariant
  import opened Outcomes
  import opened Startup
  import opened Settling
  import opened ExitStatus
  import opened Driving

  /** A required service has failed, and neither has it been reported nor is a report on its way. */
  ghost predicate Silent(cfg: Services, s: State, n: Name) {
    n in cfg && cfg[n].required && Broken(s, n) && !Announced(cfg, s)
  }

  // ----- a wait that times out -----

  /** `n` is marked failed and its `processService` has returned, while nobody else has done anything yet. */
  ghost predicate AloneGaveUp(cfg: Services, s: State, n: Name) {
    && n in cfg && s.mains == Init(cfg).mains[n := Finished] && s.deps == Tracker({}, {n})
    && s.attempts == [] && s.down == Init(cfg).down
  }

  const TIMEOUTS := Allowed(true, false)

  /** A required service whose dependency wait times out is marked failed, with exit code 0. */
  lemma TimedOutWaitIsSilent(cfg: Services, n: Name)
    requires n in cfg && cfg[n].required && cfg[n].dependsOn != []
    ensures exists s :: LeadsPermitted(cfg, TIMEOUTS, Init(cfg), s) && AloneGaveUp(cfg, s, n) && Silent(cfg, s, n)
  {
    var s0 := Init(cfg);
    var s1 := s0.(mains := s0.mains[n := Before(PreScript)]);
    assert s1 == Apply(cfg, s0, MainStep(n, Advance));
    PermittedHere(cfg, NOTHING, s0);
    PermittedStep(cfg, s0, s0, MainStep(n, Advance));
    var s2 := s1.(mains := s1.mains[n := Before(Waiting(0))]);
    assert s2 == Apply(cfg, s1, MainStep(n, PreDone(true)));
    PermittedStep(cfg, s0, s1, MainStep(n, PreDone(true)));
    var s := WaitTimesOut(cfg, s2, n);
    PermittedOn(cfg, TIMEOUTS, s0, s2, s);
    assert s.mains == s0.mains[n := Finished];
    assert AloneGaveUp(cfg, s, n) && Silent(cfg, s, n);
  }

  lemma WaitTimesOut(cfg: Services, s: State, n: Name) returns (t: State)
    requires n in cfg && cfg[n].dependsOn != [] && n in s.mains && s.mains[n] == Before(Waiting(0))
    ensures LeadsPermitted(cfg, TIMEOUTS, s, t)
    ensures t == s.(mains := s.mains[n := Finished], deps := s.deps.MarkFailed(n))
  {
    var u := s.(mains := s.mains[n := Before(Failing)]);
    assert u == Apply(cfg, s, MainStep(n, DepTimeout));
    t := s.(mains := s.mains[n := Finished], deps := s.deps.MarkFailed(n));
    assert t == Apply(cfg, u, MainStep(n, Advance));
    PermittedHere(cfg, TIMEOUTS, t);
    PermittedFirst(cfg, TIMEOUTS, u, MainStep(n, Advance), t);
    PermittedFirst(cfg, TIMEOUTS, s, MainStep(n, DepTimeout), t);
  }

  // ----- a dependency that is not required -----

  /** A required service that depends on one that is not can fail silently: without any timeout or restart. */
  lemma OptionalDependencyIsSilent(cfg: Services, n: Name, d: Name)
    requires WellFormed(cfg) && n in cfg && cfg[n].required
    requires d in cfg[n].dependsOn && d in cfg && !cfg[d].required
    ensures exists s :: LeadsPermitted(cfg, NOTHING, Init(cfg), s) && Silent(cfg, s, n)
  {
    var rank :| Ranked(cfg, rank);
    var w := World(_ => true, x => x != d, _ => true);
    InitStarts(cfg, rank, w);
    var t := MarkService(cfg, rank, w, Init(cfg), n);
    NothingAnnounced(cfg, rank, w, t);
    CalmLeadsPermitted(cfg, w, Init(cfg), t);
    assert !ComesUp(cfg, rank, w, d);
    assert !ComesUp(cfg, rank, w, n);
    FailsInWorld(cfg, rank, w, t, n);
  }

  lemma FailsInWorld(cfg: Services, rank: map<Name, nat>, w: World, t: State, n: Name)
    requires InStartup(cfg, rank, w, t) && n in cfg && Marked(t, n) && !ComesUp(cfg, rank, w, n)
    ensures n in t.deps.failed
  {
  }

  /** For example: `b` is required and depends on `a`, which is not. */
  lemma OptionalDependencyExample()
    ensures var plain := Service("a", [], None, Some(true), "", None, Unset, 0, 0, false, false);
            var cfg := map["a" := plain, "b" := plain.(name := "b", dependsOn := ["a"], required := true)];
            WellFormed(cfg) && exists s :: LeadsPermitted(cfg, NOTHING, Init(cfg), s) && Silent(cfg, s, "b")
  {
    var plain := Service("a", [], None, Some(true), "", None, Unset, 0, 0, false, false);
    var cfg := map["a" := plain, "b" := plain.(name := "b", dependsOn := ["a"], required := true)];
    assert Ranked(cfg, map["a" := 0, "b" := 1]);
    OptionalDependencyIsSilent(cfg, "b", "a");
  }

  /** The restart does not start, and nobody is told. */
  lemma FailToStart(cfg: Services, r: State, s: State, n: Name, j: nat) returns (t: State)
    requires Stands(cfg, r, s, n, j, Pre(Timer), NoIntent) && !s.attempts[j].first && cfg[n].required
    ensures LeadsPermitted(cfg, NOTHING, r, t) && Silent(cfg, t, n) && LeftBroken(t, n)
  {
    hide Inv, Announced, LeadsPermitted;
    var s1 := TimerToLaunch(cfg, r, s, n, j);
    t := Go(cfg, r, s1, n, j, Pre(Launch), NoIntent, Started(false), Returned(StartError));
    assert LeftBroken(t, n);
  }

  // ----- a restart policy -----

  /** A required service with a restart policy can fail silently: its restart may not start. */
  lemma RestartPolicyIsSilent(cfg: Services, n: Name)
    requires WellFormed(cfg) && n in cfg && cfg[n].required && cfg[n].RestartsOnFailure()
    ensures exists s :: LeadsPermitted(cfg, NOTHING, Init(cfg), s) && Silent(cfg, s, n)
  {
    var r := Init(cfg);
    var s0, i := ReachLaunch(cfg, n);
    var s1 := LaunchToSelect(cfg, r, s0, n, i);
    var s2 := Crash(cfg, r, s1, n, i);
    var s3 := DecideRestart(cfg, r, s2, n, i);
    var s4, j := Rearm(cfg, r, s3, n, i, CRASHED, NoIntent);
    var s5 := FailToStart(cfg, r, s4, n, j);
  }

  // ----- an operator restart -----

  /**
   Everything in the run is ordinary but the one operator restart of attempt `i` of `n`, which is
   accepted in `s`; in `t` the service has failed silently.
   */
  ghost predicate SilencedByOperator(cfg: Services, n: Name, s: State, i: nat, t: State) {
    && LeadsPermitted(cfg, NOTHING, Init(cfg), s)
    && OperatorEnabled(cfg, s, i) && s.attempts[i].name == n
    && LeadsPermitted(cfg, NOTHING, Apply(cfg, s, OperatorRestart(i)), t) && Silent(cfg, t, n) && LeftBroken(t, n)
  }

  /** One operator restart is enough to let any required service fail silently, in every configuration. */
  lemma OperatorRestartIsSilent(cfg: Services, n: Name)
    requires WellFormed(cfg) && n in cfg && cfg[n].required
    ensures exists s, i, t :: SilencedByOperator(cfg, n, s, i, t)
  {
    hide Stands, Silent, LeadsPermitted, WellFormed;
    var s0, i := ReachLaunch(cfg, n);
    var s := LaunchToSelect(cfg, Init(cfg), s0, n, i);
    var r := Requested(cfg, Init(cfg), s, n, i);
    var s1 := StopForOperator(cfg, r, r, n, i);
    var s2 := FinishForOperator(cfg, r, s1, n, i);
    var s3, j := Rearm(cfg, r, s2, n, i, KILLED, OperatorIntent);
    var t := FailToStart(cfg, r, s3, n, j);
    StandsAt(cfg, s, n, i);
    assert SilencedByOperator(cfg, n, s, i, t);
  }

  lemma StandsAt(cfg: Services, s: State, n: Name, i: nat)
    requires Stands(cfg, Init(cfg), s, n, i, Live(Select), NoIntent)
    ensures LeadsPermitted(cfg, NOTHING, Init(cfg), s) && i < |s.attempts| && s.attempts[i].name == n
  {
  }

  // ----- exactly the safe configurations -----

  /**
   Take all runs without signals, with or without dependency timeouts and operator restarts of required
   services. In all of them the exit status tells of every failure of a required service if and only if
   the configuration is safe: with nothing allowed, no required service has a restart policy or depends on
   a service that is not required; with timeouts, none has a dependency; with operator restarts, there is none.
   */
  lemma PromiseExactly(cfg: Services, allow: Allowed)
    requires WellFormed(cfg)
    ensures Promise(cfg, allow) <==> SafeFor(cfg, allow)
  {
    if SafeFor(cfg, allow) {
      SafeKeepsPromise(cfg, allow);
    } else {
      var n, s := SilenceOf(cfg, allow);
      SilenceBreaksPromise(cfg, allow, s, n);
    }
  }

  lemma SilenceOf(cfg: Services, allow: Allowed) returns (n: Name, s: State)
    requires WellFormed(cfg) && !SafeFor(cfg, allow)
    ensures LeadsPermitted(cfg, allow, Init(cfg), s) && Silent(cfg, s, n)
  {
    PermittedHere(cfg, allow, Init(cfg));
    n :| n in cfg && cfg[n].required && !SafeService(cfg, allow, n);
    if allow.operators {
      s := OperatorSilence(cfg, allow, n);
    } else if allow.timeouts && cfg[n].dependsOn != [] {
      TimedOutWaitIsSilent(cfg, n);
      s :| LeadsPermitted(cfg, TIMEOUTS, Init(cfg), s) && Silent(cfg, s, n);
    } else {
      var u := OrdinarySilence(cfg, n);
      PermittedHere(cfg, allow, u);
      PermittedOn(cfg, allow, Init(cfg), u, u);
      s := u;
    }
  }

  lemma OrdinarySilence(cfg: Services, n: Name) returns (s: State)
    requires WellFormed(cfg) && n in cfg && cfg[n].required && !SafeService(cfg, NOTHING, n)
    ensures LeadsPermitted(cfg, NOTHING, Init(cfg), s) && Silent(cfg, s, n)
  {
    if cfg[n].RestartsOnFailure() {
      RestartPolicyIsSilent(cfg, n);
    } else {
      var d :| d in cfg[n].dependsOn && !(d in cfg && cfg[d].required);
      OptionalDependencyIsSilent(cfg, n, d);
    }
    s :| LeadsPermitted(cfg, NOTHING, Init(cfg), s) && Silent(cfg, s, n);
  }

  lemma OperatorSilence(cfg: Services, allow: Allowed, n: Name) returns (t: State)
    requires WellFormed(cfg) && n in cfg && cfg[n].required && allow.operators
    ensures LeadsPermitted(cfg, allow, Init(cfg), t) && Silent(cfg, t, n)
  {
    OperatorRestartIsSilent(cfg, n);
    var s, i;
    s, i, t :| SilencedByOperator(cfg, n, s, i, t);
    var u := Apply(cfg, s, OperatorRestart(i));
    PermittedHere(cfg, allow, t);
    PermittedOn(cfg, allow, u, t, t);
    PermittedFirst(cfg, allow, s, OperatorRestart(i), t);
    PermittedOn(cfg, allow, Init(cfg), s, t);
  }

  lemma SilenceBreaksPromise(cfg: Services, allow: Allowed, s: State, n: Name)
    requires LeadsPermitted(cfg, allow, Init(cfg), s) && Silent(cfg, s, n)
    ensures !Promise(cfg, allow)
  {
    assert !PromiseKept(cfg, s);
  }
}
