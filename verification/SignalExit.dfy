/** The other half of the documented exit status: a shutdown driven by a signal exits with 0. */
module SignalExit {
  import opened Config
  import opened Supervisor
  import opened Invariant
  import opened Lifecycle
  import opened Outcomes
  import opened ExitStatus
  import opened Driving

  /** The signal handler is the one that runs `runShutdown`. */
  predicate BySignal(steps: seq<Step>) { OnceStep(Enter(SignalCaller)) in steps }

  /** Whenever the signal handler runs the shutdown and then exits, it exits with 0. */
  ghost predicate SignalPromise(cfg: Services) {
    forall steps :: Runs(cfg, Init(cfg), steps) && BySignal(steps) ==>
      Exec(cfg, Init(cfg), steps).down.signal.Exiting? ==> Exec(cfg, Init(cfg), steps).down.exitCode == 0
  }

  predicate NoneRequired(cfg: Services) { forall n :: n in cfg ==> !cfg[n].required }

  lemma {:induction false} NothingFails(cfg: Services, s: State, steps: seq<Step>)
    requires NoneRequired(cfg) && Runs(cfg, s, steps)
    ensures !FailsIn(cfg, s, steps)
    decreases |steps|
  {
    if steps != [] {
      NoFailureStep(cfg, s, steps[0]);
      NothingFails(cfg, Apply(cfg, s, steps[0]), steps[1..]);
    }
  }

  lemma NoFailureStep(cfg: Services, s: State, step: Step)
    requires NoneRequired(cfg)
    ensures !IsFailureStep(cfg, s, step)
  {
  }

  /** The signal handler has entered `shutdownOnce` while the first start of `n` is about to launch. */
  predicate Signalled(cfg: Services, s: State, n: Name, i: nat) {
    && n in cfg && cfg[n].required && n in s.mains && s.mains[n] == Awaiting(i)
    && i < |s.attempts| && s.attempts[i].name == n && s.attempts[i].phase == Pre(Launch)
    && s.down == Shutdown(false, Begin(SignalCaller), false, 0, Handling)
  }

  /** The start fails after the signal, and the failure is reported. */
  lemma FailAfterSignal(cfg: Services, s: State, n: Name, i: nat) returns (t: State)
    requires Signalled(cfg, s, n, i)
    ensures Leads(cfg, s, t) && t.down == Shutdown(false, Begin(SignalCaller), false, 1, Handling)
  {
    var s1 := Put(s, i, s.attempts[i].(phase := Returned(StartError)));
    assert s1 == Apply(cfg, s, AttemptStep(i, Started(false)));
    LeadsByStep(cfg, s, AttemptStep(i, Started(false)));
    var s2 := s1.(mains := s1.mains[n := ErrTrigger], deps := s1.deps.MarkFailed(n));
    assert s2 == Apply(cfg, s1, MainStep(n, Advance));
    LeadsByStep(cfg, s1, MainStep(n, Advance));
    t := s2.(mains := s2.mains[n := ErrOnce], down := s2.down.Fail());
    assert t == Apply(cfg, s2, MainStep(n, Advance));
    LeadsByStep(cfg, s2, MainStep(n, Advance));
    LeadsOn(cfg, s, s1, s2);
    LeadsOn(cfg, s, s2, t);
  }

  /** The shutdown runs its course, by its timeouts if it has to. */
  lemma ShutdownPasses(cfg: Services, s: State) returns (t: State)
    requires s.down == Shutdown(false, Begin(SignalCaller), false, 1, Handling)
    ensures Leads(cfg, s, t) && t.down == Shutdown(true, Done, false, 1, Handling)
  {
    var s1 := s.(down := Shutdown(true, Closing(SignalCaller), false, 1, Handling));
    assert s1 == Apply(cfg, s, OnceStep(Proceeds));
    LeadsByStep(cfg, s, OnceStep(Proceeds));
    var s2 := Apply(cfg, s1, OnceStep(Proceeds));
    LeadsByStep(cfg, s1, OnceStep(Proceeds));
    LeadsOn(cfg, s, s1, s2);
    if s2.down.once.Done? {
      return s2;
    }
    assert s2.down == Shutdown(true, Draining(SignalCaller), false, 1, Handling);
    t := ShutdownTimesOut(cfg, s2);
    LeadsOn(cfg, s, s2, t);
  }

  lemma ShutdownTimesOut(cfg: Services, s: State) returns (t: State)
    requires s.down == Shutdown(true, Draining(SignalCaller), false, 1, Handling)
    ensures Leads(cfg, s, t) && t.down == Shutdown(true, Done, false, 1, Handling)
  {
    var s1 := s.(down := Shutdown(true, Forced(SignalCaller), false, 1, Handling));
    assert s1 == Apply(cfg, s, OnceStep(GlobalTimeout));
    LeadsByStep(cfg, s, OnceStep(GlobalTimeout));
    t := s.(down := Shutdown(true, Done, false, 1, Handling));
    assert t == Apply(cfg, s1, OnceStep(ForceTimeout));
    LeadsByStep(cfg, s1, OnceStep(ForceTimeout));
    LeadsOn(cfg, s, s1, t);
  }

  lemma ExitsWithOne(cfg: Services, s: State, n: Name, i: nat) returns (t: State)
    requires Signalled(cfg, s, n, i)
    ensures Leads(cfg, s, t) && t.down.signal.Exiting? && t.down.exitCode == 1
  {
    var s1 := FailAfterSignal(cfg, s, n, i);
    var s2 := ShutdownPasses(cfg, s1);
    t := s2.(down := s2.down.(signal := Exiting));
    assert t == Apply(cfg, s2, SignalStep);
    LeadsByStep(cfg, s2, SignalStep);
    LeadsOn(cfg, s, s1, s2);
    LeadsOn(cfg, s, s2, t);
  }

  /** A run whose shutdown is run by the signal handler, which then exits with 1. */
  ghost predicate SignalledFailure(cfg: Services, steps: seq<Step>) {
    && Runs(cfg, Init(cfg), steps) && BySignal(steps)
    && Exec(cfg, Init(cfg), steps).down.signal.Exiting? && Exec(cfg, Init(cfg), steps).down.exitCode == 1
  }

  /** Any required service can turn the exit status of a signal-driven shutdown into 1: its start fails meanwhile. */
  lemma RequiredOverridesSignal(cfg: Services, n: Name)
    requires WellFormed(cfg) && n in cfg && cfg[n].required
    ensures exists steps :: SignalledFailure(cfg, steps)
  {
    var before, s, i := ToLaunchOf(cfg, n);
    var enter := [SignalStep, OnceStep(Enter(SignalCaller))];
    var u := SignalArrives(cfg, s, enter);
    var t := ExitsWithOne(cfg, u, n, i);
    var after :| Runs(cfg, u, after) && Exec(cfg, u, after) == t;
    Joined(cfg, s, before, enter, after);
    assert SignalledFailure(cfg, before + (enter + after));
  }

  lemma ToLaunchOf(cfg: Services, n: Name) returns (steps: seq<Step>, s: State, i: nat)
    requires WellFormed(cfg) && n in cfg
    ensures Runs(cfg, Init(cfg), steps) && Exec(cfg, Init(cfg), steps) == s
    ensures n in s.mains && s.mains[n] == Awaiting(i) && s.down == Shutdown(false, Idle, false, 0, Listening)
    ensures i < |s.attempts| && s.attempts[i].name == n && s.attempts[i].phase == Pre(Launch)
  {
    hide Inv, Announced, WellFormed;
    s, i := ReachLaunch(cfg, n);
    var r := Init(cfg);
    steps :| Runs(cfg, r, steps) && RunPermitted(cfg, NOTHING, r, steps) && Exec(cfg, r, steps) == s;
  }

  lemma Joined(cfg: Services, s: State, before: seq<Step>, enter: seq<Step>, after: seq<Step>)
    requires Runs(cfg, Init(cfg), before) && Exec(cfg, Init(cfg), before) == s
    requires Runs(cfg, s, enter) && Runs(cfg, Exec(cfg, s, enter), after) && BySignal(enter)
    ensures Runs(cfg, Init(cfg), before + (enter + after)) && BySignal(before + (enter + after))
    ensures Exec(cfg, Init(cfg), before + (enter + after)) == Exec(cfg, Exec(cfg, s, enter), after)
  {
    RunsAppend(cfg, s, enter, after);
    RunsAppend(cfg, Init(cfg), before, enter + after);
  }

  lemma SignalArrives(cfg: Services, s: State, steps: seq<Step>) returns (u: State)
    requires s.down == Shutdown(false, Idle, false, 0, Listening)
    requires steps == [SignalStep, OnceStep(Enter(SignalCaller))]
    ensures Runs(cfg, s, steps) && Exec(cfg, s, steps) == u
    ensures u == s.(down := Shutdown(false, Begin(SignalCaller), false, 0, Handling)) && BySignal(steps)
  {
    assert steps[1] == OnceStep(Enter(SignalCaller));
    var s1 := s.(down := Shutdown(false, Idle, false, 0, Handling));
    u := s.(down := Shutdown(false, Begin(SignalCaller), false, 0, Handling));
    var rest := steps[1..];
    var last := rest[1..];
    assert rest == [OnceStep(Enter(SignalCaller))] && last == [];
    assert Apply(cfg, s, SignalStep) == s1 && Apply(cfg, s1, OnceStep(Enter(SignalCaller))) == u;
    assert Runs(cfg, u, last) && Exec(cfg, u, last) == u;
    assert Runs(cfg, s1, rest) && Exec(cfg, s1, rest) == u;
  }

  /**
   Every shutdown that the signal handler runs exits with 0 if and only if no service is required: a
   required service that fails while the shutdown is on still sets the exit code.
   */
  lemma SignalPromiseExactly(cfg: Services)
    requires WellFormed(cfg)
    ensures SignalPromise(cfg) <==> NoneRequired(cfg)
  {
    if NoneRequired(cfg) {
      forall steps | Runs(cfg, Init(cfg), steps) ensures Exec(cfg, Init(cfg), steps).down.exitCode == 0 {
        NothingFails(cfg, Init(cfg), steps);
        InitReachable(cfg);
        ExitCodeOverRuns(cfg, Init(cfg), steps);
      }
    } else {
      var n :| n in cfg && cfg[n].required;
      RequiredOverridesSignal(cfg, n);
      var steps :| SignalledFailure(cfg, steps);
    }
  }

  lemma InitReachable(cfg: Services)
    ensures Reachable(cfg, Init(cfg))
  {
    assert Runs(cfg, Init(cfg), []) && Exec(cfg, Init(cfg), []) == Init(cfg);
  }
}
