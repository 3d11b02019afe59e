/** Runs that show where the documented promises end, next to the conditions under which they hold. */
module Limits {
  import opened Config
  import opened Supervisor
  import opened Invariant
  import opened Lifecycle
  import opened Outcomes
  import ExitStatus
  import Drain

  /** A configuration with one plain service. */
  predicate Solo(svc: Service) {
    svc.dependsOn == [] && svc.preScript == "" && svc.healthCheck.None? && svc.maxRestarts == 0
  }

  function Only(svc: Service): Services { map[svc.name := svc] }

  function A(svc: Service, first: bool, phase: Phase, intent: Intent, state: ServiceState): Attempt {
    Attempt(svc.name, first, phase, intent, state, NoMonitor)
  }

  /** A state of that configuration before any shutdown; `live` says whether attempt 0 is registered. */
  function Snap(svc: Service, m: Main, attempts: seq<Attempt>, ready: bool, live: bool, restarts: Restarts): State {
    State(map[svc.name := m], attempts, Tracker(if ready then {svc.name} else {}, {}),
          if live then Registry(map[svc.name := 0], 1) else Registry(map[], 0), restarts,
          Shutdown(false, Idle, false, 0, Listening))
  }

  const NO_RESTARTS := Restarts(map[], map[])

  lemma Take(cfg: Services, s: State, step: Step, t: State)
    requires Reachable(cfg, s) && Enabled(cfg, s, step) && Apply(cfg, s, step) == t
    ensures Reachable(cfg, t)
  {
    LeadsByStep(cfg, s, step);
    LeadsOn(cfg, Init(cfg), s, t);
  }

  lemma SoloWellFormed(svc: Service)
    requires Solo(svc) && !svc.restart.Unknown? && (svc.oneshot ==> !svc.RestartsOnFailure())
    ensures WellFormed(Only(svc))
  {
    assert Ranked(Only(svc), map[svc.name := 0]);
  }

  lemma ToFirstStart(svc: Service) returns (s: State)
    requires Solo(svc)
    ensures s == Snap(svc, Awaiting(0), [A(svc, true, Pre(Check), NoIntent, Pending)], false, false, NO_RESTARTS)
    ensures Reachable(Only(svc), s)
  {
    var cfg, n := Only(svc), svc.name;
    var s0 := Snap(svc, Before(Fresh), [], false, false, NO_RESTARTS);
    assert Init(cfg) == s0;
    assert Leads(cfg, s0, s0) by { assert Runs(cfg, s0, []) && Exec(cfg, s0, []) == s0; }
    var s1 := Snap(svc, Before(PreScript), [], false, false, NO_RESTARTS);
    Take(cfg, s0, MainStep(n, Advance), s1);
    var s2 := Snap(svc, Before(Waiting(0)), [], false, false, NO_RESTARTS);
    Take(cfg, s1, MainStep(n, PreDone(true)), s2);
    s := Snap(svc, Awaiting(0), [A(svc, true, Pre(Check), NoIntent, Pending)], false, false, NO_RESTARTS);
    Take(cfg, s2, MainStep(n, Advance), s);
  }

  /** Attempt 0, once registered: everything else of the state follows. */
  function Alone(svc: Service, p: LivePhase, intent: Intent, state: ServiceState, ready: bool): State {
    Snap(svc, Awaiting(0), [A(svc, true, Live(p), intent, state)], ready, true, NO_RESTARTS)
  }

  lemma ToAnnounce(svc: Service) returns (s: State)
    requires Solo(svc)
    ensures s == Alone(svc, Announce, NoIntent, Starting, false) && Reachable(Only(svc), s)
  {
    var cfg := Only(svc);
    var s0 := ToFirstStart(svc);
    var s1 := Snap(svc, Awaiting(0), [A(svc, true, Pre(Launch), NoIntent, Pending)], false, false, NO_RESTARTS);
    Take(cfg, s0, AttemptStep(0, Next), s1);
    var s2 := Snap(svc, Awaiting(0), [A(svc, true, Register, NoIntent, Pending)], false, false, NO_RESTARTS);
    Take(cfg, s1, AttemptStep(0, Started(true)), s2);
    s := Alone(svc, Announce, NoIntent, Starting, false);
    Take(cfg, s2, AttemptStep(0, Next), s);
  }

  lemma ToRunning(svc: Service) returns (s: State)
    requires Solo(svc)
    ensures s == Alone(svc, Select, NoIntent, Running, !svc.oneshot) && Reachable(Only(svc), s)
  {
    var cfg := Only(svc);
    var s0 := ToAnnounce(svc);
    var s1 := Alone(svc, Monitor, NoIntent, Running, false);
    Take(cfg, s0, AttemptStep(0, Next), s1);
    var s2 := Alone(svc, Publish, NoIntent, Running, false);
    Take(cfg, s1, AttemptStep(0, Next), s2);
    s := Alone(svc, Select, NoIntent, Running, !svc.oneshot);
    Take(cfg, s2, AttemptStep(0, Next), s);
  }

  /** The process of a long-running service failed, and `finishService` has read that nobody asked for it. */
  lemma ToFailedExit(svc: Service) returns (s: State)
    requires Solo(svc) && !svc.oneshot
    ensures s == Alone(svc, Remove(CRASHED), NoIntent, Failed, true) && Reachable(Only(svc), s)
  {
    var cfg := Only(svc);
    var s0 := ToRunning(svc);
    var s1 := Alone(svc, Finish(true), NoIntent, Running, true);
    Take(cfg, s0, AttemptStep(0, ProcessExit(true)), s1);
    var s2 := Alone(svc, Record, NoIntent, Running, true);
    Take(cfg, s1, AttemptStep(0, Next), s2);
    s := Alone(svc, Remove(CRASHED), NoIntent, Failed, true);
    Take(cfg, s2, AttemptStep(0, Next), s);
  }

  // ----- a start error on a restart -----

  function Once(svc: Service): Restarts { Restarts(map[svc.name := 1], map[]) }

  lemma ToRestart(svc: Service) returns (s: State)
    requires Solo(svc) && !svc.oneshot && svc.RestartsOnFailure()
    ensures s == Snap(svc, Awaiting(0), [A(svc, true, Post(Schedule, CRASHED), NoIntent, Stopped)],
                      true, false, Once(svc))
    ensures Reachable(Only(svc), s)
  {
    var cfg := Only(svc);
    var s0 := ToFailedExit(svc);
    var s1 := Snap(svc, Awaiting(0), [A(svc, true, Post(Decide, CRASHED), NoIntent, Stopped)],
                   true, false, NO_RESTARTS);
    Take(cfg, s0, AttemptStep(0, Next), s1);
    var s2 := Snap(svc, Awaiting(0), [A(svc, true, Post(Count, CRASHED), NoIntent, Stopped)],
                   true, false, NO_RESTARTS);
    Take(cfg, s1, AttemptStep(0, Next), s2);
    s := Snap(svc, Awaiting(0), [A(svc, true, Post(Schedule, CRASHED), NoIntent, Stopped)], true, false, Once(svc));
    Take(cfg, s2, AttemptStep(0, Next), s);
  }

  /** The first run is over; attempt 1 is the restart. */
  function Retry(svc: Service, m: Main, p: Phase): State {
    Snap(svc, m, [A(svc, true, Returned(Ended(CRASHED)), NoIntent, Stopped), A(svc, false, p, NoIntent, Pending)],
         true, false, Once(svc))
  }

  lemma ToRetry(svc: Service) returns (s: State)
    requires Solo(svc) && !svc.oneshot && svc.RestartsOnFailure()
    ensures s == Retry(svc, Finished, Pre(Timer)) && Reachable(Only(svc), s)
  {
    var cfg := Only(svc);
    var s0 := ToRestart(svc);
    var s1 := Retry(svc, Awaiting(0), Pre(Timer));
    Take(cfg, s0, AttemptStep(0, Next), s1);
    s := Retry(svc, Finished, Pre(Timer));
    Take(cfg, s1, MainStep(svc.name, Advance), s);
  }

  /** Nothing is left to run, the newest start of the service has failed, and no failure was reported. */
  ghost predicate SilentEnd(s: State, n: Name) {
    && (forall m :: m in s.mains ==> s.mains[m].Finished?)
    && (forall i :: 0 <= i < |s.attempts| ==> s.attempts[i].phase.Returned?)
    && (exists i: nat :: Last(s, i) && s.attempts[i].name == n && s.attempts[i].phase == Returned(StartError))
    && s.reg.wg == 0 && s.down.exitCode == 0 && !s.down.cancelled
  }

  /**
   A required service fails for good, its restart did not even start, and yet the supervisor comes to
   rest with nothing running and exit code 0.
   */
  lemma RestartStartErrorIsSilent(svc: Service)
    requires Solo(svc) && svc.required && !svc.oneshot && svc.RestartsOnFailure()
    ensures WellFormed(Only(svc)) && exists s :: Reachable(Only(svc), s) && SilentEnd(s, svc.name)
  {
    var cfg := Only(svc);
    SoloWellFormed(svc);
    var s0 := ToRetry(svc);
    var s := FailRetry(svc, s0);
    assert SilentEnd(s, svc.name);
  }

  lemma FailRetry(svc: Service, s: State) returns (t: State)
    requires Reachable(Only(svc), s) && s == Retry(svc, Finished, Pre(Timer))
    ensures Reachable(Only(svc), t) && t == Retry(svc, Finished, Returned(StartError)) && Last(t, 1)
  {
    var cfg := Only(svc);
    var s1 := Retry(svc, Finished, Pre(Fired));
    Take(cfg, s, AttemptStep(1, Next), s1);
    var s2 := Retry(svc, Finished, Pre(Check));
    Take(cfg, s1, AttemptStep(1, Next), s2);
    var s3 := Retry(svc, Finished, Pre(Launch));
    Take(cfg, s2, AttemptStep(1, Next), s3);
    t := Retry(svc, Finished, Returned(StartError));
    Take(cfg, s3, AttemptStep(1, Started(false)), t);
  }

  /** The start error of a restart is never looked at again: no step of anyone reads it, in any continuation. */
  lemma RestartStartErrorIsUnread(cfg: Services, s: State, t: State, i: nat)
    requires Reachable(cfg, s) && Leads(cfg, s, t) && i < |s.attempts|
    requires s.attempts[i].phase == Returned(StartError) && !s.attempts[i].first
    ensures i < |t.attempts| && t.attempts[i].phase == Returned(StartError)
    ensures forall step :: Enabled(cfg, t, step) ==>
              match step
              case MainStep(n, _) => t.mains[n].Awaiting? ==> t.mains[n].attempt != i
              case AttemptStep(k, _) => k != i
              case HealthStep(k, _) => k != i
              case OperatorRestart(k) => k != i
              case _ => true
  {
    LeadsForward(cfg, s, t);
    LeadsOn(cfg, Init(cfg), s, t);
    ReachableInv(cfg, t);
    ReachableAttempt(cfg, t, i);
    assert Forward(s.attempts[i], t.attempts[i]);
    forall n | n in cfg && n in t.mains && t.mains[n].Awaiting? ensures t.mains[n].attempt != i {
      assert MainOk(cfg, t, n);
    }
  }

  // ----- an accepted operator request that comes too late -----

  /** The only attempt of the service is over, was asked to restart, and has no successor. */
  predicate Unanswered(s: State, n: Name) {
    && s.mains == map[n := Finished] && |s.attempts| == 1
    && s.attempts[0].intent.OperatorIntent? && s.attempts[0].phase == Returned(Ended(CRASHED))
  }

  /** The operator's request on attempt 0 is accepted in `s`, and is unanswered in `t`. */
  ghost predicate LostBetween(cfg: Services, n: Name, s: State, t: State) {
    && Reachable(cfg, s) && OperatorEnabled(cfg, s, 0) && !BeforeRead(s.attempts[0].phase)
    && Leads(cfg, Apply(cfg, s, OperatorRestart(0)), t) && Unanswered(t, n)
  }

  /**
   An operator request accepted after `finishService` has read the intent is lost: the service is not
   restarted, and the request is never looked at (Lifecycle.LateRequestIsUnread). One that comes before
   arms a restart that only a shutdown can keep from being tried (Succession.OperatorRestartHappens).
   */
  lemma LateRequestIsLost(svc: Service)
    requires Solo(svc) && !svc.oneshot && !svc.RestartsOnFailure() && !svc.required
    ensures exists s, t :: LostBetween(Only(svc), svc.name, s, t)
  {
    var cfg := Only(svc);
    var s := ToFailedExit(svc);
    var s1 := Alone(svc, Remove(CRASHED), OperatorIntent, Failed, true);
    assert Apply(cfg, s, OperatorRestart(0)) == s1;
    var t := AfterLateRequest(svc, s1);
    assert LostBetween(cfg, svc.name, s, t);
  }

  lemma AfterLateRequest(svc: Service, s1: State) returns (t: State)
    requires Solo(svc) && !svc.RestartsOnFailure() && !svc.required && !svc.oneshot
    requires s1 == Alone(svc, Remove(CRASHED), OperatorIntent, Failed, true)
    ensures Leads(Only(svc), s1, t) && Unanswered(t, svc.name)
  {
    var cfg := Only(svc);
    var s2 := Snap(svc, Awaiting(0), [A(svc, true, Post(Decide, CRASHED), OperatorIntent, Stopped)],
                   true, false, NO_RESTARTS);
    assert Apply(cfg, s1, AttemptStep(0, Next)) == s2;
    LeadsByStep(cfg, s1, AttemptStep(0, Next));
    var s3 := Snap(svc, Awaiting(0), [A(svc, true, Returned(Ended(CRASHED)), OperatorIntent, Stopped)],
                   true, false, NO_RESTARTS);
    assert Apply(cfg, s2, AttemptStep(0, Next)) == s3;
    LeadsByStep(cfg, s2, AttemptStep(0, Next));
    t := s3.(mains := map[svc.name := Finished]);
    assert Apply(cfg, s3, MainStep(svc.name, Advance)) == t;
    LeadsByStep(cfg, s3, MainStep(svc.name, Advance));
    LeadsOn(cfg, s1, s2, s3);
    LeadsOn(cfg, s1, s3, t);
  }

  // ----- a one-shot restarted by the operator -----

  lemma ToOperatorStop(svc: Service) returns (s: State)
    requires Solo(svc)
    ensures s == Alone(svc, Stop, OperatorIntent, Running, !svc.oneshot) && Reachable(Only(svc), s)
  {
    var cfg := Only(svc);
    var s0 := ToRunning(svc);
    var s1 := Alone(svc, Select, OperatorIntent, Running, !svc.oneshot);
    Take(cfg, s0, OperatorRestart(0), s1);
    var s2 := Alone(svc, Request, OperatorIntent, Running, !svc.oneshot);
    Take(cfg, s1, AttemptStep(0, ContextDone), s2);
    s := Alone(svc, Stop, OperatorIntent, Running, !svc.oneshot);
    Take(cfg, s2, AttemptStep(0, Next), s);
  }

  lemma ToKilled(svc: Service) returns (s: State)
    requires Solo(svc)
    ensures s == Alone(svc, Remove(KILLED), OperatorIntent, Stopping, !svc.oneshot) && Reachable(Only(svc), s)
  {
    var cfg := Only(svc);
    var s0 := ToOperatorStop(svc);
    var s1 := Alone(svc, Reap, OperatorIntent, Stopping, !svc.oneshot);
    Take(cfg, s0, AttemptStep(0, Next), s1);
    var s2 := Alone(svc, Finish(true), OperatorIntent, Stopping, !svc.oneshot);
    Take(cfg, s1, AttemptStep(0, ProcessExit(true)), s2);
    s := Alone(svc, Remove(KILLED), OperatorIntent, Stopping, !svc.oneshot);
    Take(cfg, s2, AttemptStep(0, Next), s);
  }

  /** The first run is over; attempt 1 is the restart the operator asked for. */
  function Redo(svc: Service, m: Main, p: Phase, ready: bool): State {
    Snap(svc, m, [A(svc, true, Returned(Ended(KILLED)), OperatorIntent, Stopped), A(svc, false, p, NoIntent, Pending)],
         ready, false, Restarts(map[], map[svc.name := 1]))
  }

  lemma ToRedo(svc: Service) returns (s: State)
    requires Solo(svc)
    ensures s == Redo(svc, Awaiting(0), Pre(Timer), !svc.oneshot) && Reachable(Only(svc), s)
  {
    var cfg := Only(svc);
    var s0 := ToKilled(svc);
    var s1 := Snap(svc, Awaiting(0), [A(svc, true, Post(Reset, KILLED), OperatorIntent, Stopped)],
                   !svc.oneshot, false, NO_RESTARTS);
    Take(cfg, s0, AttemptStep(0, Next), s1);
    var s2 := Snap(svc, Awaiting(0), [A(svc, true, Post(Schedule, KILLED), OperatorIntent, Stopped)],
                   !svc.oneshot, false, Restarts(map[], map[svc.name := 1]));
    Take(cfg, s1, AttemptStep(0, Next), s2);
    s := Redo(svc, Awaiting(0), Pre(Timer), !svc.oneshot);
    Take(cfg, s2, AttemptStep(0, Next), s);
  }

  /** The service is marked ready, but no process of it has exited cleanly and none is running. */
  predicate ReadyTooEarly(s: State, n: Name) {
    && n in s.deps.ready && !s.down.cancelled
    && forall i :: 0 <= i < |s.attempts| ==>
         s.attempts[i].phase == Pre(Timer)
         || (s.attempts[i].phase.Returned? && s.attempts[i].phase.outcome.Ended?
             && s.attempts[i].phase.outcome.exit.failed)
  }

  /**
   A one-shot that the operator restarts is marked ready although it never exited cleanly. This is the
   only way: without that request it is ready exactly after a clean exit (Outcomes.OneshotReadyExactly).
   */
  lemma RestartedOneshotIsReady(svc: Service)
    requires Solo(svc) && svc.oneshot && !svc.restart.Unknown? && !svc.RestartsOnFailure()
    ensures WellFormed(Only(svc)) && exists s :: Reachable(Only(svc), s) && ReadyTooEarly(s, svc.name)
  {
    SoloWellFormed(svc);
    var s0 := ToRedo(svc);
    var s := Redo(svc, Finished, Pre(Timer), true);
    Take(Only(svc), s0, MainStep(svc.name, Advance), s);
    assert ReadyTooEarly(s, svc.name);
  }

  /**
   A required service without a restart policy and without dependencies: one operator restart that does
   not start leaves it gone for good, and the supervisor at rest with exit code 0.
   */
  lemma OperatorRestartIsSilent(svc: Service)
    requires Solo(svc) && svc.required && !svc.oneshot && !svc.restart.Unknown? && !svc.RestartsOnFailure()
    ensures WellFormed(Only(svc)) && ExitStatus.Safe(Only(svc))
    ensures exists s :: Reachable(Only(svc), s) && SilentEnd(s, svc.name)
  {
    var cfg := Only(svc);
    SoloWellFormed(svc);
    var s0 := ToRedo(svc);
    var s1 := Redo(svc, Finished, Pre(Timer), true);
    Take(cfg, s0, MainStep(svc.name, Advance), s1);
    var s2 := Redo(svc, Finished, Pre(Fired), true);
    Take(cfg, s1, AttemptStep(1, Next), s2);
    var s3 := ToSilence(svc, s2);
    assert SilentEnd(s3, svc.name);
  }

  lemma ToSilence(svc: Service, s: State) returns (t: State)
    requires Reachable(Only(svc), s) && s == Redo(svc, Finished, Pre(Fired), true)
    ensures Reachable(Only(svc), t) && t == Redo(svc, Finished, Returned(StartError), true) && Last(t, 1)
  {
    var cfg := Only(svc);
    var s1 := Redo(svc, Finished, Pre(Check), true);
    Take(cfg, s, AttemptStep(1, Next), s1);
    var s2 := Redo(svc, Finished, Pre(Launch), true);
    Take(cfg, s1, AttemptStep(1, Next), s2);
    t := Redo(svc, Finished, Returned(StartError), true);
    Take(cfg, s2, AttemptStep(1, Started(false)), t);
  }

  // ----- a start in flight -----

  /** A completed shutdown can leave a process behind: a start has passed its shutdown check in time. */
  lemma LateStartEscapes(svc: Service)
    requires Solo(svc)
    ensures exists s :: Reachable(Only(svc), s) && s.down.once.Closing? && !Drain.LeavesNothing(Only(svc), s)
  {
    var cfg := Only(svc);
    var s0 := ToFirstStart(svc);
    var s1 := Snap(svc, Awaiting(0), [A(svc, true, Pre(Launch), NoIntent, Pending)], false, false, NO_RESTARTS);
    Take(cfg, s0, AttemptStep(0, Next), s1);
    var s2 := s1.(down := Shutdown(false, Idle, false, 0, Handling));
    Take(cfg, s1, SignalStep, s2);
    var s3 := s1.(down := Shutdown(false, Begin(SignalCaller), false, 0, Handling));
    Take(cfg, s2, OnceStep(Enter(SignalCaller)), s3);
    var s := s1.(down := Shutdown(true, Closing(SignalCaller), false, 0, Handling));
    Take(cfg, s3, OnceStep(Proceeds), s);
    assert Drain.InFlight(s.attempts[0].phase);
    Drain.ShutdownLeavesNothingExactly(cfg, s);
  }
}
