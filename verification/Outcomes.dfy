/** What a run guarantees about one-shot dependencies and about the exit code of the supervisor. */
module Outcomes {
  import opened Config
  import opened Supervisor
  import opened Invariant
  import opened Lifecycle

  // ----- one-shot dependencies have completed -----

  /** The first run of `d` exited cleanly by itself, or an operator restart cut it short. */
  predicate Completed(a: Attempt, d: Name) {
    a.name == d && a.first && a.phase.Returned? && a.phase.outcome.Ended?
    && (a.phase.outcome.exit == Exit(NoIntent, false) || a.phase.outcome.exit.intent.OperatorIntent?)
  }

  ghost predicate FirstDone(s: State, d: Name) {
    exists i :: 0 <= i < |s.attempts| && Completed(s.attempts[i], d)
  }

  /** `startService` got past its shutdown check. */
  predicate PastCheck(p: Phase) { p.Launched() || p == Pre(Launch) || p == Returned(StartError) }

  ghost predicate OneshotsDone(cfg: Services, s: State, n: Name) {
    n in cfg && forall d :: d in cfg[n].dependsOn && d in cfg && cfg[d].oneshot ==> FirstDone(s, d)
  }

  /** A one-shot is marked ready only after a completed first run, or once the shutdown is on. */
  ghost predicate OneshotInv(cfg: Services, s: State) {
    && (forall d :: d in s.deps.ready && d in cfg && cfg[d].oneshot ==> s.down.cancelled || FirstDone(s, d))
    && (forall i :: 0 <= i < |s.attempts| && PastCheck(s.attempts[i].phase) ==>
          OneshotsDone(cfg, s, s.attempts[i].name))
  }

  lemma DoneStays(s: State, t: State, d: Name)
    requires AllForward(s, t) && FirstDone(s, d)
    ensures FirstDone(t, d)
  {
    var i :| 0 <= i < |s.attempts| && Completed(s.attempts[i], d);
    assert Forward(s.attempts[i], t.attempts[i]);
    assert Completed(t.attempts[i], d);
  }

  /** The shutdown check of attempt `j` is passed by this step: no shutdown, dependencies ready. */
  ghost predicate PassesCheck(cfg: Services, s: State, j: nat) {
    j < |s.attempts| && !s.down.cancelled && DepsReady(cfg, s, s.attempts[j].name)
  }

  lemma OneshotFrom(cfg: Services, s: State, t: State)
    requires OneshotInv(cfg, s) && AllForward(s, t) && (s.down.cancelled ==> t.down.cancelled)
    requires forall d :: d in t.deps.ready && d in cfg && cfg[d].oneshot && d !in s.deps.ready ==>
               t.down.cancelled || FirstDone(t, d)
    requires forall j :: 0 <= j < |t.attempts| && PastCheck(t.attempts[j].phase) ==>
               j < |s.attempts| && (PastCheck(s.attempts[j].phase) || PassesCheck(cfg, s, j))
    ensures OneshotInv(cfg, t)
  {
    forall d | d in t.deps.ready && d in cfg && cfg[d].oneshot && !t.down.cancelled ensures FirstDone(t, d) {
      if d in s.deps.ready { DoneStays(s, t, d); }
    }
    forall j | 0 <= j < |t.attempts| && PastCheck(t.attempts[j].phase)
      ensures OneshotsDone(cfg, t, t.attempts[j].name)
    {
      assert Forward(s.attempts[j], t.attempts[j]);
      var n := s.attempts[j].name;
      assert PastCheck(s.attempts[j].phase) ==> OneshotsDone(cfg, s, n);
      forall d | d in cfg[n].dependsOn && d in cfg && cfg[d].oneshot ensures FirstDone(t, d) {
        DoneStays(s, t, d);
      }
    }
  }

  lemma NextPastCheck(svc: Service, cancelled: bool, count: int, a: Attempt, ev: AttemptEvent)
    ensures PastCheck(AttemptNext(svc, cancelled, count, a, ev).phase) ==> PastCheck(a.phase) || !cancelled
  {
  }

  lemma NewIsEarly(n: Name)
    ensures !PastCheck(NewAttempt(n, false).phase)
  {
  }

  lemma AttemptKeepsOneshot(cfg: Services, s: State, t: State, i: nat, ev: AttemptEvent)
    requires Inv(cfg, s) && OneshotInv(cfg, s) && AttemptEnabled(cfg, s, i, ev) && t == AttemptApply(cfg, s, i, ev)
    requires AllForward(s, t)
    ensures OneshotInv(cfg, t)
  {
    hide Inv, AllForward, OneshotInv, PastCheck;
    var a := s.attempts[i];
    AttemptEffect(cfg, s, i, ev);
    NextPastCheck(cfg[a.name], s.down.cancelled, s.restarts.Of(a.name), a, ev);
    InvStarted(cfg, s, i);
    AttemptReady(cfg, s, i, ev);
    NewIsEarly(a.name);
    OneshotFrom(cfg, s, t);
  }

  lemma AttemptReady(cfg: Services, s: State, i: nat, ev: AttemptEvent)
    requires AttemptEnabled(cfg, s, i, ev)
    ensures AttemptApply(cfg, s, i, ev).down.cancelled == s.down.cancelled
    ensures forall d :: d in AttemptApply(cfg, s, i, ev).deps.ready && d in cfg && cfg[d].oneshot ==> d in s.deps.ready
  {
  }

  /** `processService` marks a one-shot ready: its only run was clean, operator-restarted, or shut down. */
  lemma SettleKeepsOneshot(cfg: Services, s: State, t: State, n: Name, i: nat)
    requires WellFormed(cfg) && OneshotInv(cfg, s) && MainOk(cfg, s, n) && s.mains[n] == Awaiting(i)
    requires s.attempts[i].phase.Returned? && AttemptOk(cfg[n], s.down.cancelled, s.attempts[i])
    requires t == SettleApply(cfg[n], s, n, s.attempts[i].phase.outcome) && AllForward(s, t)
    ensures OneshotInv(cfg, t)
  {
    var a := s.attempts[i];
    if cfg[n].oneshot && n in t.deps.ready && !t.down.cancelled && n !in s.deps.ready {
      assert Completed(t.attempts[i], n);
    }
    OneshotFrom(cfg, s, t);
  }

  lemma MainKeepsOneshot(cfg: Services, s: State, t: State, n: Name, ev: MainEvent)
    requires WellFormed(cfg) && Inv(cfg, s) && OneshotInv(cfg, s) && MainEnabled(cfg, s, n, ev)
    requires t == MainApply(cfg, s, n, ev) && AllForward(s, t)
    ensures OneshotInv(cfg, t)
  {
    if s.mains[n].Awaiting? {
      assert MainOk(cfg, s, n);
      SettleKeepsOneshot(cfg, s, t, n, s.mains[n].attempt);
    } else {
      OneshotFrom(cfg, s, t);
    }
  }

  lemma StepKeepsOneshot(cfg: Services, s: State, t: State, step: Step)
    requires WellFormed(cfg) && Inv(cfg, s) && OneshotInv(cfg, s) && Enabled(cfg, s, step) && t == Apply(cfg, s, step)
    ensures OneshotInv(cfg, t)
  {
    hide Inv, WellFormed, AllForward, OneshotInv;
    StepForward(cfg, s, step);
    match step {
      case AttemptStep(i, ev) => AttemptKeepsOneshot(cfg, s, t, i, ev);
      case MainStep(n, ev) => MainKeepsOneshot(cfg, s, t, n, ev);
      case HealthStep(_, _) => OneshotFrom(cfg, s, t);
      case OperatorRestart(_) => OneshotFrom(cfg, s, t);
      case SignalStep => OneshotFrom(cfg, s, t);
      case OnceStep(_) => OneshotFrom(cfg, s, t);
    }
  }

  lemma {:induction false} RunKeepsOneshot(cfg: Services, s: State, steps: seq<Step>)
    requires WellFormed(cfg) && Inv(cfg, s) && OneshotInv(cfg, s) && Runs(cfg, s, steps)
    ensures OneshotInv(cfg, Exec(cfg, s, steps))
    decreases |steps|
  {
    if steps != [] {
      var t := Apply(cfg, s, steps[0]);
      StepKeepsInv(cfg, s, steps[0]);
      StepKeepsOneshot(cfg, s, t, steps[0]);
      RunKeepsOneshot(cfg, t, steps[1..]);
    }
  }

  /**
   If a process of a service was ever started, the first run of each one-shot it depends on exited
   cleanly, unless an operator restart hit that run. A shutdown may mark a one-shot ready without
   success, but then the dependent's own shutdown check keeps its process from starting.
   */
  lemma OneshotDependenciesCompleted(cfg: Services, s: State, i: nat, d: Name)
    requires WellFormed(cfg) && Reachable(cfg, s) && i < |s.attempts| && s.attempts[i].phase.Launched()
    requires s.attempts[i].name in cfg && d in cfg[s.attempts[i].name].dependsOn && d in cfg && cfg[d].oneshot
    ensures exists j :: 0 <= j < |s.attempts| && Completed(s.attempts[j], d)
  {
    ReachableOneshots(cfg, s);
    assert OneshotsDone(cfg, s, s.attempts[i].name);
    assert FirstDone(s, d);
  }

  // ----- a one-shot is ready exactly when its first run completed -----

  /** A failed one-shot is over: its first run, if any, has returned and did not complete. */
  ghost predicate FirstFailed(s: State, d: Name) {
    d in s.mains && !s.mains[d].Before? && !s.mains[d].Awaiting? &&
    forall j :: 0 <= j < |s.attempts| && s.attempts[j].name == d && s.attempts[j].first ==>
      s.attempts[j].phase.Returned? && !Completed(s.attempts[j], d)
  }

  ghost predicate FailedInv(cfg: Services, s: State) {
    forall d :: d in s.deps.failed && d in cfg && cfg[d].oneshot ==> FirstFailed(s, d)
  }

  /** `processService` of `d` does not go back, and no second first attempt appears. */
  ghost predicate FirstKept(s: State, t: State, d: Name) {
    && (d in s.mains && !s.mains[d].Before? && !s.mains[d].Awaiting? ==>
          d in t.mains && !t.mains[d].Before? && !t.mains[d].Awaiting?)
    && (forall j :: |s.attempts| <= j < |t.attempts| && t.attempts[j].name == d ==> !t.attempts[j].first)
  }

  lemma FailedStays(s: State, t: State, d: Name)
    requires AllForward(s, t) && FirstFailed(s, d) && FirstKept(s, t, d)
    ensures FirstFailed(t, d)
  {
    forall j | 0 <= j < |t.attempts| && t.attempts[j].name == d && t.attempts[j].first
      ensures t.attempts[j].phase.Returned? && !Completed(t.attempts[j], d)
    {
      assert Forward(s.attempts[j], t.attempts[j]);
    }
  }

  lemma FailedFrom(cfg: Services, s: State, t: State)
    requires FailedInv(cfg, s) && AllForward(s, t)
    requires forall d :: d in t.deps.failed && d in cfg && cfg[d].oneshot ==>
               if d in s.deps.failed then FirstKept(s, t, d) else FirstFailed(t, d)
    ensures FailedInv(cfg, t)
  {
    forall d | d in t.deps.failed && d in cfg && cfg[d].oneshot ensures FirstFailed(t, d) {
      if d in s.deps.failed { FailedStays(s, t, d); }
    }
  }

  lemma AttemptKeepsFailed(cfg: Services, s: State, t: State, i: nat, ev: AttemptEvent)
    requires Inv(cfg, s) && FailedInv(cfg, s) && AttemptEnabled(cfg, s, i, ev) && t == AttemptApply(cfg, s, i, ev)
    requires AllForward(s, t) && t.deps.failed == s.deps.failed
    ensures FailedInv(cfg, t)
  {
    AttemptEffect(cfg, s, i, ev);
    assert forall j :: |s.attempts| <= j < |t.attempts| ==> !t.attempts[j].first;
    FailedFrom(cfg, s, t);
  }

  lemma AttemptFails(cfg: Services, s: State, i: nat, ev: AttemptEvent)
    requires AttemptEnabled(cfg, s, i, ev)
    ensures AttemptApply(cfg, s, i, ev).deps.failed == s.deps.failed
  {
  }

  lemma MoveKeepsFailed(cfg: Services, s: State, t: State, n: Name, m: Main, appended: seq<Attempt>)
    requires FailedInv(cfg, s) && AllForward(s, t) && n in cfg
    requires t.mains == s.mains[n := m] && t.attempts == s.attempts + appended
    requires t.deps.failed == s.deps.failed || t.deps.failed == s.deps.failed + {n}
    requires forall c :: c in appended ==> c.name == n
    requires n in t.deps.failed && cfg[n].oneshot ==> FirstFailed(t, n)
    ensures FailedInv(cfg, t)
  {
    forall d | d in t.deps.failed && d in cfg && cfg[d].oneshot
      ensures if d in s.deps.failed && d != n then FirstKept(s, t, d) else FirstFailed(t, d)
    {
      if d != n {
        forall j | |s.attempts| <= j < |t.attempts| ensures t.attempts[j].name != d {
          assert t.attempts[j] == appended[j - |s.attempts|];
        }
      }
    }
    forall d | d in t.deps.failed && d in cfg && cfg[d].oneshot ensures FirstFailed(t, d) {
      if d != n { FailedStays(s, t, d); }
    }
  }

  lemma SettleFailed(cfg: Services, s: State, t: State, n: Name, i: nat)
    requires Lineage(s) && MainOk(cfg, s, n) && s.mains[n] == Awaiting(i) && s.attempts[i].phase.Returned?
    requires t == SettleApply(cfg[n], s, n, s.attempts[i].phase.outcome) && n in t.deps.failed
    ensures FirstFailed(t, n)
  {
    forall j | 0 <= j < |s.attempts| && s.attempts[j].name == n && s.attempts[j].first ensures j == i {
    }
  }

  lemma MainKeepsFailed(cfg: Services, s: State, t: State, n: Name, ev: MainEvent)
    requires Inv(cfg, s) && FailedInv(cfg, s) && MainEnabled(cfg, s, n, ev) && t == MainApply(cfg, s, n, ev)
    requires AllForward(s, t)
    ensures FailedInv(cfg, t)
  {
    assert MainOk(cfg, s, n);
    match s.mains[n] {
      case Before(stage) => MoveKeepsFailed(cfg, s, t, n, t.mains[n], t.attempts[|s.attempts|..]);
      case Awaiting(i) =>
        if n in t.deps.failed {
          SettleFailed(cfg, s, t, n, i);
        }
        MoveKeepsFailed(cfg, s, t, n, t.mains[n], []);
      case ErrTrigger => MoveKeepsFailed(cfg, s, t, n, ErrOnce, []);
      case ErrOnce => MoveKeepsFailed(cfg, s, t, n, Finished, []);
      case Finished =>
    }
  }

  lemma StepKeepsFailed(cfg: Services, s: State, t: State, step: Step)
    requires Inv(cfg, s) && FailedInv(cfg, s) && Enabled(cfg, s, step) && t == Apply(cfg, s, step)
    ensures FailedInv(cfg, t)
  {
    StepForward(cfg, s, step);
    match step {
      case AttemptStep(i, ev) =>
        AttemptFails(cfg, s, i, ev);
        AttemptKeepsFailed(cfg, s, t, i, ev);
      case MainStep(n, ev) => MainKeepsFailed(cfg, s, t, n, ev);
      case HealthStep(_, _) => FailedFrom(cfg, s, t);
      case OperatorRestart(_) => FailedFrom(cfg, s, t);
      case SignalStep => FailedFrom(cfg, s, t);
      case OnceStep(_) => FailedFrom(cfg, s, t);
    }
  }

  lemma {:induction false} RunKeepsFailed(cfg: Services, s: State, steps: seq<Step>)
    requires Inv(cfg, s) && FailedInv(cfg, s) && Runs(cfg, s, steps)
    ensures FailedInv(cfg, Exec(cfg, s, steps))
    decreases |steps|
  {
    if steps != [] {
      var t := Apply(cfg, s, steps[0]);
      StepKeepsInv(cfg, s, steps[0]);
      StepKeepsFailed(cfg, s, t, steps[0]);
      RunKeepsFailed(cfg, t, steps[1..]);
    }
  }

  lemma ReachableOneshots(cfg: Services, s: State)
    requires WellFormed(cfg) && Reachable(cfg, s)
    ensures OneshotInv(cfg, s) && FailedInv(cfg, s)
  {
    var steps :| Runs(cfg, Init(cfg), steps) && Exec(cfg, Init(cfg), steps) == s;
    InitInv(cfg);
    RunKeepsOneshot(cfg, Init(cfg), steps);
    RunKeepsFailed(cfg, Init(cfg), steps);
  }

  /**
   Before a shutdown, a one-shot whose `processService` has returned is marked ready exactly when its
   first run completed, and failed exactly when it did not.
   */
  lemma OneshotReadyExactly(cfg: Services, s: State, d: Name)
    requires WellFormed(cfg) && Reachable(cfg, s) && !s.down.cancelled
    requires d in cfg && cfg[d].oneshot && d in s.mains && s.mains[d].Finished?
    ensures d in s.deps.ready <==> exists i :: 0 <= i < |s.attempts| && Completed(s.attempts[i], d)
    ensures d in s.deps.failed <==> !exists i :: 0 <= i < |s.attempts| && Completed(s.attempts[i], d)
  {
    ReachableOneshots(cfg, s);
    ReachableMarks(cfg, s, d);
    if d in s.deps.ready {
      assert FirstDone(s, d);
    } else {
      assert FirstFailed(s, d);
    }
  }

  lemma ReachableMarks(cfg: Services, s: State, d: Name)
    requires Reachable(cfg, s) && d in cfg && d in s.mains && s.mains[d].Finished? && !s.down.cancelled
    ensures d in s.deps.ready <==> d !in s.deps.failed
  {
    ReachableInv(cfg, s);
    assert MainOk(cfg, s, d);
  }

  // ----- exit code -----

  /** A failing exit nobody asked for, or an unhealthy stop: what `required` is about. */
  predicate FailureExit(e: Exit) { e.intent.PolicyIntent? || (e.intent.NoIntent? && e.failed) }

  /** A crash nobody asked for, and a process that an operator restart has killed. */
  const CRASHED := Exit(NoIntent, true)
  const KILLED := Exit(OperatorIntent, true)

  /** The newest attempt of the service: no restart was scheduled after it. */
  ghost predicate Last(s: State, i: nat) {
    i < |s.attempts| && forall j :: i < j < |s.attempts| ==> s.attempts[j].name != s.attempts[i].name
  }

  /**
   What one attempt owes to the exit code, given whether `processService` waits for it or has returned,
   and whether it is the newest of its service.
   */
  predicate Reported(svc: Service, awaited: bool, finished: bool, last: bool, exitCode: int, a: Attempt) {
    && (a.phase.Post? && a.phase.post.InOnce? ==> exitCode == 1)
    && (a.health.InShutdown? ==> exitCode == 1)
    && (a.first && !a.phase.Returned? ==> awaited)
    && (a.phase.Returned? ==>
          match a.phase.outcome
          case Skipped => true
          case StartError => svc.required && a.first && finished ==> exitCode == 1
          case Ended(e) => svc.required && FailureExit(e) && (last || !svc.RestartsOnFailure()) ==> exitCode == 1)
  }

  /** Every failure of a required service that was not answered by a restart is in the exit code. */
  ghost predicate FailureReported(cfg: Services, s: State, i: nat) {
    i < |s.attempts| && s.attempts[i].name in cfg && s.attempts[i].name in s.mains &&
    var m := s.mains[s.attempts[i].name];
    Reported(cfg[s.attempts[i].name], m == Awaiting(i), m.Finished?, Last(s, i), s.down.exitCode, s.attempts[i])
  }

  ghost predicate MainReported(s: State, n: Name) {
    n in s.mains && (s.mains[n] == Before(PreOnce) || s.mains[n].ErrOnce? ==> s.down.exitCode == 1)
  }

  ghost predicate ExitInv(cfg: Services, s: State) {
    && (forall i :: 0 <= i < |s.attempts| ==> FailureReported(cfg, s, i))
    && (forall n :: n in cfg ==> MainReported(s, n))
  }

  lemma LastBefore(s: State, t: State, k: nat)
    requires k < |s.attempts| <= |t.attempts|
    requires forall j :: 0 <= j < |s.attempts| ==> t.attempts[j].name == s.attempts[j].name
    ensures Last(t, k) ==> Last(s, k)
  {
    if Last(t, k) {
      forall j | k < j < |s.attempts| ensures s.attempts[j].name != s.attempts[k].name {
        assert t.attempts[j].name != t.attempts[k].name;
      }
    }
  }

  lemma ExitPut(cfg: Services, s: State, t: State, i: nat, b: Attempt)
    requires ExitInv(cfg, s) && i < |s.attempts| && t.attempts == s.attempts[i := b] && t.mains == s.mains
    requires b.name == s.attempts[i].name && b.first == s.attempts[i].first
    requires s.down.exitCode == 1 ==> t.down.exitCode == 1
    requires FailureReported(cfg, t, i)
    ensures ExitInv(cfg, t)
  {
    forall k | 0 <= k < |t.attempts| ensures FailureReported(cfg, t, k) {
      assert FailureReported(cfg, s, k);
      LastBefore(s, t, k);
    }
    forall n | n in cfg ensures MainReported(t, n) { assert MainReported(s, n); }
  }

  lemma ExitAppend(cfg: Services, s: State, t: State, i: nat, b: Attempt, n: Name)
    requires ExitInv(cfg, s) && i < |s.attempts| && t.mains == s.mains && t.down.exitCode == s.down.exitCode
    requires t.attempts == s.attempts[i := b] + [NewAttempt(n, false)]
    requires b.name == s.attempts[i].name == n && b.first == s.attempts[i].first && b.phase.Returned?
    requires b.phase.outcome.Ended? && b.health == s.attempts[i].health
    requires n in cfg && (FailureExit(b.phase.outcome.exit) ==> cfg[n].RestartsOnFailure())
    ensures ExitInv(cfg, t)
  {
    assert FailureReported(cfg, s, i);
    assert t.attempts[|s.attempts|].name == n;
    forall k | 0 <= k < |t.attempts| ensures FailureReported(cfg, t, k) {
      if k < |s.attempts| {
        assert FailureReported(cfg, s, k);
        LastBefore(s, t, k);
      }
    }
    forall m | m in cfg ensures MainReported(t, m) { assert MainReported(s, m); }
  }

  lemma LiveReported(svc: Service, awaited: bool, finished: bool, last: bool, last': bool, exitCode: int,
                     exitCode': int, a: Attempt, p: LivePhase, ev: AttemptEvent)
    requires a.phase == Live(p) && Reported(svc, awaited, finished, last, exitCode, a)
    requires exitCode' == 1 || exitCode' == exitCode
    ensures Reported(svc, awaited, finished, last', exitCode', LiveNext(svc, a, p, ev))
  {
  }

  lemma PostReported(svc: Service, count: int, awaited: bool, finished: bool, last: bool, last': bool, exitCode: int,
                     exitCode': int, a: Attempt, p: PostPhase, e: Exit)
    requires a.phase == Post(p, e) && !p.Schedule? && PostOk(svc, a, p, e)
    requires Reported(svc, awaited, finished, last, exitCode, a)
    requires exitCode' == 1 || (exitCode' == exitCode && !p.Trigger?)
    ensures Reported(svc, awaited, finished, last', exitCode', a.(phase := PostNext(svc, count, p, e)))
  {
  }

  /** A step of the attempt itself reports what it has to, whatever happens to the other attempts. */
  lemma NextReported(svc: Service, cancelled: bool, count: int, awaited: bool, finished: bool, last: bool, last': bool,
                     exitCode: int, exitCode': int, a: Attempt, ev: AttemptEvent)
    requires !a.phase.Returned? && !Schedules(a.phase) && AttemptOk(svc, cancelled, a)
    requires Reported(svc, awaited, finished, last, exitCode, a) && (a.first ==> !finished)
    requires exitCode' == 1 || (exitCode' == exitCode && !(a.phase.Post? && a.phase.post.Trigger?))
    ensures Reported(svc, awaited, finished, last', exitCode', AttemptNext(svc, cancelled, count, a, ev))
  {
    match a.phase {
      case Pre(_) =>
      case Register =>
      case Live(p) => LiveReported(svc, awaited, finished, last, last', exitCode, exitCode', a, p, ev);
      case Post(p, e) => PostReported(svc, count, awaited, finished, last, last', exitCode, exitCode', a, p, e);
    }
  }

  lemma AttemptExitCode(cfg: Services, s: State, i: nat, ev: AttemptEvent)
    requires AttemptEnabled(cfg, s, i, ev) && (s.down.exitCode == 0 || s.down.exitCode == 1)
    ensures AttemptApply(cfg, s, i, ev).down.exitCode ==
            if s.attempts[i].phase.Post? && s.attempts[i].phase.post.Trigger? then 1 else s.down.exitCode
  {
  }

  lemma ReportedOf(cfg: Services, s: State, i: nat)
    requires Inv(cfg, s) && ExitInv(cfg, s) && i < |s.attempts|
    ensures FailureReported(cfg, s, i) && AttemptOk(cfg[s.attempts[i].name], s.down.cancelled, s.attempts[i])
    ensures s.down.exitCode == 0 || s.down.exitCode == 1
    ensures s.attempts[i].first && !s.attempts[i].phase.Returned? ==> !s.mains[s.attempts[i].name].Finished?
  {
    assert FailureReported(cfg, s, i);
  }

  lemma ScheduledFailure(svc: Service, cancelled: bool, a: Attempt)
    requires AttemptOk(svc, cancelled, a) && Schedules(a.phase)
    ensures FailureExit(a.phase.exit) ==> svc.RestartsOnFailure()
  {
  }

  lemma AttemptKeepsExit(cfg: Services, s: State, t: State, i: nat, ev: AttemptEvent)
    requires Inv(cfg, s) && ExitInv(cfg, s) && AttemptEnabled(cfg, s, i, ev) && t == AttemptApply(cfg, s, i, ev)
    ensures ExitInv(cfg, t)
  {
    hide Inv, ExitInv, AttemptOk, Reported, Last;
    ReportedOf(cfg, s, i);
    var a := s.attempts[i];
    var b := AttemptNext(cfg[a.name], s.down.cancelled, s.restarts.Of(a.name), a, ev);
    AttemptEffect(cfg, s, i, ev);
    AttemptExitCode(cfg, s, i, ev);
    if Schedules(a.phase) {
      ScheduledFailure(cfg[a.name], s.down.cancelled, a);
      ExitAppend(cfg, s, t, i, b, a.name);
    } else {
      NextReported(cfg[a.name], s.down.cancelled, s.restarts.Of(a.name), s.mains[a.name] == Awaiting(i),
                   s.mains[a.name].Finished?, Last(s, i), Last(t, i), s.down.exitCode, t.down.exitCode, a, ev);
      ExitPut(cfg, s, t, i, b);
    }
  }

  /** `processService` moves on once none of its attempts is waited for. */
  lemma ExitMove(cfg: Services, s: State, t: State, n: Name, m: Main)
    requires ExitInv(cfg, s) && n in cfg && t.attempts == s.attempts && t.mains == s.mains[n := m]
    requires s.down.exitCode == 1 ==> t.down.exitCode == 1
    requires m == Before(PreOnce) || m.ErrOnce? ==> t.down.exitCode == 1
    requires forall k :: 0 <= k < |s.attempts| && s.attempts[k].name == n && s.attempts[k].first ==>
               && s.attempts[k].phase.Returned?
               && (m.Finished? && cfg[n].required && s.attempts[k].phase.outcome.StartError? ==> t.down.exitCode == 1)
    ensures ExitInv(cfg, t)
  {
    forall k | 0 <= k < |t.attempts| ensures FailureReported(cfg, t, k) {
      assert FailureReported(cfg, s, k);
      LastBefore(s, t, k);
    }
    forall o | o in cfg ensures MainReported(t, o) { assert MainReported(s, o); }
  }

  lemma ExitStart(cfg: Services, s: State, t: State, n: Name)
    requires ExitInv(cfg, s) && n in cfg && NoAttempts(s, n) && t.down.exitCode == s.down.exitCode
    requires t.attempts == s.attempts + [NewAttempt(n, true)] && t.mains == s.mains[n := Awaiting(|s.attempts|)]
    ensures ExitInv(cfg, t)
  {
    forall k | 0 <= k < |t.attempts| ensures FailureReported(cfg, t, k) {
      if k < |s.attempts| {
        assert FailureReported(cfg, s, k);
        LastBefore(s, t, k);
      }
    }
    forall o | o in cfg ensures MainReported(t, o) { assert MainReported(s, o); }
  }

  lemma FirstsReturned(cfg: Services, s: State, n: Name)
    requires ExitInv(cfg, s) && Lineage(s) && MainOk(cfg, s, n) && !s.mains[n].Before?
    requires s.mains[n].Awaiting? ==> s.attempts[s.mains[n].attempt].phase.Returned?
    ensures forall k :: 0 <= k < |s.attempts| && s.attempts[k].name == n && s.attempts[k].first ==>
              && s.attempts[k].phase.Returned?
              && (s.mains[n].Awaiting? ==> k == s.mains[n].attempt)
  {
    forall k | 0 <= k < |s.attempts| && s.attempts[k].name == n && s.attempts[k].first
      ensures s.attempts[k].phase.Returned? && (s.mains[n].Awaiting? ==> k == s.mains[n].attempt)
    {
      assert FailureReported(cfg, s, k);
    }
  }

  lemma MainKeepsExit(cfg: Services, s: State, t: State, n: Name, ev: MainEvent)
    requires Inv(cfg, s) && ExitInv(cfg, s) && MainEnabled(cfg, s, n, ev) && t == MainApply(cfg, s, n, ev)
    ensures ExitInv(cfg, t)
  {
    assert MainOk(cfg, s, n) && MainReported(s, n);
    if s.mains[n].Before? {
      if t.attempts == s.attempts {
        ExitMove(cfg, s, t, n, t.mains[n]);
      } else {
        ExitStart(cfg, s, t, n);
      }
    } else {
      FirstsReturned(cfg, s, n);
      ExitMove(cfg, s, t, n, t.mains[n]);
    }
  }

  lemma HealthKeepsExit(cfg: Services, s: State, t: State, i: nat, ev: HealthEvent)
    requires Inv(cfg, s) && ExitInv(cfg, s) && HealthEnabled(cfg, s, i, ev) && t == HealthApply(cfg, s, i, ev)
    ensures ExitInv(cfg, t)
  {
    assert FailureReported(cfg, s, i);
    LastBefore(s, t, i);
    ExitPut(cfg, s, t, i, t.attempts[i]);
  }

  lemma StepKeepsExit(cfg: Services, s: State, t: State, step: Step)
    requires Inv(cfg, s) && ExitInv(cfg, s) && Enabled(cfg, s, step) && t == Apply(cfg, s, step)
    ensures ExitInv(cfg, t)
  {
    match step {
      case MainStep(n, ev) => MainKeepsExit(cfg, s, t, n, ev);
      case AttemptStep(i, ev) => AttemptKeepsExit(cfg, s, t, i, ev);
      case HealthStep(i, ev) => HealthKeepsExit(cfg, s, t, i, ev);
      case OperatorRestart(i) =>
        assert FailureReported(cfg, s, i);
        LastBefore(s, t, i);
        ExitPut(cfg, s, t, i, t.attempts[i]);
      case SignalStep => SameKeepsExit(cfg, s, t);
      case OnceStep(_) => SameKeepsExit(cfg, s, t);
    }
  }

  lemma SameKeepsExit(cfg: Services, s: State, t: State)
    requires ExitInv(cfg, s) && t.attempts == s.attempts && t.mains == s.mains && t.down.exitCode == s.down.exitCode
    ensures ExitInv(cfg, t)
  {
    forall k | 0 <= k < |t.attempts| ensures FailureReported(cfg, t, k) {
      assert FailureReported(cfg, s, k);
      LastBefore(s, t, k);
    }
    forall n | n in cfg ensures MainReported(t, n) { assert MainReported(s, n); }
  }

  lemma {:induction false} RunKeepsExit(cfg: Services, s: State, steps: seq<Step>)
    requires Inv(cfg, s) && ExitInv(cfg, s) && Runs(cfg, s, steps)
    ensures ExitInv(cfg, Exec(cfg, s, steps))
    decreases |steps|
  {
    if steps != [] {
      var t := Apply(cfg, s, steps[0]);
      StepKeepsInv(cfg, s, steps[0]);
      StepKeepsExit(cfg, s, t, steps[0]);
      RunKeepsExit(cfg, t, steps[1..]);
    }
  }

  lemma ReachableExit(cfg: Services, s: State)
    requires Reachable(cfg, s)
    ensures ExitInv(cfg, s)
  {
    var steps :| Runs(cfg, Init(cfg), steps) && Exec(cfg, Init(cfg), steps) == s;
    InitInv(cfg);
    RunKeepsExit(cfg, Init(cfg), steps);
  }

  /**
   A finished attempt of a required service that failed on its own, was unhealthy, or did not start
   either has a successor, the restart, or has set the exit code to 1 for good.
   */
  lemma RequiredFailureIsReported(cfg: Services, s: State, i: nat)
    requires Reachable(cfg, s) && i < |s.attempts| && s.attempts[i].name in cfg && cfg[s.attempts[i].name].required
    requires s.attempts[i].phase.Returned?
    ensures s.attempts[i].phase.outcome.Ended? ==>
              var e := s.attempts[i].phase.outcome.exit;
              (e.intent.PolicyIntent? || (e.intent.NoIntent? && e.failed)) && Last(s, i) ==> s.down.exitCode == 1
    ensures (s.attempts[i].phase.outcome.StartError? && s.attempts[i].first
             && s.attempts[i].name in s.mains && s.mains[s.attempts[i].name].Finished?) ==> s.down.exitCode == 1
  {
    ReachableExit(cfg, s);
    assert FailureReported(cfg, s, i);
  }

  /** The step that fails the supervisor: a required service gives up, or is found unhealthy. */
  predicate IsFailureStep(cfg: Services, s: State, step: Step) {
    match step
    case MainStep(n, _) =>
      n in cfg && n in s.mains && cfg[n].required && (s.mains[n] == Before(PreTrigger) || s.mains[n].ErrTrigger?)
    case AttemptStep(i, _) =>
      i < |s.attempts| && s.attempts[i].name in cfg && cfg[s.attempts[i].name].required
      && s.attempts[i].phase.Post? && s.attempts[i].phase.post.Trigger?
    case HealthStep(i, _) =>
      i < |s.attempts| && s.attempts[i].name in cfg && cfg[s.attempts[i].name].required && s.attempts[i].health.Alarm?
    case _ => false
  }

  /** The exit code is 0 or 1 and changes, from 0 to 1 only, exactly by the failure of a required service. */
  lemma ExitCodeOnlyByRequired(cfg: Services, s: State, step: Step)
    requires Reachable(cfg, s) && Enabled(cfg, s, step)
    ensures s.down.exitCode == 0 || s.down.exitCode == 1
    ensures Apply(cfg, s, step).down.exitCode == if IsFailureStep(cfg, s, step) then 1 else s.down.exitCode
  {
    ReachableInv(cfg, s);
    StepExitCode(cfg, s, step);
  }

  /** Once 1, the exit code stays 1 in every continuation, and a run that leaves it at 0 had no failure step. */
  lemma {:induction false} ExitCodeOverRuns(cfg: Services, s: State, steps: seq<Step>)
    requires Reachable(cfg, s) && Runs(cfg, s, steps)
    ensures Exec(cfg, s, steps).down.exitCode == if FailsIn(cfg, s, steps) then 1 else s.down.exitCode
    decreases |steps|
  {
    if steps != [] {
      var t := Apply(cfg, s, steps[0]);
      ExitCodeOnlyByRequired(cfg, s, steps[0]);
      LeadsByStep(cfg, s, steps[0]);
      LeadsOn(cfg, Init(cfg), s, t);
      ExitCodeOverRuns(cfg, t, steps[1..]);
    }
  }

  /** Some step of the run is the failure of a required service. */
  predicate FailsIn(cfg: Services, s: State, steps: seq<Step>)
    requires Runs(cfg, s, steps)
    decreases |steps|
  {
    steps != [] && (IsFailureStep(cfg, s, steps[0]) || FailsIn(cfg, Apply(cfg, s, steps[0]), steps[1..]))
  }

  lemma StepExitCode(cfg: Services, s: State, step: Step)
    requires Inv(cfg, s) && Enabled(cfg, s, step)
    ensures s.down.exitCode == 0 || s.down.exitCode == 1
    ensures Apply(cfg, s, step).down.exitCode == if IsFailureStep(cfg, s, step) then 1 else s.down.exitCode
  {
    match step {
      case MainStep(n, _) => assert MainOk(cfg, s, n);
      case AttemptStep(i, ev) => AttemptExitCode(cfg, s, i, ev);
      case _ =>
    }
  }

  // ----- a failure brings the supervisor down -----

  /** While nobody has entered `shutdownOnce`, whoever set the exit code or got a signal is about to. */
  ghost predicate SomeoneInside(s: State) {
    (s.down.exitCode != 0 || s.down.signal.Handling?) && s.down.once.Idle? ==> exists who :: InsideOnce(s, who)
  }

  /** The goroutine that has just set the exit code. */
  function FailureCaller(step: Step): Caller {
    match step
    case MainStep(n, _) => MainCaller(n)
    case AttemptStep(i, _) => AttemptCaller(i)
    case HealthStep(i, _) => HealthCaller(i)
    case _ => SignalCaller
  }

  lemma FailureIsInside(cfg: Services, s: State, step: Step)
    requires Inv(cfg, s) && Enabled(cfg, s, step) && IsFailureStep(cfg, s, step)
    ensures InsideOnce(Apply(cfg, s, step), FailureCaller(step))
  {
  }

  lemma StepKeepsSomeone(cfg: Services, s: State, step: Step)
    requires Inv(cfg, s) && SomeoneInside(s) && Enabled(cfg, s, step)
    ensures SomeoneInside(Apply(cfg, s, step))
  {
    hide Inv, InsideOnce, Enabled, Apply;
    var t := Apply(cfg, s, step);
    StepExitCode(cfg, s, step);
    OnceBack(cfg, s, step);
    if t.down.once.Idle? {
      if IsFailureStep(cfg, s, step) {
        FailureIsInside(cfg, s, step);
      } else if s.down.exitCode != 0 || s.down.signal.Handling? {
        var who :| InsideOnce(s, who);
        InsideStays(cfg, s, t, step, who);
      }
    }
  }

  lemma OnceBack(cfg: Services, s: State, step: Step)
    requires Enabled(cfg, s, step)
    ensures var t := Apply(cfg, s, step);
            && (t.down.once.Idle? ==> s.down.once.Idle?)
            && (t.down.signal.Handling? ==> InsideOnce(t, SignalCaller))
  {
  }

  lemma {:induction false} RunKeepsSomeone(cfg: Services, s: State, steps: seq<Step>)
    requires Inv(cfg, s) && SomeoneInside(s) && Runs(cfg, s, steps)
    ensures SomeoneInside(Exec(cfg, s, steps))
    decreases |steps|
  {
    if steps != [] {
      StepKeepsInv(cfg, s, steps[0]);
      StepKeepsSomeone(cfg, s, steps[0]);
      RunKeepsSomeone(cfg, Apply(cfg, s, steps[0]), steps[1..]);
    }
  }

  /**
   Once the exit code is set, or the signal handler has started, the context is cancelled, or the step
   that leads there is enabled: some goroutine enters `shutdownOnce`, and whoever entered first cancels.
   */
  lemma FailureShutsDown(cfg: Services, s: State)
    requires Reachable(cfg, s) && (s.down.exitCode != 0 || s.down.signal.Handling?)
    ensures || s.down.cancelled
            || (exists who :: Enabled(cfg, s, OnceStep(Enter(who))))
            || (Enabled(cfg, s, OnceStep(Proceeds)) && Apply(cfg, s, OnceStep(Proceeds)).down.cancelled)
  {
    ReachableInv(cfg, s);
    InitInv(cfg);
    var steps :| Runs(cfg, Init(cfg), steps) && Exec(cfg, Init(cfg), steps) == s;
    RunKeepsSomeone(cfg, Init(cfg), steps);
    if s.down.once.Idle? {
      var who :| InsideOnce(s, who);
      assert Enabled(cfg, s, OnceStep(Enter(who)));
    }
  }

  // ----- a long-running service is ready exactly when it has run -----

  ghost predicate HasRun(s: State, n: Name) {
    exists i :: 0 <= i < |s.attempts| && s.attempts[i].name == n && PastPublish(s.attempts[i].phase)
  }

  ghost predicate ReadyRan(cfg: Services, s: State) {
    forall n :: n in s.deps.ready && n in cfg && !cfg[n].oneshot ==> HasRun(s, n)
  }

  lemma NextPastPublish(svc: Service, cancelled: bool, count: int, a: Attempt, ev: AttemptEvent)
    requires PastPublish(a.phase)
    ensures PastPublish(AttemptNext(svc, cancelled, count, a, ev).phase)
  {
  }

  lemma RanFrom(s: State, t: State, i: nat, b: Attempt, appended: seq<Attempt>, n: Name)
    requires i < |s.attempts| && t.attempts == s.attempts[i := b] + appended && b.name == s.attempts[i].name
    requires PastPublish(s.attempts[i].phase) ==> PastPublish(b.phase)
    requires HasRun(s, n) || (b.name == n && PastPublish(b.phase))
    ensures HasRun(t, n)
  {
    hide PastPublish;
    if HasRun(s, n) {
      var k :| 0 <= k < |s.attempts| && s.attempts[k].name == n && PastPublish(s.attempts[k].phase);
      assert t.attempts[k].name == n && PastPublish(t.attempts[k].phase);
    } else {
      assert t.attempts[i] == b;
    }
  }

  /** The only step of an attempt that marks its service ready. */
  lemma PublishMarks(cfg: Services, s: State, i: nat, ev: AttemptEvent, n: Name)
    requires AttemptEnabled(cfg, s, i, ev) && n in AttemptApply(cfg, s, i, ev).deps.ready && n !in s.deps.ready
    ensures var a := s.attempts[i];
            a.name == n && PastPublish(AttemptNext(cfg[n], s.down.cancelled, s.restarts.Of(n), a, ev).phase)
  {
  }

  lemma AttemptKeepsRan(cfg: Services, s: State, t: State, i: nat, ev: AttemptEvent)
    requires Inv(cfg, s) && ReadyRan(cfg, s) && AttemptEnabled(cfg, s, i, ev) && t == AttemptApply(cfg, s, i, ev)
    ensures ReadyRan(cfg, t)
  {
    hide Inv, PastPublish, HasRun;
    var a := s.attempts[i];
    var svc, count := cfg[a.name], s.restarts.Of(a.name);
    var b := AttemptNext(svc, s.down.cancelled, count, a, ev);
    AttemptEffect(cfg, s, i, ev);
    if PastPublish(a.phase) {
      NextPastPublish(svc, s.down.cancelled, count, a, ev);
    }
    forall n | n in t.deps.ready && n in cfg && !cfg[n].oneshot ensures HasRun(t, n) {
      if n !in s.deps.ready {
        PublishMarks(cfg, s, i, ev, n);
      }
      RanFrom(s, t, i, b, if Schedules(a.phase) then [NewAttempt(a.name, false)] else [], n);
    }
  }

  lemma GrownKeepsRan(cfg: Services, s: State, t: State)
    requires ReadyRan(cfg, s) && |s.attempts| <= |t.attempts|
    requires forall k :: 0 <= k < |s.attempts| ==>
               t.attempts[k].name == s.attempts[k].name && t.attempts[k].phase == s.attempts[k].phase
    requires forall n :: n in t.deps.ready && n in cfg && !cfg[n].oneshot ==> n in s.deps.ready
    ensures ReadyRan(cfg, t)
  {
    hide PastPublish;
    forall n | n in t.deps.ready && n in cfg && !cfg[n].oneshot ensures HasRun(t, n) {
      assert HasRun(s, n);
      var k :| 0 <= k < |s.attempts| && s.attempts[k].name == n && PastPublish(s.attempts[k].phase);
      assert t.attempts[k].name == n && PastPublish(t.attempts[k].phase);
    }
  }

  lemma StepKeepsRan(cfg: Services, s: State, t: State, step: Step)
    requires Inv(cfg, s) && ReadyRan(cfg, s) && Enabled(cfg, s, step) && t == Apply(cfg, s, step)
    ensures ReadyRan(cfg, t)
  {
    hide Inv, ReadyRan;
    match step {
      case AttemptStep(i, ev) => AttemptKeepsRan(cfg, s, t, i, ev);
      case MainStep(n, ev) =>
        MainGrows(cfg, s, n, ev);
        GrownKeepsRan(cfg, s, t);
      case HealthStep(_, _) => GrownKeepsRan(cfg, s, t);
      case OperatorRestart(_) => GrownKeepsRan(cfg, s, t);
      case SignalStep => GrownKeepsRan(cfg, s, t);
      case OnceStep(_) => GrownKeepsRan(cfg, s, t);
    }
  }

  lemma {:induction false} RunKeepsRan(cfg: Services, s: State, steps: seq<Step>)
    requires Inv(cfg, s) && ReadyRan(cfg, s) && Runs(cfg, s, steps)
    ensures ReadyRan(cfg, Exec(cfg, s, steps))
    decreases |steps|
  {
    if steps != [] {
      StepKeepsInv(cfg, s, steps[0]);
      StepKeepsRan(cfg, s, Apply(cfg, s, steps[0]), steps[0]);
      RunKeepsRan(cfg, Apply(cfg, s, steps[0]), steps[1..]);
    }
  }

  /**
   A service that is no one-shot is marked ready exactly when some process of it has got past the call of
   `MarkReady` in `startService`; a start that the shutdown skipped marks nothing.
   */
  lemma LongRunningReadyExactly(cfg: Services, s: State, n: Name)
    requires Reachable(cfg, s) && n in cfg && !cfg[n].oneshot
    ensures n in s.deps.ready <==>
            exists i :: 0 <= i < |s.attempts| && s.attempts[i].name == n && PastPublish(s.attempts[i].phase)
  {
    ReachableInv(cfg, s);
    InitInv(cfg);
    var steps :| Runs(cfg, Init(cfg), steps) && Exec(cfg, Init(cfg), steps) == s;
    RunKeepsRan(cfg, Init(cfg), steps);
    if i :| 0 <= i < |s.attempts| && s.attempts[i].name == n && PastPublish(s.attempts[i].phase) {
      InvStarted(cfg, s, i);
    } else {
      assert !HasRun(s, n);
    }
  }
}
