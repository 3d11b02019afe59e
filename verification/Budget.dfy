/** Restart limits over whole runs. */
module Budget {
  import opened Config
  import opened Supervisor
  import opened Invariant
  import opened Lifecycle

  /** The `startService` calls made or armed for a service so far. */
  function AttemptsOf(s: State, n: Name): set<nat> {
    set i: nat | i < |s.attempts| && s.attempts[i].name == n
  }

  predicate Counts(p: Phase) { p.Post? && p.post.Count? }

  /** The bound for one service: the counter stays within the cap, and attempts are paid for. */
  ghost predicate Within(cfg: Services, s: State, n: Name) {
    n in cfg && (cfg[n].maxRestarts > 0 ==>
      var m, c, h, used := cfg[n].maxRestarts, s.restarts.Of(n), s.restarts.Honoured(n), |AttemptsOf(s, n)|;
      && 0 <= c <= m
      && used <= h * (m + 1) + c + 1
      && (forall i :: 0 <= i < |s.attempts| && s.attempts[i].name == n && Counts(s.attempts[i].phase) ==> c < m)
      && (forall i :: 0 <= i < |s.attempts| && s.attempts[i].name == n && Schedules(s.attempts[i].phase) ==>
            used <= h * (m + 1) + c))
  }

  ghost predicate BudgetInv(cfg: Services, s: State) {
    forall n :: n in cfg ==> Within(cfg, s, n)
  }

  lemma AttemptsPut(s: State, t: State, i: nat, b: Attempt, n: Name)
    requires i < |s.attempts| && t.attempts == s.attempts[i := b] && b.name == s.attempts[i].name
    ensures AttemptsOf(t, n) == AttemptsOf(s, n)
  {
  }

  lemma AttemptsAppend(s: State, t: State, b: Attempt, n: Name)
    requires t.attempts == s.attempts + [b]
    ensures |AttemptsOf(t, n)| == |AttemptsOf(s, n)| + if b.name == n then 1 else 0
  {
    if b.name == n {
      assert AttemptsOf(t, n) == AttemptsOf(s, n) + {|s.attempts|};
    } else {
      assert AttemptsOf(t, n) == AttemptsOf(s, n);
    }
  }

  /** A change that neither counts nor schedules a restart costs nothing. */
  lemma QuietKeepsBudget(cfg: Services, s: State, t: State, i: nat, b: Attempt)
    requires BudgetInv(cfg, s) && i < |s.attempts| && t.attempts == s.attempts[i := b]
    requires b.name == s.attempts[i].name && t.restarts == s.restarts
    requires Counts(b.phase) ==> Counts(s.attempts[i].phase)
    requires Schedules(b.phase) ==> Schedules(s.attempts[i].phase)
    ensures BudgetInv(cfg, t)
  {
    forall n | n in cfg ensures Within(cfg, t, n) {
      assert Within(cfg, s, n);
      AttemptsPut(s, t, i, b, n);
    }
  }

  lemma StartKeepsBudget(cfg: Services, s: State, t: State, n: Name)
    requires BudgetInv(cfg, s) && NoAttempts(s, n)
    requires t.attempts == s.attempts + [NewAttempt(n, true)] && t.restarts == s.restarts
    ensures BudgetInv(cfg, t)
  {
    forall m | m in cfg ensures Within(cfg, t, m) {
      assert Within(cfg, s, m);
      AttemptsAppend(s, t, NewAttempt(n, true), m);
      assert AttemptsOf(s, n) == {};
    }
  }

  /** `handleServiceExit` decides on a restart only below the cap. */
  lemma DecideKeepsBudget(cfg: Services, s: State, t: State, i: nat, b: Attempt, e: Exit)
    requires BudgetInv(cfg, s) && Shape(cfg, s) && i < |s.attempts| && s.attempts[i].phase == Post(Decide, e)
    requires b == s.attempts[i].(phase := PostNext(cfg[s.attempts[i].name], s.restarts.Of(b.name), Decide, e))
    requires t.attempts == s.attempts[i := b] && t.restarts == s.restarts
    ensures BudgetInv(cfg, t)
  {
    forall n | n in cfg ensures Within(cfg, t, n) {
      assert Within(cfg, s, n);
      AttemptsPut(s, t, i, b, n);
    }
  }

  lemma CountKeepsBudget(cfg: Services, s: State, t: State, i: nat, e: Exit)
    requires BudgetInv(cfg, s) && Lineage(s) && i < |s.attempts| && s.attempts[i].phase == Post(Count, e)
    requires t.attempts == s.attempts[i := s.attempts[i].(phase := Post(Schedule, e))]
    requires t.restarts == s.restarts.Increment(s.attempts[i].name)
    ensures BudgetInv(cfg, t)
  {
    forall n | n in cfg ensures Within(cfg, t, n) {
      assert Within(cfg, s, n);
      AttemptsPut(s, t, i, t.attempts[i], n);
    }
  }

  lemma ResetKeepsBudget(cfg: Services, s: State, t: State, i: nat, e: Exit)
    requires BudgetInv(cfg, s) && Lineage(s) && i < |s.attempts| && s.attempts[i].phase == Post(Reset, e)
    requires t.attempts == s.attempts[i := s.attempts[i].(phase := Post(Schedule, e))]
    requires t.restarts == s.restarts.Reset(s.attempts[i].name)
    ensures BudgetInv(cfg, t)
  {
    forall n | n in cfg ensures Within(cfg, t, n) {
      assert Within(cfg, s, n);
      AttemptsPut(s, t, i, t.attempts[i], n);
      var m, h := cfg[n].maxRestarts, s.restarts.Honoured(n);
      assert (h + 1) * (m + 1) == h * (m + 1) + m + 1;
    }
  }

  lemma ScheduleKeepsBudget(cfg: Services, s: State, t: State, i: nat, e: Exit)
    requires BudgetInv(cfg, s) && Lineage(s) && i < |s.attempts| && s.attempts[i].phase == Post(Schedule, e)
    requires t.attempts ==
             s.attempts[i := s.attempts[i].(phase := Returned(Ended(e)))] + [NewAttempt(s.attempts[i].name, false)]
    requires t.restarts == s.restarts
    ensures BudgetInv(cfg, t)
  {
    var mid := s.(attempts := s.attempts[i := s.attempts[i].(phase := Returned(Ended(e)))]);
    forall n | n in cfg ensures Within(cfg, t, n) {
      assert Within(cfg, s, n);
      AttemptsPut(s, mid, i, mid.attempts[i], n);
      AttemptsAppend(mid, t, NewAttempt(s.attempts[i].name, false), n);
    }
  }

  lemma PostKeepsBudget(cfg: Services, s: State, t: State, i: nat, p: PostPhase, e: Exit)
    requires Shape(cfg, s) && Lineage(s) && BudgetInv(cfg, s) && i < |s.attempts| && s.attempts[i].phase == Post(p, e)
    requires t == PostApply(cfg[s.attempts[i].name], s, i, p, e)
    ensures BudgetInv(cfg, t)
  {
    match p {
      case Reset => ResetKeepsBudget(cfg, s, t, i, e);
      case Decide => DecideKeepsBudget(cfg, s, t, i, t.attempts[i], e);
      case Count => CountKeepsBudget(cfg, s, t, i, e);
      case Schedule => ScheduleKeepsBudget(cfg, s, t, i, e);
      case Trigger => QuietKeepsBudget(cfg, s, t, i, t.attempts[i]);
      case InOnce => QuietKeepsBudget(cfg, s, t, i, t.attempts[i]);
    }
  }

  lemma NextIsQuiet(svc: Service, cancelled: bool, count: int, a: Attempt, ev: AttemptEvent)
    requires !a.phase.Post?
    ensures var b := AttemptNext(svc, cancelled, count, a, ev);
            b.name == a.name && !Counts(b.phase) && !Schedules(b.phase)
  {
  }

  lemma AttemptKeepsBudget(cfg: Services, s: State, t: State, i: nat, ev: AttemptEvent)
    requires Inv(cfg, s) && BudgetInv(cfg, s) && AttemptEnabled(cfg, s, i, ev) && t == AttemptApply(cfg, s, i, ev)
    ensures BudgetInv(cfg, t)
  {
    var a := s.attempts[i];
    var svc, count := cfg[a.name], s.restarts.Of(a.name);
    if a.phase.Post? {
      PostKeepsBudget(cfg, s, t, i, a.phase.post, a.phase.exit);
    } else {
      AttemptEffect(cfg, s, i, ev);
      NextIsQuiet(svc, s.down.cancelled, count, a, ev);
      QuietKeepsBudget(cfg, s, t, i, AttemptNext(svc, s.down.cancelled, count, a, ev));
    }
  }

  lemma StepKeepsBudget(cfg: Services, s: State, step: Step)
    requires Inv(cfg, s) && BudgetInv(cfg, s) && Enabled(cfg, s, step)
    ensures BudgetInv(cfg, Apply(cfg, s, step))
  {
    var t := Apply(cfg, s, step);
    match step {
      case AttemptStep(i, ev) => AttemptKeepsBudget(cfg, s, t, i, ev);
      case HealthStep(i, _) => QuietKeepsBudget(cfg, s, t, i, t.attempts[i]);
      case OperatorRestart(i) => QuietKeepsBudget(cfg, s, t, i, t.attempts[i]);
      case MainStep(n, _) =>
        assert MainOk(cfg, s, n);
        if t.attempts == s.attempts {
          SameKeepsBudget(cfg, s, t);
        } else {
          StartKeepsBudget(cfg, s, t, n);
        }
      case SignalStep => SameKeepsBudget(cfg, s, t);
      case OnceStep(_) => SameKeepsBudget(cfg, s, t);
    }
  }

  lemma SameKeepsBudget(cfg: Services, s: State, t: State)
    requires BudgetInv(cfg, s) && t.attempts == s.attempts && t.restarts == s.restarts
    ensures BudgetInv(cfg, t)
  {
    forall n | n in cfg ensures Within(cfg, t, n) {
      assert Within(cfg, s, n);
      assert AttemptsOf(t, n) == AttemptsOf(s, n);
    }
  }

  lemma {:induction false} RunKeepsBudget(cfg: Services, s: State, steps: seq<Step>)
    requires Inv(cfg, s) && BudgetInv(cfg, s) && Runs(cfg, s, steps)
    ensures BudgetInv(cfg, Exec(cfg, s, steps))
    decreases |steps|
  {
    if steps != [] {
      StepKeepsInv(cfg, s, steps[0]);
      StepKeepsBudget(cfg, s, steps[0]);
      RunKeepsBudget(cfg, Apply(cfg, s, steps[0]), steps[1..]);
    }
  }

  lemma InitBudget(cfg: Services)
    ensures BudgetInv(cfg, Init(cfg))
  {
    assert forall n :: n in cfg ==> AttemptsOf(Init(cfg), n) == {};
  }

  lemma ReachableBudget(cfg: Services, s: State)
    requires Reachable(cfg, s)
    ensures BudgetInv(cfg, s)
  {
    var steps :| Runs(cfg, Init(cfg), steps) && Exec(cfg, Init(cfg), steps) == s;
    InitInv(cfg);
    InitBudget(cfg);
    RunKeepsBudget(cfg, Init(cfg), steps);
  }

  /**
   With `max_restarts` M > 0 the counter never passes M, and after k operator restarts the service
   was started, or is armed to start, at most (k + 1) * (M + 1) times.
   */
  lemma RestartBudget(cfg: Services, s: State, n: Name)
    requires Reachable(cfg, s) && n in cfg && cfg[n].maxRestarts > 0
    ensures 0 <= s.restarts.Of(n) <= cfg[n].maxRestarts
    ensures |AttemptsOf(s, n)| <= (s.restarts.Honoured(n) + 1) * (cfg[n].maxRestarts + 1)
  {
    ReachableBudget(cfg, s);
    assert Within(cfg, s, n);
    var m, h := cfg[n].maxRestarts, s.restarts.Honoured(n);
    assert (h + 1) * (m + 1) == h * (m + 1) + m + 1;
  }
}
