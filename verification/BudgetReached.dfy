/** The bound on restarts is exact: some run uses all of it. */
module BudgetReached {
  import opened Config
  import opened Supervisor
  import opened Lifecycle
  import opened Invariant
  import opened Outcomes
  import opened ExitStatus
  import opened Driving
  import opened Budget

  /** `n` is about to launch, after so many attempts, with this restart count and so many operator restarts. */
  ghost predicate Tally(cfg: Services, s: State, n: Name, i: nat, attempts: nat, count: nat, honoured: nat) {
    && Reachable(cfg, s) && Stands(cfg, s, s, n, i, Pre(Launch), NoIntent)
    && |AttemptsOf(s, n)| == attempts && s.restarts.Of(n) == count && s.restarts.Honoured(n) == honoured
  }

  /** A run goes on from where another one stopped. */
  lemma Restand(cfg: Services, r: State, s: State, n: Name, i: nat, p: Phase, intent: Intent)
    requires Reachable(cfg, r) && Stands(cfg, r, s, n, i, p, intent)
    ensures Reachable(cfg, s) && Stands(cfg, s, s, n, i, p, intent)
  {
    hide Inv, Announced, Last;
    var steps :| Runs(cfg, r, steps) && RunPermitted(cfg, NOTHING, r, steps) && Exec(cfg, r, steps) == s;
    assert Leads(cfg, r, s);
    LeadsOn(cfg, Init(cfg), r, s);
    PermittedHere(cfg, NOTHING, s);
  }

  lemma FirstTally(cfg: Services, n: Name) returns (s: State, i: nat)
    requires WellFormed(cfg) && n in cfg
    ensures Tally(cfg, s, n, i, 1, 0, 0)
  {
    hide WellFormed, Stands;
    s, i := ReachLaunch(cfg, n);
    InitIsReachable(cfg);
    Restand(cfg, Init(cfg), s, n, i, Pre(Launch), NoIntent);
  }

  lemma InitIsReachable(cfg: Services)
    ensures Reachable(cfg, Init(cfg))
  {
    assert Runs(cfg, Init(cfg), []) && Exec(cfg, Init(cfg), []) == Init(cfg);
  }

  /** A crash below the limit costs one attempt and one count. */
  lemma CrashOnce(cfg: Services, s: State, n: Name, i: nat, a: nat, c: nat, h: nat) returns (t: State, j: nat)
    requires Tally(cfg, s, n, i, a, c, h) && n in cfg && cfg[n].RestartsOnFailure() && c < cfg[n].maxRestarts
    ensures Tally(cfg, t, n, j, a + 1, c + 1, h)
  {
    hide Stands;
    var s1 := LaunchToSelect(cfg, s, s, n, i);
    var s2 := Crash(cfg, s, s1, n, i);
    var s3 := DecideRestart(cfg, s, s2, n, i);
    var s4;
    s4, j := Rearm(cfg, s, s3, n, i, CRASHED, NoIntent);
    t := TimerToLaunch(cfg, s, s4, n, j);
    Restand(cfg, s, t, n, j, Pre(Launch), NoIntent);
  }

  /** Crashes use up the limit. */
  lemma {:induction false} CrashAll(cfg: Services, s: State, n: Name, i: nat, a: nat, c: nat, h: nat)
    returns (t: State, j: nat)
    requires Tally(cfg, s, n, i, a, c, h) && n in cfg && cfg[n].RestartsOnFailure() && c <= cfg[n].maxRestarts
    ensures Tally(cfg, t, n, j, a + cfg[n].maxRestarts - c, cfg[n].maxRestarts, h)
    decreases cfg[n].maxRestarts - c
  {
    hide Tally;
    if c == cfg[n].maxRestarts {
      return s, i;
    }
    var u, k := CrashOnce(cfg, s, n, i, a, c, h);
    t, j := CrashAll(cfg, u, n, k, a + 1, c + 1, h);
  }

  /** An operator restart costs one attempt and clears the count. */
  lemma OperatorOnce(cfg: Services, s: State, n: Name, i: nat, a: nat, c: nat, h: nat) returns (t: State, j: nat)
    requires Tally(cfg, s, n, i, a, c, h)
    ensures Tally(cfg, t, n, j, a + 1, 0, h + 1)
  {
    hide Stands;
    var s1 := LaunchToSelect(cfg, s, s, n, i);
    Restand(cfg, s, s1, n, i, Live(Select), NoIntent);
    var r := Requested(cfg, s1, s1, n, i);
    LeadsByStep(cfg, s1, OperatorRestart(i));
    LeadsOn(cfg, Init(cfg), s1, r);
    var s2 := StopForOperator(cfg, r, r, n, i);
    var s3 := FinishForOperator(cfg, r, s2, n, i);
    var s4;
    s4, j := Rearm(cfg, r, s3, n, i, KILLED, OperatorIntent);
    t := TimerToLaunch(cfg, r, s4, n, j);
    Restand(cfg, r, t, n, j, Pre(Launch), NoIntent);
  }

  /** `k` operator restarts, each after all the crashes that the limit allows. */
  lemma {:induction false} SpendAll(cfg: Services, n: Name, k: nat) returns (t: State, j: nat)
    requires WellFormed(cfg) && n in cfg && cfg[n].RestartsOnFailure() && cfg[n].maxRestarts > 0
    ensures Tally(cfg, t, n, j, (k + 1) * (cfg[n].maxRestarts + 1), cfg[n].maxRestarts, k)
  {
    hide Tally, WellFormed;
    var m := cfg[n].maxRestarts;
    if k == 0 {
      var s, i := FirstTally(cfg, n);
      t, j := CrashAll(cfg, s, n, i, 1, 0, 0);
    } else {
      var s, i := SpendAll(cfg, n, k - 1);
      var u, l := OperatorOnce(cfg, s, n, i, k * (m + 1), m, k - 1);
      t, j := CrashAll(cfg, u, n, l, k * (m + 1) + 1, 0, k);
      assert k * (m + 1) + 1 + m - 0 == (k + 1) * (m + 1);
    }
  }

  /** All of the budget is used: the last attempt allowed is running as well. */
  ghost predicate Spent(cfg: Services, s: State, n: Name, k: nat) {
    && n in cfg && Reachable(cfg, s) && s.restarts.Of(n) == cfg[n].maxRestarts && s.restarts.Honoured(n) == k
    && |AttemptsOf(s, n)| == (k + 1) * (cfg[n].maxRestarts + 1)
    && exists i: nat :: Last(s, i) && s.attempts[i].name == n && s.attempts[i].phase == Live(Select)
  }

  /**
   With a restart policy and a limit M, and for any number k of operator restarts, some run makes exactly
   (k + 1) * (M + 1) starts, which no run can exceed (Budget.RestartBudget).
   */
  lemma RestartBudgetReached(cfg: Services, n: Name, k: nat)
    requires WellFormed(cfg) && n in cfg && cfg[n].RestartsOnFailure() && cfg[n].maxRestarts > 0
    ensures exists s :: Spent(cfg, s, n, k)
  {
    hide WellFormed;
    var s, i := SpendAll(cfg, n, k);
    var t := LaunchToSelect(cfg, s, s, n, i);
    Restand(cfg, s, t, n, i, Live(Select), NoIntent);
    assert Spent(cfg, t, n, k);
  }
}
