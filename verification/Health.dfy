/** The health monitor of one incarnation, over any sequence of check results. */
module Health {
  import opened Config
  import opened Supervisor
  import opened SharedState

  /** `applyHealthCheckDefaults` */
  function WithDefaults(hc: HealthCheckConfig): HealthCheckConfig {
    HealthCheckConfig(Default(hc.interval, 30), Default(hc.retries, 3), Default(hc.timeout, 5),
                      Default(hc.startDelay, 10))
  }

  /** The documented defaults: 3 failures in a row, checked every 30 seconds; only zeros are replaced. */
  lemma DefaultsMean(hc: HealthCheckConfig)
    ensures var d := WithDefaults(hc);
            && d.interval == (if hc.interval == 0 then 30 else hc.interval)
            && d.retries == (if hc.retries == 0 then 3 else hc.retries)
            && d.timeout == (if hc.timeout == 0 then 5 else hc.timeout)
            && d.startDelay == (if hc.startDelay == 0 then 10 else hc.startDelay)
  {
  }

  /** Length of the run of failed checks that ends the sequence. */
  function Trailing(results: seq<bool>): nat {
    if results == [] || results[|results| - 1] then 0 else 1 + Trailing(results[..|results| - 1])
  }

  /** The tick of the last passed check. */
  function LastHealthy(results: seq<bool>): Option<nat> {
    if results == [] then None
    else if results[|results| - 1] then Some(|results|)
    else LastHealthy(results[..|results| - 1])
  }

  lemma {:induction false} LastHealthyMeans(results: seq<bool>)
    ensures LastHealthy(results).None? <==> forall k :: 0 <= k < |results| ==> !results[k]
    ensures LastHealthy(results).Some? ==>
              var at := LastHealthy(results).value;
              0 < at <= |results| && results[at - 1] && forall k :: at <= k < |results| ==> !results[k]
  {
    if results != [] && !results[|results| - 1] {
      LastHealthyMeans(results[..|results| - 1]);
    }
  }

  lemma {:induction false} TrailingRun(results: seq<bool>, r: nat)
    ensures Trailing(results) >= r <==>
            r <= |results| && forall k :: |results| - r <= k < |results| ==> !results[k]
  {
    if r > 0 && results != [] && !results[|results| - 1] {
      TrailingRun(results[..|results| - 1], r - 1);
    }
  }

  /** The check at tick `k` is the last of `retries` failures in a row. */
  predicate EndsRun(results: seq<bool>, k: nat, retries: int) {
    0 < k <= |results| && !results[k - 1] && Trailing(results[..k]) >= retries
  }

  class Monitor {
    const proc: ServiceProcess
    const supervision: Supervision
    var failureCount: int         // published in the ServiceProcess
    var healthyAt: Option<nat>

    constructor (proc: ServiceProcess, supervision: Supervision)
      ensures this.proc == proc && this.supervision == supervision && failureCount == 0 && healthyAt == None
    {
      this.proc, this.supervision, failureCount, healthyAt := proc, supervision, 0, None;
    }

    /** A service with a restart policy is stopped for its restart; otherwise a required one fails the supervisor. */
    twostate predicate Handled(svc: Service)
      reads proc, supervision
    {
      var fails := svc.required && !svc.RestartsOnFailure();
      && proc.intent == (if svc.RestartsOnFailure() then CasIntent(old(proc.intent), PolicyIntent)
                         else old(proc.intent))
      && proc.contextDone == (old(proc.contextDone) || (svc.RestartsOnFailure() && old(proc.intent).NoIntent?))
      && supervision.exitCode == (if fails && old(supervision.exitCode) == 0 then 1 else old(supervision.exitCode))
      && supervision.shutdownRequests == old(supervision.shutdownRequests) + (if fails then 1 else 0)
    }

    method HandleUnhealthyService(svc: Service)
      modifies proc`intent, proc`contextDone, supervision`exitCode, supervision`shutdownRequests
      ensures Handled(svc)
      ensures svc.restart.Always? || svc.restart.OnFailure? ==>
                && proc.intent == (if old(proc.intent).NoIntent? then PolicyIntent else old(proc.intent))
                && (old(proc.intent).NoIntent? ==> proc.contextDone) && unchanged(supervision)
      ensures !svc.restart.Always? && !svc.restart.OnFailure? ==>
                && unchanged(proc)
                && (!svc.required ==> unchanged(supervision))
                && (svc.required ==>
                      && (var was := old(supervision.exitCode); supervision.exitCode == if was == 0 then 1 else was)
                      && supervision.shutdownRequests == old(supervision.shutdownRequests) + 1)
    {
      if svc.restart.Always? || svc.restart.OnFailure? {
        var accepted := proc.RequestStop(PolicyIntent);
        return;
      }
      if svc.required {
        supervision.TriggerServiceFailureShutdown();
      }
    }

    /**
     The monitor loop until the results end (the context is cancelled) or the service is unhealthy.
     The handler runs at most once, at the first tick that ends a run of `retries` failures, and the
     published counter is always the number of trailing failures.
     */
    method Run(svc: Service, results: seq<bool>, hc: HealthCheckConfig) returns (fired: bool, ticks: nat)
      requires failureCount == 0 && healthyAt == None
      modifies this, proc`intent, proc`contextDone, supervision`exitCode, supervision`shutdownRequests
      ensures ticks <= |results|
      ensures failureCount == Trailing(results[..ticks]) && healthyAt == LastHealthy(results[..ticks])
      ensures fired ==> EndsRun(results, ticks, WithDefaults(hc).retries) && Handled(svc)
      ensures forall k :: 0 < k <= ticks && EndsRun(results, k, WithDefaults(hc).retries) ==> fired && k == ticks
      ensures !fired ==> ticks == |results| && unchanged(proc) && unchanged(supervision)
    {
      var config := WithDefaults(hc);
      var count := 0;
      for i := 0 to |results|
        invariant count == failureCount == Trailing(results[..i]) && healthyAt == LastHealthy(results[..i])
        invariant forall k :: 0 < k <= i ==> !EndsRun(results, k, config.retries)
        invariant unchanged(proc) && unchanged(supervision)
      {
        assert results[..i + 1][..i] == results[..i];
        if results[i] {
          count := 0;
          healthyAt := Some(i + 1);
          failureCount := 0;
          continue;
        }
        count := count + 1;
        failureCount := count;
        if count >= config.retries {
          HandleUnhealthyService(svc);
          return true, i + 1;
        }
      }
      assert results[..|results|] == results;
      return false, |results|;
    }
  }

  /** With a positive number of retries the handler runs when exactly that many checks in a row have failed. */
  lemma FirstRunIsExact(results: seq<bool>, k: nat, retries: int)
    requires retries > 0 && EndsRun(results, k, retries)
    requires forall j :: 0 < j < k ==> !EndsRun(results, j, retries)
    ensures Trailing(results[..k]) == retries
    ensures k >= retries && forall j :: k - retries <= j < k ==> !results[j]
  {
    assert results[..k][..k - 1] == results[..k - 1];
    if k > 1 && !results[k - 2] {
      assert !EndsRun(results, k - 1, retries);
    } else if k > 1 {
      assert Trailing(results[..k - 1]) == 0;
    }
    TrailingRun(results[..k], retries);
    forall j | k - retries <= j < k ensures !results[j] { assert !results[..k][j]; }
  }
}
