/** Ideal time: waits end exactly when their event happens, and everything between two events is immediate. */
module Timing {
  import opened Config
  import Validation

  function Max(a: real, b: real): real { if a < b then b else a }

  // ----- dependency waits and grace periods -----

  /** When the marks of a dependency appear, if ever. */
  datatype MarkTimes = MarkTimes(ready: Option<real>, failed: Option<real>)

  /** The grace period: nothing for a wait_after that is not positive. */
  function GraceOf(wait: int): real { if wait <= 0 then 0.0 else wait as real }

  function Grace(s: Service, i: nat): (r: real)
    requires i < |s.dependsOn|
    ensures r >= 0.0
  {
    GraceOf(s.WaitFor(s.dependsOn[i]))
  }

  /** All grace periods from dependency `i` on. */
  function GraceFrom(s: Service, i: nat): (r: real)
    requires i <= |s.dependsOn|
    ensures r >= 0.0
    decreases |s.dependsOn| - i
  {
    if i == |s.dependsOn| then 0.0 else Grace(s, i) + GraceFrom(s, i + 1)
  }

  /** The time after the first `i` waits, taken one after the other from `t0`. */
  function After(s: Service, ready: seq<real>, t0: real, i: nat): real
    requires i <= |s.dependsOn| == |ready|
  {
    if i == 0 then t0 else Max(After(s, ready, t0, i - 1), ready[i - 1]) + Grace(s, i - 1)
  }

  /** Some bound is attained: the start or one of the dependencies, with the grace periods from there on. */
  ghost predicate Attained(s: Service, ready: seq<real>, t0: real, i: nat, end: real)
    requires i <= |s.dependsOn| == |ready|
  {
    || end == t0 + GraceFrom(s, 0) - GraceFrom(s, i)
    || exists k :: 0 <= k < i && end == ready[k] + GraceFrom(s, k) - GraceFrom(s, i)
  }

  /**
   The closed form: the waits end at the maximum of the start plus all grace periods and, for each
   dependency, its ready time plus the grace periods from it on.
   */
  lemma {:induction false} WaitClosedForm(s: Service, ready: seq<real>, t0: real, i: nat)
    requires i <= |s.dependsOn| == |ready|
    ensures After(s, ready, t0, i) >= t0 + GraceFrom(s, 0) - GraceFrom(s, i)
    ensures forall k :: 0 <= k < i ==> After(s, ready, t0, i) >= ready[k] + GraceFrom(s, k) - GraceFrom(s, i)
    ensures Attained(s, ready, t0, i, After(s, ready, t0, i))
  {
    if i > 0 {
      WaitClosedForm(s, ready, t0, i - 1);
      assert GraceFrom(s, i - 1) == Grace(s, i - 1) + GraceFrom(s, i);
      var before := After(s, ready, t0, i - 1);
      if before < ready[i - 1] {
        assert After(s, ready, t0, i) == ready[i - 1] + GraceFrom(s, i - 1) - GraceFrom(s, i);
      } else if before != t0 + GraceFrom(s, 0) - GraceFrom(s, i - 1) {
        var k :| 0 <= k < i - 1 && before == ready[k] + GraceFrom(s, k) - GraceFrom(s, i - 1);
        assert After(s, ready, t0, i) == ready[k] + GraceFrom(s, k) - GraceFrom(s, i);
      }
    }
  }

  /** At `t` the wait that the file gives for dependency `k`, ready at `since`, is over. */
  predicate WaitOver(s: Service, k: nat, since: real, t: real)
    requires k < |s.dependsOn|
  {
    && t >= since
    && (s.waitAfter.Some? ==>
          var w, d := s.waitAfter.value, s.dependsOn[k];
          && (!w.isPerDep ==> t >= since + w.global as real)
          && (w.isPerDep && d in w.perDep ==> t >= since + w.perDep[d] as real))
  }

  /** The grace period is the wait in the file and nothing else: none without one or for one that is not positive. */
  lemma GraceMeans(s: Service, k: nat)
    requires k < |s.dependsOn|
    ensures s.waitAfter.None? ==> Grace(s, k) == 0.0
    ensures s.waitAfter.Some? ==>
              var w, d := s.waitAfter.value, s.dependsOn[k];
              && (!w.isPerDep && w.global > 0 ==> Grace(s, k) == w.global as real)
              && (!w.isPerDep && w.global <= 0 ==> Grace(s, k) == 0.0)
              && (w.isPerDep && d in w.perDep && w.perDep[d] > 0 ==> Grace(s, k) == w.perDep[d] as real)
              && (w.isPerDep && !(d in w.perDep && w.perDep[d] > 0) ==> Grace(s, k) == 0.0)
  {
  }

  /** No service starts before each of its dependencies has been ready for the wait that the file gives. */
  lemma {:induction false} GraceHonoured(s: Service, ready: seq<real>, t0: real, i: nat, k: nat)
    requires k < i <= |s.dependsOn| == |ready|
    ensures After(s, ready, t0, i) >= ready[k] + Grace(s, k)
    ensures WaitOver(s, k, ready[k], After(s, ready, t0, i))
  {
    if k < i - 1 {
      GraceHonoured(s, ready, t0, i - 1, k);
    }
  }

  datatype Event = IsReady | IsFailed | TimesOut | ShutsDown

  function EventAt(at: Option<real>, now: real, otherwise: real): real {
    if at.Some? && Max(now, at.value) < otherwise then Max(now, at.value) else otherwise
  }

  /** When the select entered at `now` continues: at its earliest event, the timeout at the latest. */
  function Earliest(m: MarkTimes, now: real, timeout: real, shutdown: Option<real>): real {
    EventAt(m.ready, now, EventAt(m.failed, now, EventAt(shutdown, now, now + timeout)))
  }

  predicate Due(at: Option<real>, now: real, t: real) { at.Some? && Max(now, at.value) == t }

  /** The select does not sleep through this event. */
  predicate NotMissed(at: Option<real>, now: real, t: real) { at.Some? ==> t <= now || t <= at.value }

  /** The select of `waitForDependency`: the earliest event, any of them on a tie. */
  method SelectDependency(m: MarkTimes, now: real, timeout: real, shutdown: Option<real>)
    returns (e: Event, t: real)
    requires timeout >= 0.0
    ensures t == Earliest(m, now, timeout, shutdown)
    ensures now <= t <= now + timeout
    ensures NotMissed(m.ready, now, t) && NotMissed(m.failed, now, t) && NotMissed(shutdown, now, t)
    ensures match e
            case IsReady => Due(m.ready, now, t)
            case IsFailed => Due(m.failed, now, t)
            case TimesOut => t == now + timeout
            case ShutsDown => Due(shutdown, now, t)
  {
    t := Earliest(m, now, timeout, shutdown);
    if
    case Due(m.ready, now, t) => e := IsReady;
    case Due(m.failed, now, t) => e := IsFailed;
    case t == now + timeout => e := TimesOut;
    case Due(shutdown, now, t) => e := ShutsDown;
  }

  /** A timer that is not positive fires at once. */
  function TimeoutOf(seconds: int): (timeout: real)
    ensures timeout >= 0.0
  {
    if seconds <= 0 then 0.0 else seconds as real
  }

  /** Any other event than the ready mark shows that the wait was disturbed. */
  lemma OtherEvent(m: MarkTimes, now: real, timeout: real, shutdown: Option<real>)
    requires m.ready.Some? && m.failed.None? && Max(now, m.ready.value) < now + timeout
    requires shutdown.None? || shutdown.value > Max(now, m.ready.value)
    ensures var t := Earliest(m, now, timeout, shutdown);
            t == Max(now, m.ready.value) && t != now + timeout && !Due(m.failed, now, t) && !Due(shutdown, now, t)
  {
  }

  lemma ReadyEvent(m: MarkTimes, now: real, timeout: real, shutdown: Option<real>)
    requires m.ready.Some? && Due(m.ready, now, Earliest(m, now, timeout, shutdown)) && timeout >= 0.0
    ensures m.ready.value <= now + timeout
  {
  }

  method WaitAfterDependency(now: real, wait: int, shutdown: Option<real>) returns (ok: bool, t: real)
    ensures ok ==> t == if wait > 0 then now + wait as real else now
    ensures shutdown.None? || wait <= 0 || shutdown.value > now + wait as real ==> ok
    ensures !ok ==> shutdown.Some? && t == Max(now, shutdown.value) <= now + wait as real
  {
    if wait <= 0 { return true, now; }
    var until := now + wait as real;
    if
    case shutdown.None? || Max(now, shutdown.value) >= until => return true, until;
    case shutdown.Some? && Max(now, shutdown.value) <= until => return false, Max(now, shutdown.value);
  }

  /** The dependency is ready in time, never fails, and no shutdown comes before its grace period is over. */
  predicate Undisturbed(m: MarkTimes, wait: int, now: real, timeout: real, shutdown: Option<real>) {
    && m.ready.Some? && m.failed.None? && Max(now, m.ready.value) < now + timeout
    && (shutdown.None? || shutdown.value > Max(now, m.ready.value) + GraceOf(wait))
  }

  method WaitForDependency(m: MarkTimes, wait: int, now: real, dependencyWait: int, shutdown: Option<real>)
    returns (ok: bool, t: real)
    ensures ok ==> m.ready.Some? && (if dependencyWait > 0 then m.ready.value <= now + dependencyWait as real
                                     else m.ready.value <= now)
    ensures ok ==> t == Max(now, m.ready.value) + if wait > 0 then wait as real else 0.0
    ensures Undisturbed(m, wait, now, TimeoutOf(dependencyWait), shutdown) ==> ok
  {
    hide Earliest;
    var timeout := TimeoutOf(dependencyWait);
    var e, t0 := SelectDependency(m, now, timeout, shutdown);
    if Undisturbed(m, wait, now, timeout, shutdown) {
      OtherEvent(m, now, timeout, shutdown);
    }
    if !e.IsReady? {
      return false, t0;
    }
    ReadyEvent(m, now, timeout, shutdown);
    ok, t := WaitAfterDependency(t0, wait, shutdown);
  }

  function ReadyAt(s: Service, marks: map<Name, MarkTimes>): (ready: seq<real>)
    requires forall d :: d in s.dependsOn ==> d in marks
    ensures |ready| == |s.dependsOn|
  {
    seq(|s.dependsOn|, i requires 0 <= i < |s.dependsOn| =>
      if marks[s.dependsOn[i]].ready.Some? then marks[s.dependsOn[i]].ready.value else 0.0)
  }

  /** Wait `i` of the service, entered at the closed-form time of the waits before it, is undisturbed. */
  predicate UndisturbedAt(s: Service, marks: map<Name, MarkTimes>, t0: real, timeout: real, shutdown: Option<real>,
                          i: nat)
    requires i < |s.dependsOn| && forall d :: d in s.dependsOn ==> d in marks
  {
    Undisturbed(marks[s.dependsOn[i]], s.WaitFor(s.dependsOn[i]), After(s, ReadyAt(s, marks), t0, i), timeout, shutdown)
  }

  /** Dependency `i` became ready no later than the timeout of the wait for it. */
  predicate OnTime(s: Service, marks: map<Name, MarkTimes>, t0: real, timeout: real, i: nat)
    requires i < |s.dependsOn| && forall d :: d in s.dependsOn ==> d in marks
  {
    && marks[s.dependsOn[i]].ready.Some?
    && ReadyAt(s, marks)[i] <= After(s, ReadyAt(s, marks), t0, i) + timeout
  }

  /**
   `waitForServiceDependencies`: when it succeeds every dependency became ready, within the timeout of
   its own wait, and the service goes on exactly at the closed-form time; undisturbed, it succeeds.
   */
  method WaitForServiceDependencies(s: Service, marks: map<Name, MarkTimes>, t0: real, dependencyWait: int,
                                    shutdown: Option<real>)
    returns (ok: bool, t: real)
    requires forall d :: d in s.dependsOn ==> d in marks
    ensures ok ==> t == After(s, ReadyAt(s, marks), t0, |s.dependsOn|)
    ensures ok ==> forall i :: 0 <= i < |s.dependsOn| ==>
                     marks[s.dependsOn[i]].ready.Some? && WaitOver(s, i, marks[s.dependsOn[i]].ready.value, t)
    ensures ok ==> forall i :: 0 <= i < |s.dependsOn| ==> OnTime(s, marks, t0, TimeoutOf(dependencyWait), i)
    ensures (forall i :: 0 <= i < |s.dependsOn| ==>
               UndisturbedAt(s, marks, t0, TimeoutOf(dependencyWait), shutdown, i)) ==> ok
  {
    hide Undisturbed;
    ghost var timeout := TimeoutOf(dependencyWait);
    ghost var ready := ReadyAt(s, marks);
    t := t0;
    for i := 0 to |s.dependsOn|
      invariant t == After(s, ready, t0, i)
      invariant forall k :: 0 <= k < i ==> OnTime(s, marks, t0, timeout, k)
    {
      var now := t;
      ok, t := WaitForDependency(marks[s.dependsOn[i]], s.WaitFor(s.dependsOn[i]), now, dependencyWait, shutdown);
      if !ok {
        assert !UndisturbedAt(s, marks, t0, timeout, shutdown, i);
        return;
      }
    }
    forall i | 0 <= i < |s.dependsOn|
      ensures marks[s.dependsOn[i]].ready.Some? && WaitOver(s, i, marks[s.dependsOn[i]].ready.value, t)
    {
      assert OnTime(s, marks, t0, timeout, i);
      GraceHonoured(s, ready, t0, |s.dependsOn|, i);
    }
    return true, t;
  }

  // ----- shutdown -----

  /** `stopRunningService` gives a process 10 seconds when no positive timeout is configured. */
  function ServiceTimeout(configured: int): real { if configured <= 0 then 10.0 else configured as real }

  /** `globalShutdownTimeout` */
  function GlobalTimeout(configured: int): real { if configured > 0 then configured as real else 30.0 }

  /** How a process reacts: `onTerm` seconds to exit after SIGTERM, if it does, and `onKill` after SIGKILL. */
  datatype Process = Process(onTerm: Option<real>, onKill: real)

  predicate Sane(p: Process) { p.onKill >= 0.0 && (p.onTerm.Some? ==> p.onTerm.value >= 0.0) }

  /**
   `t` seconds after the shutdown signal the process is gone: by SIGTERM within the service timeout, or
   by SIGKILL at its end. A process that reacts at that very instant may be killed or not.
   */
  predicate StopsAt(p: Process, serviceShutdown: int, t: real) {
    var limit := ServiceTimeout(serviceShutdown);
    || (p.onTerm == Some(t) && t <= limit)
    || (t == limit + p.onKill && (p.onTerm.Some? ==> p.onTerm.value >= limit))
  }

  /** `stopRunningService`: SIGTERM, then SIGKILL after the service timeout. */
  method StopRunningService(p: Process, serviceShutdown: int) returns (elapsed: real, killed: bool)
    ensures StopsAt(p, serviceShutdown, elapsed)
    ensures !killed ==> p.onTerm == Some(elapsed)
    ensures p.onTerm.Some? && p.onTerm.value < ServiceTimeout(serviceShutdown) ==> !killed
  {
    var shutdownTimeout := if serviceShutdown <= 0 then 10.0 else serviceShutdown as real;
    if
    case p.onTerm.Some? && p.onTerm.value <= shutdownTimeout => return p.onTerm.value, false;
    case p.onTerm.None? || p.onTerm.value >= shutdownTimeout => return shutdownTimeout + p.onKill, true;
  }

  /** Nobody outlives the service timeout by more than the reaction to SIGKILL, and who is quick is not killed. */
  lemma StopBound(p: Process, serviceShutdown: int, t: real)
    requires Sane(p) && StopsAt(p, serviceShutdown, t)
    ensures 0.0 <= t <= ServiceTimeout(serviceShutdown) + p.onKill
    ensures t < ServiceTimeout(serviceShutdown) <==> p.onTerm.Some? && p.onTerm.value < ServiceTimeout(serviceShutdown)
    ensures t < ServiceTimeout(serviceShutdown) ==> p.onTerm == Some(t)
    ensures p.onTerm.None? ==> t == ServiceTimeout(serviceShutdown) + p.onKill
  {
  }

  function Latest(times: seq<real>): (r: real)
    ensures r >= 0.0 && forall i :: 0 <= i < |times| ==> times[i] <= r
    ensures r == 0.0 || exists i :: 0 <= i < |times| && times[i] == r
  {
    if times == [] then 0.0
    else
      var front := times[..|times| - 1];
      var before := Latest(front);
      assert forall i :: 0 <= i < |front| ==> times[i] == front[i];
      Max(before, times[|times| - 1])
  }

  /** When the process is gone if the global kill hits whoever is left at `globalTimeout`. */
  function GoneAt(p: Process, exit: real, globalTimeout: real): real {
    if exit < globalTimeout + p.onKill then exit else globalTimeout + p.onKill
  }

  /** The stop of each process takes as long as `stopRunningService` lets it. */
  predicate AllStop(processes: seq<Process>, serviceShutdown: int, exits: seq<real>) {
    |exits| == |processes| && forall i :: 0 <= i < |processes| ==> StopsAt(processes[i], serviceShutdown, exits[i])
  }

  /** Every process dies soon enough after SIGKILL for the service timeout to fit into the global one. */
  predicate TimeoutsFit(processes: seq<Process>, serviceShutdown: int, globalShutdown: int) {
    forall p :: p in processes ==> ServiceTimeout(serviceShutdown) + p.onKill < GlobalTimeout(globalShutdown)
  }

  /** Then all of them are gone before the global timeout. */
  lemma NoForceKill(processes: seq<Process>, serviceShutdown: int, globalShutdown: int, exits: seq<real>)
    requires AllStop(processes, serviceShutdown, exits) && TimeoutsFit(processes, serviceShutdown, globalShutdown)
    requires forall p :: p in processes ==> Sane(p)
    ensures Latest(exits) < GlobalTimeout(globalShutdown)
  {
    if i :| 0 <= i < |exits| && exits[i] == Latest(exits) {
      assert processes[i] in processes;
      StopBound(processes[i], serviceShutdown, exits[i]);
    }
  }

  /** All services are stopped at once; `gone` is when each is gone if it comes to the global kill. */
  method StopAll(processes: seq<Process>, serviceShutdown: int, globalTimeout: real)
    returns (exits: seq<real>, gone: seq<real>)
    ensures AllStop(processes, serviceShutdown, exits) && |gone| == |processes|
    ensures forall i :: 0 <= i < |processes| ==> gone[i] == GoneAt(processes[i], exits[i], globalTimeout)
  {
    exits, gone := [], [];
    for i := 0 to |processes|
      invariant |exits| == |gone| == i
      invariant forall k :: 0 <= k < i ==> StopsAt(processes[k], serviceShutdown, exits[k])
      invariant forall k :: 0 <= k < i ==> gone[k] == GoneAt(processes[k], exits[k], globalTimeout)
    {
      var exit, _ := StopRunningService(processes[i], serviceShutdown);
      exits := exits + [exit];
      gone := gone + [GoneAt(processes[i], exit, globalTimeout)];
    }
  }

  datatype Ending = NothingToStop | AllStopped | StoppedAfterKill | GaveUp

  /**
   `runShutdown` for the processes registered when it starts. It always returns within the global timeout
   plus five seconds, and without a force kill whenever the timeouts fit.
   */
  method RunShutdown(processes: seq<Process>, serviceShutdown: int, globalShutdown: int)
    returns (elapsed: real, ending: Ending, exits: seq<real>)
    requires forall p :: p in processes ==> Sane(p)
    ensures AllStop(processes, serviceShutdown, exits)
    ensures 0.0 <= elapsed <= GlobalTimeout(globalShutdown) + 5.0
    ensures ending.NothingToStop? <==> processes == []
    ensures ending.AllStopped? ==> elapsed == Latest(exits) <= GlobalTimeout(globalShutdown)
    ensures ending.StoppedAfterKill? ==>
              && Latest(exits) >= GlobalTimeout(globalShutdown)
              && forall i :: 0 <= i < |processes| ==>
                   GoneAt(processes[i], exits[i], GlobalTimeout(globalShutdown)) <= elapsed
    ensures ending.GaveUp? ==>
              && elapsed == GlobalTimeout(globalShutdown) + 5.0
              && exists i :: 0 <= i < |processes| &&
                   GoneAt(processes[i], exits[i], GlobalTimeout(globalShutdown)) >= elapsed
    ensures processes != [] && TimeoutsFit(processes, serviceShutdown, globalShutdown) ==> ending.AllStopped?
  {
    if |processes| == 0 {
      return 0.0, NothingToStop, [];
    }
    var globalTimeout := 30.0;
    if globalShutdown > 0 { globalTimeout := globalShutdown as real; }
    var gone;
    exits, gone := StopAll(processes, serviceShutdown, globalTimeout);
    if TimeoutsFit(processes, serviceShutdown, globalShutdown) {
      NoForceKill(processes, serviceShutdown, globalShutdown, exits);
    }
    var drained, killed := Latest(exits), Latest(gone);
    if
    case drained <= globalTimeout => return drained, AllStopped, exits;
    case drained >= globalTimeout =>
      if
      case killed <= globalTimeout + 5.0 => return Max(globalTimeout, killed), StoppedAfterKill, exits;
      case killed >= globalTimeout + 5.0 => return globalTimeout + 5.0, GaveUp, exits;
  }

  /** Whoever is left at the global kill is gone at its own exit or by the kill, whichever comes first. */
  lemma GoneAtMeans(p: Process, exit: real, globalTimeout: real)
    ensures GoneAt(p, exit, globalTimeout) <= exit && GoneAt(p, exit, globalTimeout) <= globalTimeout + p.onKill
    ensures GoneAt(p, exit, globalTimeout) == exit || GoneAt(p, exit, globalTimeout) == globalTimeout + p.onKill
  {
  }

  // ----- the defaults of the file and the fallbacks of the program -----

  /** A positive timeout in the file is the one in effect, whatever it is for. */
  lemma TimeoutsAreConfigured(seconds: int)
    ensures seconds > 0 ==>
              ServiceTimeout(seconds) == GlobalTimeout(seconds) == TimeoutOf(seconds) == seconds as real
    ensures seconds <= 0 ==>
              ServiceTimeout(seconds) == 10.0 && GlobalTimeout(seconds) == 30.0 && TimeoutOf(seconds) == 0.0
  {
  }

  /** The documented defaults, field by field: only a zero is replaced. */
  lemma DocumentedDefaults(t: Validation.Timeouts)
    ensures var d := Validation.WithDefaults(t);
            && d.postScript == (if t.postScript == 0 then 7 else t.postScript)
            && d.serviceShutdown == (if t.serviceShutdown == 0 then 10 else t.serviceShutdown)
            && d.globalShutdown == (if t.globalShutdown == 0 then 30 else t.globalShutdown)
            && d.dependencyWait == (if t.dependencyWait == 0 then 300 else t.dependencyWait)
  {
  }

  /**
   After validation has filled in the defaults no timeout is zero and filling them in again changes
   nothing. The defaults are the fallbacks that stopping a service and the shutdown use by themselves.
   */
  lemma DefaultsAgree(t: Validation.Timeouts)
    ensures var d := Validation.WithDefaults(t);
            && d.postScript != 0 && d.serviceShutdown != 0 && d.globalShutdown != 0 && d.dependencyWait != 0
            && Validation.WithDefaults(d) == d
            && ServiceTimeout(d.serviceShutdown) == ServiceTimeout(t.serviceShutdown)
            && GlobalTimeout(d.globalShutdown) == GlobalTimeout(t.globalShutdown)
            && (TimeoutOf(d.dependencyWait) > 0.0 <==> t.dependencyWait >= 0)
  {
  }
}
