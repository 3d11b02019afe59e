/** Safety of whole runs: what holds in every reachable state and across every continuation. */
module Lifecycle {
  import opened Config
  import opened Supervisor
  import opened Invariant

  /** Some run leads from `s` to `t`. */
  ghost predicate Leads(cfg: Services, s: State, t: State) {
    exists steps :: Runs(cfg, s, steps) && Exec(cfg, s, steps) == t
  }

  ghost predicate Reachable(cfg: Services, s: State) { Leads(cfg, Init(cfg), s) }

  lemma LeadsInv(cfg: Services, s: State, t: State)
    requires Inv(cfg, s) && Leads(cfg, s, t)
    ensures Inv(cfg, t)
  {
    var steps :| Runs(cfg, s, steps) && Exec(cfg, s, steps) == t;
    RunKeepsInv(cfg, s, steps);
  }

  lemma ReachableInv(cfg: Services, s: State)
    requires Reachable(cfg, s)
    ensures Inv(cfg, s)
  {
    InitInv(cfg);
    LeadsInv(cfg, Init(cfg), s);
  }

  lemma ReachableAttempt(cfg: Services, s: State, i: nat)
    requires Reachable(cfg, s) && i < |s.attempts|
    ensures s.attempts[i].name in cfg
    ensures AttemptOk(cfg[s.attempts[i].name], s.down.cancelled, s.attempts[i])
  {
    ReachableInv(cfg, s);
  }

  // ----- single incarnation and the registry -----

  /** Armed, starting, running or finishing: the attempt can still act. */
  predicate Alive(a: Attempt) { !a.phase.Returned? }

  /** At most one pending first start, live incarnation or pending restart per name. */
  lemma SingleIncarnation(cfg: Services, s: State)
    requires Reachable(cfg, s)
    ensures forall i, j :: 0 <= i < j < |s.attempts| && s.attempts[i].name == s.attempts[j].name ==>
              !Alive(s.attempts[i])
    ensures forall n, i :: n in cfg && n in s.mains && s.mains[n].Before? && 0 <= i < |s.attempts| ==>
              s.attempts[i].name != n
  {
    ReachableInv(cfg, s);
    forall n, i | n in cfg && n in s.mains && s.mains[n].Before? && 0 <= i < |s.attempts|
      ensures s.attempts[i].name != n
    {
      assert MainOk(cfg, s, n);
    }
  }

  /** The WaitGroup counter is the number of registered services; add never overwrites, remove hits its caller. */
  lemma RegistryExact(cfg: Services, s: State, i: nat)
    requires Reachable(cfg, s) && i < |s.attempts|
    ensures s.reg.wg == |s.reg.active|
    ensures s.attempts[i].phase.Register? ==> s.attempts[i].name !in s.reg.active
    ensures s.attempts[i].phase.Live? <==>
            s.attempts[i].name in s.reg.active && s.reg.active[s.attempts[i].name] == i
  {
    ReachableInv(cfg, s);
    if s.attempts[i].phase.Register? {
      NotRegistered(s, i);
    }
  }

  // ----- dependency marks -----

  lemma StepKeepsMarks(cfg: Services, s: State, step: Step)
    requires Enabled(cfg, s, step)
    ensures s.deps.ready <= Apply(cfg, s, step).deps.ready && s.deps.failed <= Apply(cfg, s, step).deps.failed
  {
  }

  /** Marks are permanent, and no name ever carries both. */
  lemma MarksPermanentAndExclusive(cfg: Services, s: State, t: State)
    requires Reachable(cfg, s) && Leads(cfg, s, t)
    ensures s.deps.ready <= t.deps.ready && s.deps.failed <= t.deps.failed
    ensures t.deps.ready !! t.deps.failed
  {
    ReachableInv(cfg, s);
    LeadsInv(cfg, s, t);
    var steps :| Runs(cfg, s, steps) && Exec(cfg, s, steps) == t;
    MarksGrow(cfg, s, steps);
  }

  lemma {:induction false} MarksGrow(cfg: Services, s: State, steps: seq<Step>)
    requires Runs(cfg, s, steps)
    ensures s.deps.ready <= Exec(cfg, s, steps).deps.ready && s.deps.failed <= Exec(cfg, s, steps).deps.failed
    decreases |steps|
  {
    if steps != [] {
      StepKeepsMarks(cfg, s, steps[0]);
      MarksGrow(cfg, Apply(cfg, s, steps[0]), steps[1..]);
    }
  }

  /** `startService` was called for the service at least once. */
  ghost predicate EverStarted(s: State, n: Name) {
    exists i :: 0 <= i < |s.attempts| && s.attempts[i].name == n
  }

  /** Whatever a started or ready service depends on, however indirectly, is ready and not failed. */
  lemma {:induction false} DependencyOrder(cfg: Services, s: State, walk: seq<Name>)
    requires Reachable(cfg, s) && Walk(cfg, walk)
    requires EverStarted(s, walk[0]) || walk[0] in s.deps.ready
    ensures forall k :: 1 <= k < |walk| ==> walk[k] in s.deps.ready && walk[k] !in s.deps.failed
    decreases |walk|
  {
    ReachableInv(cfg, s);
    if |walk| > 1 {
      if EverStarted(s, walk[0]) {
        var i :| 0 <= i < |s.attempts| && s.attempts[i].name == walk[0];
        assert StartedOk(cfg, s, i);
      } else {
        assert DepsReady(cfg, s, walk[0]);
      }
      assert walk[1] in s.deps.ready;
      DependencyOrder(cfg, s, walk[1..]);
      forall k | 1 <= k < |walk| ensures walk[k] in s.deps.ready && walk[k] !in s.deps.failed {
        assert k > 1 ==> walk[k] == walk[1..][k - 1];
      }
    }
  }

  lemma {:induction false} RunsAppend(cfg: Services, s: State, a: seq<Step>, b: seq<Step>)
    requires Runs(cfg, s, a) && Runs(cfg, Exec(cfg, s, a), b)
    ensures Runs(cfg, s, a + b) && Exec(cfg, s, a + b) == Exec(cfg, Exec(cfg, s, a), b)
    decreases |a|
  {
    if a == [] {
      assert a + b == b;
    } else {
      RunsAppend(cfg, Apply(cfg, s, a[0]), a[1..], b);
      assert (a + b)[1..] == a[1..] + b;
    }
  }

  lemma LeadsOn(cfg: Services, r: State, s: State, t: State)
    requires Leads(cfg, r, s) && Leads(cfg, s, t)
    ensures Leads(cfg, r, t)
  {
    var a :| Runs(cfg, r, a) && Exec(cfg, r, a) == s;
    var b :| Runs(cfg, s, b) && Exec(cfg, s, b) == t;
    RunsAppend(cfg, r, a, b);
  }

  lemma LeadsByStep(cfg: Services, s: State, step: Step)
    requires Enabled(cfg, s, step)
    ensures Leads(cfg, s, Apply(cfg, s, step))
  {
    var rest: seq<Step> := [step][1..];
    assert rest == [];
    assert Runs(cfg, Apply(cfg, s, step), rest);
    assert Runs(cfg, s, [step]) && Exec(cfg, s, [step]) == Apply(cfg, s, step);
  }

  /** A service that depends on a failed one, however indirectly, is never started, in any continuation. */
  lemma FailedBlocksDependents(cfg: Services, s: State, t: State, walk: seq<Name>)
    requires Reachable(cfg, s) && Leads(cfg, s, t) && Walk(cfg, walk) && |walk| > 1
    requires walk[|walk| - 1] in s.deps.failed
    ensures !EverStarted(t, walk[0]) && walk[0] !in t.deps.ready
  {
    MarksPermanentAndExclusive(cfg, s, t);
    LeadsOn(cfg, Init(cfg), s, t);
    if EverStarted(t, walk[0]) || walk[0] in t.deps.ready {
      DependencyOrder(cfg, t, walk);
    }
  }

  // ----- the incarnation state machine -----

  function StateRank(state: ServiceState): nat {
    match state
    case Pending => 0
    case Starting => 1
    case Running => 2
    case Stopping => 3
    case Failed => 3
    case Stopped => 4
  }

  /** The stop request was accepted before `finishService` read the intent, or was read by it. */
  predicate Claimed(a: Attempt, intent: Intent) {
    !intent.NoIntent? && a.intent == intent && !a.state.Failed? &&
    match a.phase
    case Pre(_) => false
    case Register => false
    case Live(p) => !p.Record? && (p.Remove? ==> p.exit.intent == intent)
    case Post(_, e) => e.intent == intent
    case Returned(o) => o.Ended? && o.exit.intent == intent
  }

  /** What one step may do to an incarnation. */
  predicate Forward(a: Attempt, b: Attempt) {
    && b.name == a.name && b.first == a.first
    && (!a.intent.NoIntent? ==> b.intent == a.intent)
    && (a.state == b.state || StateRank(a.state) < StateRank(b.state))
    && (a.phase.Returned? ==> b.phase == a.phase)
    && (Claimed(a, a.intent) ==> Claimed(b, a.intent))
  }

  lemma StateForward(svc: Service, cancelled: bool, count: int, a: Attempt, ev: AttemptEvent)
    requires AttemptOk(svc, cancelled, a)
    ensures var b := AttemptNext(svc, cancelled, count, a, ev);
            a.state == b.state || StateRank(a.state) < StateRank(b.state)
  {
  }

  lemma ClaimForward(svc: Service, cancelled: bool, count: int, a: Attempt, ev: AttemptEvent)
    requires Claimed(a, a.intent)
    ensures Claimed(AttemptNext(svc, cancelled, count, a, ev), a.intent)
  {
  }

  lemma LocalForward(svc: Service, cancelled: bool, count: int, a: Attempt, ev: AttemptEvent)
    requires AttemptOk(svc, cancelled, a)
    ensures Forward(a, AttemptNext(svc, cancelled, count, a, ev))
  {
    StateForward(svc, cancelled, count, a, ev);
    if Claimed(a, a.intent) {
      ClaimForward(svc, cancelled, count, a, ev);
    }
  }

  ghost predicate AllForward(s: State, t: State) {
    |s.attempts| <= |t.attempts| && forall i :: 0 <= i < |s.attempts| ==> Forward(s.attempts[i], t.attempts[i])
  }

  lemma ForwardFrom(s: State, t: State, i: nat, b: Attempt, appended: seq<Attempt>)
    requires i < |s.attempts| && t.attempts == s.attempts[i := b] + appended
    requires Forward(s.attempts[i], b)
    ensures AllForward(s, t)
  {
  }

  lemma AttemptForward(cfg: Services, s: State, t: State, i: nat, ev: AttemptEvent)
    requires Inv(cfg, s) && AttemptEnabled(cfg, s, i, ev) && t == AttemptApply(cfg, s, i, ev)
    ensures AllForward(s, t)
  {
    hide Forward, AllForward;
    var a := s.attempts[i];
    var svc, count := cfg[a.name], s.restarts.Of(a.name);
    AttemptEffect(cfg, s, i, ev);
    LocalForward(svc, s.down.cancelled, count, a, ev);
    ForwardFrom(s, t, i, AttemptNext(svc, s.down.cancelled, count, a, ev),
                if Schedules(a.phase) then [NewAttempt(a.name, false)] else []);
  }

  lemma HealthForward(svc: Service, a: Attempt, ev: HealthEvent)
    ensures Forward(a, HealthNext(svc, a, ev))
  {
  }

  lemma OperatorForward(a: Attempt)
    ensures Forward(a, a.(intent := CasIntent(a.intent, OperatorIntent)))
  {
  }

  lemma GrownForward(s: State, t: State)
    requires s.attempts <= t.attempts
    ensures AllForward(s, t)
  {
  }

  lemma MainGrows(cfg: Services, s: State, n: Name, ev: MainEvent)
    requires MainEnabled(cfg, s, n, ev)
    ensures s.attempts <= MainApply(cfg, s, n, ev).attempts
  {
  }

  lemma StepForward(cfg: Services, s: State, step: Step)
    requires Inv(cfg, s) && Enabled(cfg, s, step)
    ensures AllForward(s, Apply(cfg, s, step))
  {
    hide Inv, Forward, AllForward;
    var t := Apply(cfg, s, step);
    match step {
      case AttemptStep(i, ev) => AttemptForward(cfg, s, t, i, ev);
      case HealthStep(i, ev) =>
        HealthForward(cfg[s.attempts[i].name], s.attempts[i], ev);
        ForwardFrom(s, t, i, t.attempts[i], []);
      case OperatorRestart(i) =>
        OperatorForward(s.attempts[i]);
        ForwardFrom(s, t, i, t.attempts[i], []);
      case MainStep(n, ev) =>
        MainGrows(cfg, s, n, ev);
        GrownForward(s, t);
      case SignalStep => GrownForward(s, t);
      case OnceStep(_) => GrownForward(s, t);
    }
  }

  lemma {:induction false} RunForward(cfg: Services, s: State, steps: seq<Step>)
    requires Inv(cfg, s) && Runs(cfg, s, steps)
    ensures AllForward(s, Exec(cfg, s, steps))
    decreases |steps|
  {
    if steps != [] {
      var t := Apply(cfg, s, steps[0]);
      StepForward(cfg, s, steps[0]);
      StepKeepsInv(cfg, s, steps[0]);
      RunForward(cfg, t, steps[1..]);
      var u := Exec(cfg, t, steps[1..]);
      forall i | 0 <= i < |s.attempts| ensures Forward(s.attempts[i], u.attempts[i]) {
        assert Forward(s.attempts[i], t.attempts[i]) && Forward(t.attempts[i], u.attempts[i]);
      }
    }
  }

  lemma LeadsForward(cfg: Services, s: State, t: State)
    requires Reachable(cfg, s) && Leads(cfg, s, t)
    ensures AllForward(s, t)
  {
    ReachableInv(cfg, s);
    LeadsInv(cfg, s, t);
    var steps :| Runs(cfg, s, steps) && Exec(cfg, s, steps) == t;
    RunForward(cfg, s, steps);
  }

  /** `finishService` has not read the intent yet. */
  predicate BeforeRead(p: Phase) { p.Live? && !p.live.Record? && !p.live.Remove? }

  /** The first accepted stop request is kept, is the one acted on at finish, and is never reported as a failure. */
  lemma WinningRequest(cfg: Services, s: State, t: State, i: nat)
    requires Reachable(cfg, s) && Leads(cfg, s, t) && i < |s.attempts|
    requires BeforeRead(s.attempts[i].phase) && !s.attempts[i].intent.NoIntent?
    ensures i < |t.attempts|
    ensures var a, b := s.attempts[i], t.attempts[i];
            && b.intent == a.intent && !b.state.Failed?
            && (b.phase.Post? ==> b.phase.exit.intent == a.intent)
            && (b.phase.Returned? ==> b.phase.outcome.Ended? && b.phase.outcome.exit.intent == a.intent)
  {
    LeadsForward(cfg, s, t);
    ReachableAttempt(cfg, s, i);
    assert Claimed(s.attempts[i], s.attempts[i].intent);
    assert Forward(s.attempts[i], t.attempts[i]);
  }

  /** States only move forward, the intent is written once, and only a process asked to stop is ever Stopping. */
  lemma StateOnlyMovesForward(cfg: Services, s: State, t: State, i: nat)
    requires Reachable(cfg, s) && Leads(cfg, s, t) && i < |s.attempts|
    ensures i < |t.attempts|
    ensures var a, b := s.attempts[i], t.attempts[i];
            && (a.state == b.state || StateRank(a.state) < StateRank(b.state))
            && (a.intent.NoIntent? || b.intent == a.intent)
            && (b.state.Stopping? ==> !b.intent.NoIntent?)
            && (b.state.Failed? ==> b.phase == Live(Remove(Exit(NoIntent, true))))
  {
    LeadsForward(cfg, s, t);
    LeadsOn(cfg, Init(cfg), s, t);
    assert Forward(s.attempts[i], t.attempts[i]);
    ReachableAttempt(cfg, t, i);
  }

  /** The exit as `finishService` has read it, once it has. */
  function ExitRead(p: Phase): Option<Exit> {
    match p
    case Live(Record) => Some(Exit(NoIntent, true))
    case Live(Remove(e)) => Some(e)
    case Post(_, e) => Some(e)
    case Returned(Ended(e)) => Some(e)
    case _ => None
  }

  ghost predicate ReadsKept(s: State, t: State) {
    |s.attempts| <= |t.attempts| &&
    forall i :: 0 <= i < |s.attempts| && ExitRead(s.attempts[i].phase).Some? ==>
      ExitRead(t.attempts[i].phase) == ExitRead(s.attempts[i].phase)
  }

  lemma NextKeepsRead(svc: Service, cancelled: bool, count: int, a: Attempt, ev: AttemptEvent)
    ensures ExitRead(a.phase).Some? ==> ExitRead(AttemptNext(svc, cancelled, count, a, ev).phase) == ExitRead(a.phase)
  {
  }

  lemma ReadsFrom(s: State, t: State, i: nat, b: Attempt, appended: seq<Attempt>)
    requires i < |s.attempts| && t.attempts == s.attempts[i := b] + appended
    requires ExitRead(s.attempts[i].phase).Some? ==> ExitRead(b.phase) == ExitRead(s.attempts[i].phase)
    ensures ReadsKept(s, t)
  {
  }

  lemma AttemptKeepsReads(cfg: Services, s: State, t: State, i: nat, ev: AttemptEvent)
    requires Inv(cfg, s) && AttemptEnabled(cfg, s, i, ev) && t == AttemptApply(cfg, s, i, ev)
    ensures ReadsKept(s, t)
  {
    hide ReadsKept, ExitRead;
    var a := s.attempts[i];
    var svc, count := cfg[a.name], s.restarts.Of(a.name);
    AttemptEffect(cfg, s, i, ev);
    NextKeepsRead(svc, s.down.cancelled, count, a, ev);
    ReadsFrom(s, t, i, AttemptNext(svc, s.down.cancelled, count, a, ev),
              if Schedules(a.phase) then [NewAttempt(a.name, false)] else []);
  }

  lemma GrownKeepsReads(s: State, t: State)
    requires s.attempts <= t.attempts
    ensures ReadsKept(s, t)
  {
  }

  lemma StepKeepsReads(cfg: Services, s: State, t: State, step: Step)
    requires Inv(cfg, s) && Enabled(cfg, s, step) && t == Apply(cfg, s, step)
    ensures ReadsKept(s, t)
  {
    hide Inv, ReadsKept, ExitRead;
    match step {
      case AttemptStep(i, ev) => AttemptKeepsReads(cfg, s, t, i, ev);
      case HealthStep(i, _) => ReadsFrom(s, t, i, t.attempts[i], []);
      case OperatorRestart(i) => ReadsFrom(s, t, i, t.attempts[i], []);
      case MainStep(n, ev) =>
        MainGrows(cfg, s, n, ev);
        GrownKeepsReads(s, t);
      case SignalStep => GrownKeepsReads(s, t);
      case OnceStep(_) => GrownKeepsReads(s, t);
    }
  }

  lemma {:induction false} RunKeepsReads(cfg: Services, s: State, steps: seq<Step>)
    requires Inv(cfg, s) && Runs(cfg, s, steps)
    ensures ReadsKept(s, Exec(cfg, s, steps))
    decreases |steps|
  {
    if steps != [] {
      var t := Apply(cfg, s, steps[0]);
      StepKeepsInv(cfg, s, steps[0]);
      StepKeepsReads(cfg, s, t, steps[0]);
      RunKeepsReads(cfg, t, steps[1..]);
    }
  }

  lemma LeadsReads(cfg: Services, s: State, t: State)
    requires Reachable(cfg, s) && Leads(cfg, s, t)
    ensures ReadsKept(s, t)
  {
    ReachableInv(cfg, s);
    var steps :| Runs(cfg, s, steps) && Exec(cfg, s, steps) == t;
    RunKeepsReads(cfg, s, steps);
  }

  /** What `finishService` has read is final: a request accepted later never reaches the exit handling. */
  lemma LateRequestIsUnread(cfg: Services, s: State, t: State, i: nat)
    requires Reachable(cfg, s) && OperatorEnabled(cfg, s, i) && !BeforeRead(s.attempts[i].phase)
    requires Leads(cfg, Apply(cfg, s, OperatorRestart(i)), t)
    ensures i < |t.attempts| && ExitRead(t.attempts[i].phase).Some?
    ensures ExitRead(t.attempts[i].phase).value.intent.NoIntent?
  {
    var s1 := Apply(cfg, s, OperatorRestart(i));
    LeadsByStep(cfg, s, OperatorRestart(i));
    LeadsOn(cfg, s, s1, t);
    LeadsReads(cfg, s, t);
    ReachableAttempt(cfg, s, i);
    assert ExitRead(s.attempts[i].phase).Some?;
  }

  // ----- shutdown never waits on its own caller -----

  /**
   The service whose incarnation the goroutine runs or waits for. `shutdownWg` counts incarnations, and
   only `startService` goroutines count themselves out; monitors and the signal handler are not counted.
   */
  function SlotOf(s: State, who: Caller): Option<Name> {
    match who
    case MainCaller(n) => Some(n)
    case AttemptCaller(i) => if i < |s.attempts| then Some(s.attempts[i].name) else None
    case HealthCaller(_) => None
    case SignalCaller => None
  }

  /** The goroutine that runs `runShutdown` is still inside it. */
  predicate RunnerInside(s: State) {
    var once := s.down.once;
    (once.Begin? || once.Closing? || once.Draining? || once.Forced?) ==> InsideOnce(s, once.who)
  }

  lemma AttemptInside(svc: Service, cancelled: bool, count: int, a: Attempt, ev: AttemptEvent)
    requires AttemptOk(svc, cancelled, a)
    ensures a.health.InShutdown? ==> AttemptNext(svc, cancelled, count, a, ev).health.InShutdown?
  {
  }

  lemma InsideFrom(s: State, t: State, i: nat, b: Attempt, appended: seq<Attempt>, who: Caller)
    requires i < |s.attempts| && t.attempts == s.attempts[i := b] + appended && t.mains == s.mains
    requires t.down.signal == s.down.signal && InsideOnce(s, who)
    requires s.attempts[i].phase.Post? && s.attempts[i].phase.post.InOnce? ==> b.phase == s.attempts[i].phase
    requires s.attempts[i].health.InShutdown? ==> b.health.InShutdown?
    ensures InsideOnce(t, who)
  {
  }

  lemma AttemptStepInside(cfg: Services, s: State, t: State, i: nat, ev: AttemptEvent, who: Caller)
    requires Inv(cfg, s) && AttemptEnabled(cfg, s, i, ev) && t == AttemptApply(cfg, s, i, ev)
    requires InsideOnce(s, who) && !s.down.once.Done?
    ensures InsideOnce(t, who)
  {
    AttemptEffect(cfg, s, i, ev);
    var a := s.attempts[i];
    var b := AttemptNext(cfg[a.name], s.down.cancelled, s.restarts.Of(a.name), a, ev);
    AttemptInside(cfg[a.name], s.down.cancelled, s.restarts.Of(a.name), a, ev);
    InsideFrom(s, t, i, b, if Schedules(a.phase) then [NewAttempt(a.name, false)] else [], who);
  }

  lemma InsideStays(cfg: Services, s: State, t: State, step: Step, who: Caller)
    requires Inv(cfg, s) && Enabled(cfg, s, step) && t == Apply(cfg, s, step)
    requires InsideOnce(s, who) && !s.down.once.Done?
    ensures InsideOnce(t, who)
  {
    hide Inv;
    match step {
      case AttemptStep(i, ev) => AttemptStepInside(cfg, s, t, i, ev, who);
      case HealthStep(i, _) => InsideFrom(s, t, i, t.attempts[i], [], who);
      case OperatorRestart(i) => InsideFrom(s, t, i, t.attempts[i], [], who);
      case MainStep(n, _) => MainStepInside(cfg, s, t, n, step.mainEvent, who);
      case SignalStep =>
      case OnceStep(_) =>
    }
  }

  lemma MainStepInside(cfg: Services, s: State, t: State, n: Name, ev: MainEvent, who: Caller)
    requires MainEnabled(cfg, s, n, ev) && t == MainApply(cfg, s, n, ev)
    requires InsideOnce(s, who) && !s.down.once.Done?
    ensures InsideOnce(t, who)
  {
  }

  lemma StepKeepsRunner(cfg: Services, s: State, t: State, step: Step)
    requires Inv(cfg, s) && RunnerInside(s) && Enabled(cfg, s, step) && t == Apply(cfg, s, step)
    ensures RunnerInside(t)
  {
    hide Inv;
    var once := s.down.once;
    if once.Begin? || once.Closing? || once.Draining? || once.Forced? {
      InsideStays(cfg, s, t, step, once.who);
    }
  }

  lemma {:induction false} RunnerStaysInside(cfg: Services, s: State, steps: seq<Step>)
    requires Inv(cfg, s) && RunnerInside(s) && Runs(cfg, s, steps)
    ensures RunnerInside(Exec(cfg, s, steps))
    decreases |steps|
  {
    if steps != [] {
      var t := Apply(cfg, s, steps[0]);
      StepKeepsInv(cfg, s, steps[0]);
      StepKeepsRunner(cfg, s, t, steps[0]);
      RunnerStaysInside(cfg, t, steps[1..]);
    }
  }

  lemma ReachableRunner(cfg: Services, s: State)
    requires Reachable(cfg, s)
    ensures RunnerInside(s)
  {
    var steps :| Runs(cfg, Init(cfg), steps) && Exec(cfg, Init(cfg), steps) == s;
    InitInv(cfg);
    RunnerStaysInside(cfg, Init(cfg), steps);
  }

  lemma RegisteredIsOutside(cfg: Services, s: State, n: Name)
    requires Inv(cfg, s) && n in s.reg.active
    ensures !InsideOnce(s, MainCaller(n))
  {
    assert StartedOk(cfg, s, s.reg.active[n]);
  }

  lemma CallerHoldsNoSlot(cfg: Services, s: State, who: Caller)
    requires Inv(cfg, s) && InsideOnce(s, who) && SlotOf(s, who).Some?
    ensures SlotOf(s, who).value !in s.reg.active
  {
    hide Inv;
    if who.AttemptCaller? {
      InsideNotRegistered(cfg, s, who.id);
    } else if SlotOf(s, who).value in s.reg.active {
      RegisteredIsOutside(cfg, s, who.name);
    }
  }

  lemma InsideNotRegistered(cfg: Services, s: State, i: nat)
    requires Inv(cfg, s) && InsideOnce(s, AttemptCaller(i))
    ensures s.attempts[i].name !in s.reg.active
  {
    NotRegistered(s, i);
  }

  /** What a registered incarnation does next during a shutdown; only `Reap` waits, for the signalled process. */
  function Leaving(p: Phase): AttemptEvent {
    match p
    case Live(Select) => ContextDone
    case Live(Reap) => ProcessExit(true)
    case _ => Next
  }

  /**
   No goroutine running or blocked inside `shutdownOnce`, the runner included, has its own incarnation
   or that of its service counted by `shutdownWg`, and none of the counted incarnations waits for
   `shutdownOnce`: each of them can move on.
   */
  lemma ShutdownNeverWaitsOnCaller(cfg: Services, s: State, who: Caller, n: Name)
    requires Reachable(cfg, s)
    ensures InsideOnce(s, who) && SlotOf(s, who).Some? ==> SlotOf(s, who).value !in s.reg.active
    ensures s.down.once.Draining? || s.down.once.Forced? ==> s.down.cancelled && InsideOnce(s, s.down.once.who)
    ensures s.down.cancelled && n in s.reg.active ==>
              s.reg.active[n] < |s.attempts|
              && AttemptEnabled(cfg, s, s.reg.active[n], Leaving(s.attempts[s.reg.active[n]].phase))
  {
    ReachableInv(cfg, s);
    ReachableRunner(cfg, s);
    if InsideOnce(s, who) && SlotOf(s, who).Some? {
      CallerHoldsNoSlot(cfg, s, who);
    }
  }

  // ----- what the environment can do, and no more -----

  /** What can come true for an attempt at this place, whatever else is going on. */
  predicate AttemptIsFree(cfg: Services, s: State, i: nat, yes: bool)
    requires i < |s.attempts|
  {
    var a := s.attempts[i];
    && (Enabled(cfg, s, AttemptStep(i, Started(yes))) <==> a.phase == Pre(Launch))
    && (Enabled(cfg, s, AttemptStep(i, ProcessExit(yes))) <==> a.phase == Live(Select) || a.phase == Live(Reap))
    && (Enabled(cfg, s, AttemptStep(i, ContextDone)) <==>
          a.phase == Live(Select) && (s.down.cancelled || a.intent != NoIntent))
    && (Enabled(cfg, s, OperatorRestart(i)) <==>
          a.intent == NoIntent && (a.phase.Live? || a.phase.Post? || (a.phase.Returned? && a.phase.outcome.Ended?)))
    && (Enabled(cfg, s, HealthStep(i, Unhealthy)) <==> a.health == Watching)
    && (Enabled(cfg, s, HealthStep(i, Cancelled)) <==>
          a.health == Watching
          && (s.down.cancelled || ExitRead(a.phase).Some? || (a.phase.Live? && a.phase.live.Finish?)))
  }

  /** The same for a `processService` that runs its pre-script or waits. */
  predicate MainIsFree(cfg: Services, s: State, n: Name, yes: bool)
    requires n in cfg && n in s.mains
  {
    match s.mains[n]
    case Before(PreScript) => Enabled(cfg, s, MainStep(n, PreDone(yes))) <==> cfg[n].preScript != "" || yes
    case Before(Waiting(k)) =>
      k < |cfg[n].dependsOn| ==>
        && (Enabled(cfg, s, MainStep(n, DepReady)) <==> cfg[n].dependsOn[k] in s.deps.ready)
        && (Enabled(cfg, s, MainStep(n, DepFailed)) <==> cfg[n].dependsOn[k] in s.deps.failed)
        && (Enabled(cfg, s, MainStep(n, SeesShutdown)) <==> s.down.cancelled)
        && Enabled(cfg, s, MainStep(n, DepTimeout))
    case Before(Grace(k)) =>
      && Enabled(cfg, s, MainStep(n, Advance))
      && (Enabled(cfg, s, MainStep(n, SeesShutdown)) <==>
            s.down.cancelled && k < |cfg[n].dependsOn| && cfg[n].WaitFor(cfg[n].dependsOn[k]) > 0)
    case _ => true
  }

  lemma FreeAttempt(cfg: Services, s: State, i: nat, yes: bool)
    requires i < |s.attempts| && s.attempts[i].name in cfg
    requires AttemptOk(cfg[s.attempts[i].name], s.down.cancelled, s.attempts[i])
    ensures AttemptIsFree(cfg, s, i, yes)
  {
  }

  lemma InvCounter(cfg: Services, s: State)
    requires Inv(cfg, s)
    ensures s.reg.wg == |s.reg.active|
  {
  }

  lemma FreeMain(cfg: Services, s: State, n: Name, yes: bool)
    requires MainOk(cfg, s, n)
    ensures MainIsFree(cfg, s, n, yes)
  {
  }

  /**
   In every reachable state: a launch may succeed or fail and a process may exit with either status; a stop
   request or a shutdown, and nothing else, wakes whoever waits for its process; an operator may ask for a
   restart from the registration on as long as nothing else was asked for; a monitor may find its service
   unhealthy until the shutdown or the end of the process cancels it; a pre-script may go either way, if there
   is one; a dependency wait may end by any mark that is there, by the shutdown if it is on, and by its timeout;
   a grace period is cut short by the shutdown if it takes any time; a signal may come. A shutdown waits only
   if services are registered, until none is or it times out.
   */
  lemma EnvironmentIsFree(cfg: Services, s: State, yes: bool)
    requires Reachable(cfg, s)
    ensures forall i :: 0 <= i < |s.attempts| ==> AttemptIsFree(cfg, s, i, yes)
    ensures forall n :: n in cfg ==> n in s.mains && MainIsFree(cfg, s, n, yes)
    ensures s.down.signal.Listening? ==> Enabled(cfg, s, SignalStep)
    ensures s.down.once.Closing? ==>
              && Enabled(cfg, s, OnceStep(Proceeds))
              && (Apply(cfg, s, OnceStep(Proceeds)).down.once.Done? <==> s.reg.active == map[])
    ensures s.down.once.Draining? || s.down.once.Forced? ==>
              (Enabled(cfg, s, OnceStep(WaitGroupZero)) <==> !s.down.drained && s.reg.active == map[])
    ensures s.down.once.Draining? ==> Enabled(cfg, s, OnceStep(GlobalTimeout))
    ensures s.down.once.Forced? ==> Enabled(cfg, s, OnceStep(ForceTimeout))
  {
    hide Inv, AttemptIsFree, MainIsFree;
    ReachableInv(cfg, s);
    InvCounter(cfg, s);
    forall i | 0 <= i < |s.attempts| ensures AttemptIsFree(cfg, s, i, yes) {
      ReachableAttempt(cfg, s, i);
      FreeAttempt(cfg, s, i, yes);
    }
    forall n | n in cfg ensures n in s.mains && MainIsFree(cfg, s, n, yes) {
      InvMain(cfg, s, n);
      FreeMain(cfg, s, n, yes);
    }
  }
}
