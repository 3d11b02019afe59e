/** The global invariant of the supervisor and its preservation by every step. */
module Invariant {
  import opened Config
  import opened Supervisor

  // ----- what holds of one attempt on its own -----

  /** Past the point where `startService` marks a long-running service ready. */
  predicate PastPublish(p: Phase) {
    || (p.Live? && !p.live.Announce? && !p.live.Monitor? && !p.live.Publish?)
    || p.Post?
    || (p.Returned? && p.outcome.Ended?)
  }

  /** `ServiceProcess` as created: nothing has touched its intent, state or monitor. */
  predicate Untouched(a: Attempt) { a.intent.NoIntent? && a.state.Pending? && a.health.NoMonitor? }

  predicate IntentOk(svc: Service, cancelled: bool, a: Attempt) {
    && (a.intent.ShutdownIntent? ==> cancelled)
    && (a.intent.PolicyIntent? ==> svc.RestartsOnFailure())
    && (a.health.Alarm? || a.health.InShutdown? ==> svc.required && !svc.RestartsOnFailure())
  }

  /** A requested exit carries the one intent that was ever written. */
  predicate ExitOk(a: Attempt, e: Exit) { !e.intent.NoIntent? ==> e.intent == a.intent }

  predicate LiveOk(cancelled: bool, a: Attempt, p: LivePhase) {
    && (a.state.Stopping? ==> !a.intent.NoIntent?)
    && (p.Announce? || p.Monitor? ==> a.health.NoMonitor?)
    && match p
       case Announce => a.state.Starting?
       case Request => a.state.Running? && (cancelled || !a.intent.NoIntent?)
       case Stop => a.state.Running? && !a.intent.NoIntent?
       case Reap => a.state.Stopping?
       case Finish(_) => a.state.Running? || a.state.Stopping?
       case Remove(e) =>
         && ExitOk(a, e)
         && (if e.intent.NoIntent? then a.state == (if e.failed then Failed else Running)
             else a.state.Running? || a.state.Stopping?)
       case _ => a.state.Running?
  }

  /** Neither an operator nor a shutdown asked for the exit. */
  predicate Unasked(e: Exit) { e.intent.NoIntent? || e.intent.PolicyIntent? }

  predicate PostOk(svc: Service, a: Attempt, p: PostPhase, e: Exit) {
    && a.state.Stopped? && ExitOk(a, e)
    && match p
       case Reset => e.intent.OperatorIntent?
       case Decide => Unasked(e)
       case Count => Unasked(e) && svc.RestartsOnFailure()
       case Schedule => e.intent.OperatorIntent? || (Unasked(e) && svc.RestartsOnFailure())
       case Trigger => Unasked(e) && svc.required && (svc.RestartsOnFailure() || ExitErr(e))
       case InOnce => Unasked(e) && svc.required && (svc.RestartsOnFailure() || ExitErr(e))
  }

  predicate AttemptOk(svc: Service, cancelled: bool, a: Attempt) {
    && IntentOk(svc, cancelled, a)
    && match a.phase
       case Pre(p) => Untouched(a) && (p.Timer? || p.Fired? ==> !a.first)
       case Register => Untouched(a)
       case Live(p) => LiveOk(cancelled, a, p)
       case Post(p, e) => PostOk(svc, a, p, e)
       case Returned(outcome) =>
         match outcome
         case Skipped => cancelled && Untouched(a)
         case StartError => Untouched(a)
         case Ended(e) => a.state.Stopped? && ExitOk(a, e)
  }

  // ----- the global invariant -----

  ghost predicate Shape(cfg: Services, s: State) {
    && s.mains.Keys == cfg.Keys
    && (forall i :: 0 <= i < |s.attempts| ==> s.attempts[i].name in cfg)
    && (forall i :: 0 <= i < |s.attempts| ==> AttemptOk(cfg[s.attempts[i].name], s.down.cancelled, s.attempts[i]))
  }

  /** Attempts of one service never overlap: all but the newest ended and were restarted from. */
  ghost predicate Lineage(s: State) {
    forall i, j :: 0 <= i < j < |s.attempts| && s.attempts[i].name == s.attempts[j].name ==>
      s.attempts[i].phase.Returned? && s.attempts[i].phase.outcome.Ended? && !s.attempts[j].first
  }

  /** `activeServices` holds exactly the incarnations between add and remove; `shutdownWg` counts them. */
  ghost predicate Slots(s: State) {
    && (forall i :: 0 <= i < |s.attempts| && s.attempts[i].phase.Live? ==>
          s.attempts[i].name in s.reg.active && s.reg.active[s.attempts[i].name] == i)
    && (forall n :: n in s.reg.active ==>
          && s.reg.active[n] < |s.attempts|
          && s.attempts[s.reg.active[n]].name == n
          && s.attempts[s.reg.active[n]].phase.Live?)
    && s.reg.wg == |s.reg.active|
  }

  ghost predicate NoAttempts(s: State, n: Name) {
    forall i :: 0 <= i < |s.attempts| ==> s.attempts[i].name != n
  }

  ghost predicate BeforeOk(svc: Service, s: State, n: Name, stage: BeforeStart) {
    && NoAttempts(s, n) && n !in s.deps.ready && n !in s.deps.failed
    && match stage
       case PreTrigger => svc.required
       case PreOnce => svc.required
       case Waiting(i) => i <= |svc.dependsOn| && forall k :: 0 <= k < i ==> svc.dependsOn[k] in s.deps.ready
       case Grace(i) => i < |svc.dependsOn| && forall k :: 0 <= k <= i ==> svc.dependsOn[k] in s.deps.ready
       case _ => true
  }

  ghost predicate MainOk(cfg: Services, s: State, n: Name) {
    n in cfg && n in s.mains &&
    var svc := cfg[n];
    match s.mains[n]
    case Before(stage) => BeforeOk(svc, s, n, stage)
    case Awaiting(i) =>
      && i < |s.attempts| && s.attempts[i].name == n && s.attempts[i].first
      && n !in s.deps.failed
      && (n in s.deps.ready ==> !svc.oneshot && PastPublish(s.attempts[i].phase))
    case ErrTrigger => svc.required && n in s.deps.failed
    case ErrOnce => svc.required && n in s.deps.failed
    case Finished => !s.down.cancelled ==> n in s.deps.ready || n in s.deps.failed
  }

  /** `processService` reports that the service did not start. */
  predicate Complains(m: Main) { m.ErrTrigger? || m.ErrOnce? }

  ghost predicate DepsReady(cfg: Services, s: State, n: Name) {
    n in cfg && forall d :: d in cfg[n].dependsOn ==> d in s.deps.ready
  }

  ghost predicate StartedOk(cfg: Services, s: State, i: nat) {
    i < |s.attempts| &&
    var a := s.attempts[i];
    && a.name in cfg && a.name in s.mains
    && DepsReady(cfg, s, a.name)
    && !s.mains[a.name].Before?
    && (!cfg[a.name].oneshot && PastPublish(a.phase) ==> a.name in s.deps.ready)
    && (!cfg[a.name].oneshot && a.name in s.deps.failed ==> a.phase == Returned(StartError))
    && (Complains(s.mains[a.name]) ==> a.phase == Returned(StartError))
  }

  ghost predicate Marks(cfg: Services, s: State) {
    && s.deps.ready <= cfg.Keys && s.deps.failed <= cfg.Keys && s.deps.ready !! s.deps.failed
    && (forall n :: n in s.deps.ready ==> DepsReady(cfg, s, n))
    && (forall n :: n in cfg ==> MainOk(cfg, s, n))
    && (forall i :: 0 <= i < |s.attempts| ==> StartedOk(cfg, s, i))
  }

  ghost predicate ShutdownOk(s: State) {
    && (s.down.cancelled <==> !s.down.once.Idle? && !s.down.once.Begin?)
    && (s.down.drained ==> s.down.once.Draining? || s.down.once.Forced? || s.down.once.Done?)
    && (s.down.exitCode == 0 || s.down.exitCode == 1)
  }

  ghost predicate Inv(cfg: Services, s: State) {
    Shape(cfg, s) && Lineage(s) && Slots(s) && Marks(cfg, s) && ShutdownOk(s)
  }

  lemma InvLineage(cfg: Services, s: State)
    requires Inv(cfg, s)
    ensures Lineage(s)
  {
  }

  lemma InvStarted(cfg: Services, s: State, i: nat)
    requires Inv(cfg, s) && i < |s.attempts|
    ensures StartedOk(cfg, s, i)
  {
  }

  lemma InvMain(cfg: Services, s: State, n: Name)
    requires Inv(cfg, s) && n in cfg
    ensures MainOk(cfg, s, n)
  {
  }

  lemma InitInv(cfg: Services)
    ensures Inv(cfg, Init(cfg))
  {
  }

  // ----- preservation: the kinds of change a step can make -----

  lemma PreNextOk(svc: Service, cancelled: bool, a: Attempt, ev: AttemptEvent)
    requires AttemptOk(svc, cancelled, a) && a.phase.Pre?
    ensures AttemptOk(svc, cancelled, a.(phase := PreNext(cancelled, a.phase.pre, ev)))
  {
  }

  lemma LiveNextOk(svc: Service, cancelled: bool, a: Attempt, ev: AttemptEvent)
    requires AttemptOk(svc, cancelled, a) && a.phase.Live?
    requires a.phase.live.Select? && !ev.ProcessExit? ==> cancelled || !a.intent.NoIntent?
    ensures var b := LiveNext(svc, a, a.phase.live, ev);
            AttemptOk(svc, cancelled, if a.phase.live.Remove? then b.(state := Stopped) else b)
  {
  }

  lemma PostNextOk(svc: Service, cancelled: bool, count: int, a: Attempt)
    requires AttemptOk(svc, cancelled, a) && a.phase.Post?
    ensures AttemptOk(svc, cancelled, a.(phase := PostNext(svc, count, a.phase.post, a.phase.exit)))
  {
  }

  lemma ShapePut(cfg: Services, s: State, t: State, i: nat, b: Attempt)
    requires Shape(cfg, s) && i < |s.attempts|
    requires t.attempts == s.attempts[i := b] && t.mains.Keys == s.mains.Keys && t.down.cancelled == s.down.cancelled
    requires b.name == s.attempts[i].name && AttemptOk(cfg[b.name], s.down.cancelled, b)
    ensures Shape(cfg, t)
  {
  }

  lemma ShapeAppend(cfg: Services, s: State, t: State, n: Name, first: bool)
    requires Shape(cfg, s) && n in cfg
    requires t.attempts == s.attempts + [NewAttempt(n, first)]
    requires t.mains.Keys == s.mains.Keys && t.down.cancelled == s.down.cancelled
    ensures Shape(cfg, t)
  {
  }

  lemma LineagePut(s: State, t: State, i: nat, b: Attempt)
    requires Lineage(s) && i < |s.attempts| && t.attempts == s.attempts[i := b]
    requires b.name == s.attempts[i].name && b.first == s.attempts[i].first
    requires s.attempts[i].phase.Returned? ==> b.phase == s.attempts[i].phase
    ensures Lineage(t)
  {
  }

  lemma LineageAppend(s: State, t: State, n: Name, first: bool)
    requires Lineage(s) && t.attempts == s.attempts + [NewAttempt(n, first)]
    requires first ==> NoAttempts(s, n)
    requires forall i :: 0 <= i < |s.attempts| && s.attempts[i].name == n ==>
               s.attempts[i].phase.Returned? && s.attempts[i].phase.outcome.Ended?
    ensures Lineage(t)
  {
  }

  lemma SlotsPut(s: State, t: State, i: nat, b: Attempt)
    requires Slots(s) && i < |s.attempts| && t.attempts == s.attempts[i := b]
    requires b.name == s.attempts[i].name && (b.phase.Live? <==> s.attempts[i].phase.Live?)
    requires t.reg.active == s.reg.active && t.reg.wg == s.reg.wg
    ensures Slots(t)
  {
  }

  lemma SlotsAppend(s: State, t: State, n: Name, first: bool)
    requires Slots(s) && t.attempts == s.attempts + [NewAttempt(n, first)]
    requires t.reg.active == s.reg.active && t.reg.wg == s.reg.wg
    ensures Slots(t)
  {
  }

  /** No other incarnation of the name is registered, so `addActiveService` never overwrites one. */
  lemma NotRegistered(s: State, i: nat)
    requires Slots(s) && Lineage(s) && i < |s.attempts|
    requires !s.attempts[i].phase.Live? && !s.attempts[i].phase.Returned?
    ensures s.attempts[i].name !in s.reg.active
  {
  }

  lemma SlotsAddLive(s: State, t: State, i: nat, b: Attempt)
    requires Slots(s) && i < |s.attempts| && t.attempts == s.attempts[i := b]
    requires b.name !in s.reg.active && t.reg.active == s.reg.active[b.name := i]
    ensures forall k :: 0 <= k < |t.attempts| && t.attempts[k].phase.Live? ==>
              t.attempts[k].name in t.reg.active && t.reg.active[t.attempts[k].name] == k
  {
    forall k | 0 <= k < |t.attempts| && t.attempts[k].phase.Live?
      ensures t.attempts[k].name in t.reg.active && t.reg.active[t.attempts[k].name] == k
    {
      if k != i {
        assert s.attempts[k].name in s.reg.active;
      }
    }
  }

  lemma SlotsAddNames(s: State, t: State, i: nat, b: Attempt)
    requires Slots(s) && i < |s.attempts| && !s.attempts[i].phase.Live? && b.phase.Live?
    requires t.attempts == s.attempts[i := b] && t.reg.active == s.reg.active[b.name := i]
    ensures forall n :: n in t.reg.active ==>
              && t.reg.active[n] < |t.attempts|
              && t.attempts[t.reg.active[n]].name == n
              && t.attempts[t.reg.active[n]].phase.Live?
  {
    forall n | n in t.reg.active
      ensures t.reg.active[n] < |t.attempts| && t.attempts[t.reg.active[n]].name == n
              && t.attempts[t.reg.active[n]].phase.Live?
    {
      if n != b.name {
        assert n in s.reg.active && s.reg.active[n] != i;
      }
    }
  }

  lemma OneMore(active: map<Name, nat>, n: Name, i: nat)
    requires n !in active
    ensures |active[n := i]| == |active| + 1
  {
    assert active[n := i].Keys == active.Keys + {n};
  }

  lemma SlotsAdd(s: State, t: State, i: nat, b: Attempt)
    requires Slots(s) && Lineage(s) && i < |s.attempts| && s.attempts[i].phase.Register?
    requires t.attempts == s.attempts[i := b] && b.name == s.attempts[i].name && b.phase.Live?
    requires t.reg.active == s.reg.active[b.name := i] && t.reg.wg == s.reg.wg + 1
    ensures b.name !in s.reg.active
    ensures Slots(t)
  {
    hide Lineage;
    NotRegistered(s, i);
    SlotsAddLive(s, t, i, b);
    SlotsAddNames(s, t, i, b);
    OneMore(s.reg.active, b.name, i);
  }

  lemma SlotsRemove(s: State, t: State, i: nat, b: Attempt)
    requires Slots(s) && i < |s.attempts| && s.attempts[i].phase.Live?
    requires t.attempts == s.attempts[i := b] && b.name == s.attempts[i].name && !b.phase.Live?
    requires t.reg.active == s.reg.active - {b.name} && t.reg.wg == s.reg.wg - 1
    ensures Slots(t)
  {
    assert t.reg.active.Keys == s.reg.active.Keys - {b.name};
  }

  lemma MarksPut(cfg: Services, s: State, t: State, i: nat, b: Attempt)
    requires Shape(cfg, s) && Marks(cfg, s) && Shape(cfg, t) && i < |s.attempts|
    requires t.attempts == s.attempts[i := b] && t.mains == s.mains && t.deps.failed == s.deps.failed
    requires t.deps.ready == s.deps.ready && t.down.cancelled == s.down.cancelled
    requires b.name == s.attempts[i].name && b.first == s.attempts[i].first
    requires s.attempts[i].phase.Returned? ==> b.phase == s.attempts[i].phase
    requires PastPublish(s.attempts[i].phase) ==> PastPublish(b.phase)
    requires !cfg[b.name].oneshot && PastPublish(b.phase) ==> b.name in s.deps.ready
    ensures Marks(cfg, t)
  {
    forall k | 0 <= k < |t.attempts| ensures StartedOk(cfg, t, k) { assert StartedOk(cfg, s, k); }
    forall m | m in cfg ensures MainOk(cfg, t, m) { assert MainOk(cfg, s, m); }
  }

  lemma MarksAppend(cfg: Services, s: State, t: State, n: Name, first: bool)
    requires Shape(cfg, s) && Marks(cfg, s) && Shape(cfg, t) && n in cfg
    requires t.attempts == s.attempts + [NewAttempt(n, first)]
    requires t.deps.failed == s.deps.failed && t.deps.ready == s.deps.ready
    requires t.mains == s.mains && t.down.cancelled == s.down.cancelled
    requires DepsReady(cfg, s, n) && !s.mains[n].Before? && (cfg[n].oneshot || n !in s.deps.failed)
    requires !Complains(s.mains[n])
    ensures Marks(cfg, t)
  {
    forall k | 0 <= k < |t.attempts| ensures StartedOk(cfg, t, k) {
      if k < |s.attempts| { assert StartedOk(cfg, s, k); }
    }
    forall m | m in cfg ensures MainOk(cfg, t, m) { assert MainOk(cfg, s, m); }
  }

  /** `startService` marks a long-running service ready. */
  lemma MarksPublish(cfg: Services, s: State, t: State, i: nat)
    requires Shape(cfg, s) && Marks(cfg, s) && Lineage(s) && i < |s.attempts|
    requires s.attempts[i].phase == Live(Publish) && !cfg[s.attempts[i].name].oneshot
    requires t.attempts == s.attempts[i := s.attempts[i].(phase := Live(Select))] && t.mains == s.mains
    requires t.deps == s.deps.MarkReady(s.attempts[i].name) && t.down.cancelled == s.down.cancelled
    requires Shape(cfg, t)
    ensures Marks(cfg, t)
  {
    var n := s.attempts[i].name;
    assert StartedOk(cfg, s, i);
    forall k | 0 <= k < |t.attempts| ensures StartedOk(cfg, t, k) { assert StartedOk(cfg, s, k); }
    forall m | m in cfg ensures MainOk(cfg, t, m) { assert MainOk(cfg, s, m); }
  }

  /** `processService` moves on without touching marks or attempts. */
  lemma MarksMove(cfg: Services, s: State, t: State, n: Name, m: Main)
    requires Shape(cfg, s) && Marks(cfg, s) && n in cfg && Shape(cfg, t)
    requires t.mains == s.mains[n := m] && t.attempts == s.attempts && t.down.cancelled == s.down.cancelled
    requires s.deps.ready <= t.deps.ready <= s.deps.ready + {n} && s.deps.failed <= t.deps.failed <= s.deps.failed + {n}
    requires n in t.deps.ready && n !in s.deps.ready ==> DepsReady(cfg, s, n) && n !in t.deps.failed
    requires n in t.deps.failed && n !in s.deps.failed ==>
      n !in t.deps.ready && (cfg[n].oneshot || forall k :: 0 <= k < |s.attempts| && s.attempts[k].name == n ==>
                                            s.attempts[k].phase == Returned(StartError))
    requires !m.Before? || s.mains[n].Before?
    requires Complains(m) ==> forall k :: 0 <= k < |s.attempts| && s.attempts[k].name == n ==>
                                s.attempts[k].phase == Returned(StartError)
    requires MainOk(cfg, t, n)
    ensures Marks(cfg, t)
  {
    forall k | 0 <= k < |t.attempts| ensures StartedOk(cfg, t, k) { assert StartedOk(cfg, s, k); }
    forall o | o in cfg ensures MainOk(cfg, t, o) { assert MainOk(cfg, s, o); }
  }

  // ----- every step keeps the invariant -----

  lemma SameAttempts(cfg: Services, s: State, t: State)
    requires Inv(cfg, s)
    requires t.mains.Keys == s.mains.Keys && t.attempts == s.attempts
    requires t.reg.active == s.reg.active && t.reg.wg == s.reg.wg
    requires t.down.cancelled == s.down.cancelled && t.down.once == s.down.once && t.down.drained == s.down.drained
    requires t.down.exitCode == s.down.exitCode || t.down.exitCode == 1
    ensures Shape(cfg, t) && Lineage(t) && Slots(t) && ShutdownOk(t)
  {
  }

  lemma BeforeNextOk(cfg: Services, s: State, t: State, n: Name, stage: BeforeStart, ev: MainEvent)
    requires n in cfg && BeforeOk(cfg[n], s, n, stage) && BeforeEnabled(cfg[n], s, stage, ev)
    requires stage.Waiting? ==> stage.dep < |cfg[n].dependsOn|
    requires n in t.mains && t.mains[n] == BeforeNext(cfg[n], s.down.cancelled, stage, ev)
    requires t.attempts == s.attempts && t.deps.ready == s.deps.ready && t.down.cancelled == s.down.cancelled
    requires t.deps.failed == if stage.Failing? then s.deps.failed + {n} else s.deps.failed
    ensures MainOk(cfg, t, n)
  {
  }

  lemma BeforeKeepsInv(cfg: Services, s: State, t: State, n: Name, stage: BeforeStart, ev: MainEvent)
    requires Inv(cfg, s) && n in cfg && s.mains[n] == Before(stage) && BeforeEnabled(cfg[n], s, stage, ev)
    requires t == BeforeApply(cfg[n], s, n, stage, ev)
    ensures Inv(cfg, t)
  {
    assert MainOk(cfg, s, n);
    if stage.Waiting? && stage.dep >= |cfg[n].dependsOn| {
      ShapeAppend(cfg, s, t, n, true);
      LineageAppend(s, t, n, true);
      SlotsAppend(s, t, n, true);
      StartKeepsMarks(cfg, s, t, n);
    } else {
      SameAttempts(cfg, s, t);
      BeforeNextOk(cfg, s, t, n, stage, ev);
      MarksMove(cfg, s, t, n, t.mains[n]);
    }
  }

  lemma StartKeepsMarks(cfg: Services, s: State, t: State, n: Name)
    requires Shape(cfg, s) && Marks(cfg, s) && Shape(cfg, t) && n in cfg && NoAttempts(s, n)
    requires DepsReady(cfg, s, n) && n !in s.deps.failed && n !in s.deps.ready
    requires t.mains == s.mains[n := Awaiting(|s.attempts|)] && t.attempts == s.attempts + [NewAttempt(n, true)]
    requires t.deps == s.deps && t.down.cancelled == s.down.cancelled
    ensures Marks(cfg, t)
  {
    forall k | 0 <= k < |t.attempts| ensures StartedOk(cfg, t, k) {
      if k < |s.attempts| { assert StartedOk(cfg, s, k); }
    }
    forall o | o in cfg ensures MainOk(cfg, t, o) { assert MainOk(cfg, s, o); }
  }

  lemma SettleNextOk(cfg: Services, s: State, t: State, n: Name, i: nat)
    requires MainOk(cfg, s, n) && s.mains[n] == Awaiting(i) && StartedOk(cfg, s, i)
    requires s.attempts[i].phase.Returned? && AttemptOk(cfg[n], s.down.cancelled, s.attempts[i])
    requires t == SettleApply(cfg[n], s, n, s.attempts[i].phase.outcome)
    ensures MainOk(cfg, t, n) && DepsReady(cfg, s, n)
    ensures n !in t.deps.ready || n !in t.deps.failed
    ensures n in t.deps.failed && !cfg[n].oneshot ==> s.attempts[i].phase == Returned(StartError)
  {
  }

  /** A service whose first start failed has no other attempt. */
  lemma OnlyAttempt(s: State, n: Name, i: nat)
    requires Lineage(s) && i < |s.attempts| && s.attempts[i].name == n && s.attempts[i].first
    requires s.attempts[i].phase == Returned(StartError)
    ensures forall k :: 0 <= k < |s.attempts| && s.attempts[k].name == n ==> k == i
  {
  }

  lemma SettleMarks(cfg: Services, s: State, t: State, n: Name, i: nat)
    requires Shape(cfg, s) && Lineage(s) && Marks(cfg, s) && Shape(cfg, t)
    requires n in cfg && s.mains[n] == Awaiting(i) && i < |s.attempts|
    requires s.attempts[i].phase.Returned?
    requires t == SettleApply(cfg[n], s, n, s.attempts[i].phase.outcome)
    ensures Marks(cfg, t)
  {
    assert MainOk(cfg, s, n) && StartedOk(cfg, s, i);
    SettleNextOk(cfg, s, t, n, i);
    if s.attempts[i].phase == Returned(StartError) {
      OnlyAttempt(s, n, i);
    }
    MarksMove(cfg, s, t, n, t.mains[n]);
  }

  lemma SettleKeepsInv(cfg: Services, s: State, t: State, n: Name, i: nat)
    requires Inv(cfg, s) && n in cfg && s.mains[n] == Awaiting(i) && i < |s.attempts|
    requires s.attempts[i].phase.Returned?
    requires t == SettleApply(cfg[n], s, n, s.attempts[i].phase.outcome)
    ensures Inv(cfg, t)
  {
    SameAttempts(cfg, s, t);
    SettleMarks(cfg, s, t, n, i);
  }

  lemma ErrKeepsInv(cfg: Services, s: State, t: State, n: Name)
    requires Inv(cfg, s) && n in cfg && (s.mains[n].ErrTrigger? || s.mains[n].ErrOnce?)
    requires t.mains == s.mains[n := if s.mains[n].ErrTrigger? then ErrOnce else Finished]
    requires t.attempts == s.attempts && t.deps == s.deps && t.reg == s.reg
    requires t.down == s.down || t.down == s.down.Fail()
    ensures Inv(cfg, t)
  {
    assert MainOk(cfg, s, n);
    SameAttempts(cfg, s, t);
    forall k | 0 <= k < |s.attempts| && s.attempts[k].name == n ensures s.attempts[k].phase == Returned(StartError) {
      assert StartedOk(cfg, s, k);
    }
    MarksMove(cfg, s, t, n, t.mains[n]);
  }

  /** One attempt changes without entering or leaving `activeServices`. */
  lemma PutKeepsInv(cfg: Services, s: State, t: State, i: nat, b: Attempt)
    requires Inv(cfg, s) && i < |s.attempts| && t.attempts == s.attempts[i := b]
    requires t.mains == s.mains && t.deps == s.deps && t.reg == s.reg
    requires t.down == s.down || t.down == s.down.Fail()
    requires b.name == s.attempts[i].name && b.first == s.attempts[i].first
    requires AttemptOk(cfg[b.name], s.down.cancelled, b)
    requires b.phase.Live? <==> s.attempts[i].phase.Live?
    requires s.attempts[i].phase.Returned? ==> b.phase == s.attempts[i].phase
    requires PastPublish(s.attempts[i].phase) ==> PastPublish(b.phase)
    requires !cfg[b.name].oneshot && PastPublish(b.phase) ==> b.name in s.deps.ready
    ensures Inv(cfg, t)
  {
    ShapePut(cfg, s, t, i, b);
    LineagePut(s, t, i, b);
    SlotsPut(s, t, i, b);
    MarksPut(cfg, s, t, i, b);
  }

  lemma PreKeepsInv(cfg: Services, s: State, t: State, i: nat, ev: AttemptEvent)
    requires Inv(cfg, s) && i < |s.attempts| && s.attempts[i].phase.Pre?
    requires t == Put(s, i, s.attempts[i].(phase := PreNext(s.down.cancelled, s.attempts[i].phase.pre, ev)))
    ensures Inv(cfg, t)
  {
    PreNextOk(cfg[s.attempts[i].name], s.down.cancelled, s.attempts[i], ev);
    PutKeepsInv(cfg, s, t, i, t.attempts[i]);
  }

  lemma RegisterKeepsInv(cfg: Services, s: State, t: State, i: nat)
    requires Inv(cfg, s) && i < |s.attempts| && s.attempts[i].phase.Register?
    requires t.attempts == s.attempts[i := s.attempts[i].(phase := Live(Announce), state := Starting)]
    requires t.mains == s.mains && t.deps == s.deps && t.reg == s.reg.Add(s.attempts[i].name, i) && t.down == s.down
    ensures s.attempts[i].name !in s.reg.active
    ensures Inv(cfg, t)
  {
    var b := t.attempts[i];
    ShapePut(cfg, s, t, i, b);
    LineagePut(s, t, i, b);
    SlotsAdd(s, t, i, b);
    MarksPut(cfg, s, t, i, b);
  }

  lemma RemoveKeepsInv(cfg: Services, s: State, t: State, i: nat, b: Attempt)
    requires Inv(cfg, s) && i < |s.attempts| && s.attempts[i].phase.Live? && s.attempts[i].phase.live.Remove?
    requires b == LiveNext(cfg[s.attempts[i].name], s.attempts[i], s.attempts[i].phase.live, Next)
    requires t.attempts == StopRegistered(s.attempts[i := b], s.reg, b.name)
    requires t.mains == s.mains && t.deps == s.deps && t.reg == s.reg.Drop(b.name) && t.down == s.down
    ensures b.name in s.reg.active && s.reg.active[b.name] == i
    ensures Inv(cfg, t)
  {
    var a := s.attempts[i];
    assert a.name in s.reg.active && s.reg.active[a.name] == i;
    var c := b.(state := Stopped);
    assert t.attempts == s.attempts[i := c];
    LiveNextOk(cfg[a.name], s.down.cancelled, a, Next);
    assert StartedOk(cfg, s, i);
    ShapePut(cfg, s, t, i, c);
    LineagePut(s, t, i, c);
    SlotsRemove(s, t, i, c);
    MarksPut(cfg, s, t, i, c);
  }

  lemma PublishKeepsInv(cfg: Services, s: State, t: State, i: nat)
    requires Inv(cfg, s) && i < |s.attempts| && s.attempts[i].phase == Live(Publish)
    requires !cfg[s.attempts[i].name].oneshot
    requires t.attempts == s.attempts[i := s.attempts[i].(phase := Live(Select))]
    requires t.mains == s.mains && t.deps == s.deps.MarkReady(s.attempts[i].name) && t.reg == s.reg && t.down == s.down
    ensures Inv(cfg, t)
  {
    var b := t.attempts[i];
    LiveNextOk(cfg[b.name], s.down.cancelled, s.attempts[i], Next);
    ShapePut(cfg, s, t, i, b);
    LineagePut(s, t, i, b);
    SlotsPut(s, t, i, b);
    MarksPublish(cfg, s, t, i);
  }

  lemma LiveKeepsInv(cfg: Services, s: State, t: State, i: nat, p: LivePhase, ev: AttemptEvent)
    requires Inv(cfg, s) && i < |s.attempts| && s.attempts[i].phase == Live(p) && AttemptEnabled(cfg, s, i, ev)
    requires t == LiveApply(cfg[s.attempts[i].name], s, i, p, ev)
    ensures Inv(cfg, t)
  {
    var a := s.attempts[i];
    var svc := cfg[a.name];
    if p.Remove? {
      RemoveKeepsInv(cfg, s, t, i, LiveNext(svc, a, p, ev));
    } else if p.Publish? && !svc.oneshot {
      PublishKeepsInv(cfg, s, t, i);
    } else {
      assert StartedOk(cfg, s, i);
      LiveNextOk(svc, s.down.cancelled, a, ev);
      PutKeepsInv(cfg, s, t, i, LiveNext(svc, a, p, ev));
    }
  }

  lemma PostKeepsInv(cfg: Services, s: State, t: State, i: nat, p: PostPhase, e: Exit)
    requires Inv(cfg, s) && i < |s.attempts| && s.attempts[i].phase == Post(p, e)
    requires t == PostApply(cfg[s.attempts[i].name], s, i, p, e)
    ensures Inv(cfg, t)
  {
    var a := s.attempts[i];
    var n := a.name;
    var b := a.(phase := PostNext(cfg[n], s.restarts.Of(n), p, e));
    var mid := s.(attempts := s.attempts[i := b]);
    assert StartedOk(cfg, s, i);
    PostNextOk(cfg[n], s.down.cancelled, s.restarts.Of(n), a);
    if p.Schedule? {
      PutKeepsInv(cfg, s, mid, i, b);
      ScheduleKeepsInv(cfg, mid, t, i, e);
    } else {
      PutKeepsInv(cfg, s, t, i, b);
    }
  }

  lemma ScheduleKeepsInv(cfg: Services, s: State, t: State, i: nat, e: Exit)
    requires Inv(cfg, s) && i < |s.attempts| && s.attempts[i].phase == Returned(Ended(e))
    requires forall k :: i < k < |s.attempts| ==> s.attempts[k].name != s.attempts[i].name
    requires t.attempts == s.attempts + [NewAttempt(s.attempts[i].name, false)]
    requires t.mains == s.mains && t.deps == s.deps && t.reg == s.reg && t.down == s.down
    ensures Inv(cfg, t)
  {
    var n := s.attempts[i].name;
    assert StartedOk(cfg, s, i) && MainOk(cfg, s, n);
    ShapeAppend(cfg, s, t, n, false);
    LineageAppend(s, t, n, false);
    SlotsAppend(s, t, n, false);
    MarksAppend(cfg, s, t, n, false);
  }

  lemma HealthNextOk(svc: Service, cancelled: bool, a: Attempt, ev: HealthEvent)
    requires AttemptOk(svc, cancelled, a)
    ensures AttemptOk(svc, cancelled, HealthNext(svc, a, ev))
  {
  }

  lemma HealthKeepsInv(cfg: Services, s: State, t: State, i: nat, ev: HealthEvent)
    requires Inv(cfg, s) && HealthEnabled(cfg, s, i, ev) && t == HealthApply(cfg, s, i, ev)
    ensures Inv(cfg, t)
  {
    var a := s.attempts[i];
    assert StartedOk(cfg, s, i);
    HealthNextOk(cfg[a.name], s.down.cancelled, a, ev);
    PutKeepsInv(cfg, s, t, i, HealthNext(cfg[a.name], a, ev));
  }

  lemma OperatorKeepsInv(cfg: Services, s: State, t: State, i: nat)
    requires Inv(cfg, s) && OperatorEnabled(cfg, s, i)
    requires t == Put(s, i, s.attempts[i].(intent := CasIntent(s.attempts[i].intent, OperatorIntent)))
    ensures Inv(cfg, t)
  {
    assert StartedOk(cfg, s, i);
    PutKeepsInv(cfg, s, t, i, t.attempts[i]);
  }

  lemma OnceKeepsInv(cfg: Services, s: State, t: State)
    requires Inv(cfg, s) && ShutdownOk(t) && (s.down.cancelled ==> t.down.cancelled)
    requires t.mains == s.mains && t.attempts == s.attempts && t.deps == s.deps && t.reg == s.reg
    ensures Inv(cfg, t)
  {
    forall i | 0 <= i < |s.attempts| ensures StartedOk(cfg, t, i) { assert StartedOk(cfg, s, i); }
    forall n | n in cfg ensures MainOk(cfg, t, n) { assert MainOk(cfg, s, n); }
  }

  /** Every enabled step keeps the global invariant. */
  lemma StepKeepsInv(cfg: Services, s: State, step: Step)
    requires Inv(cfg, s) && Enabled(cfg, s, step)
    ensures Inv(cfg, Apply(cfg, s, step))
  {
    var t := Apply(cfg, s, step);
    match step {
      case MainStep(n, ev) =>
        match s.mains[n] {
          case Before(stage) => BeforeKeepsInv(cfg, s, t, n, stage, ev);
          case Awaiting(i) => SettleKeepsInv(cfg, s, t, n, i);
          case _ => ErrKeepsInv(cfg, s, t, n);
        }
      case AttemptStep(i, ev) =>
        match s.attempts[i].phase {
          case Pre(_) => PreKeepsInv(cfg, s, t, i, ev);
          case Register => RegisterKeepsInv(cfg, s, t, i);
          case Live(p) => LiveKeepsInv(cfg, s, t, i, p, ev);
          case Post(p, e) => PostKeepsInv(cfg, s, t, i, p, e);
        }
      case HealthStep(i, ev) => HealthKeepsInv(cfg, s, t, i, ev);
      case OperatorRestart(i) => OperatorKeepsInv(cfg, s, t, i);
      case SignalStep => OnceKeepsInv(cfg, s, t);
      case OnceStep(ev) => OnceKeepsInv(cfg, s, t);
    }
  }

  /** Every state of every run satisfies the global invariant. */
  lemma {:induction false} RunKeepsInv(cfg: Services, s: State, steps: seq<Step>)
    requires Inv(cfg, s) && Runs(cfg, s, steps)
    ensures Inv(cfg, Exec(cfg, s, steps))
    decreases |steps|
  {
    if steps != [] {
      StepKeepsInv(cfg, s, steps[0]);
      RunKeepsInv(cfg, Apply(cfg, s, steps[0]), steps[1..]);
    }
  }

  // ----- steps seen from the attempts -----

  /** The attempt after its own step, with `removeActiveService` stopping the caller's own incarnation. */
  function AttemptNext(svc: Service, cancelled: bool, count: int, a: Attempt, ev: AttemptEvent): Attempt {
    match a.phase
    case Pre(p) => a.(phase := PreNext(cancelled, p, ev))
    case Register => a.(phase := Live(Announce), state := Starting)
    case Live(p) => if p.Remove? then LiveNext(svc, a, p, ev).(state := Stopped) else LiveNext(svc, a, p, ev)
    case Post(p, e) => a.(phase := PostNext(svc, count, p, e))
    case Returned(_) => a
  }

  predicate Schedules(p: Phase) { p.Post? && p.post.Schedule? }

  /** A step of an attempt changes that attempt only, and appends its successor when it schedules one. */
  lemma AttemptEffect(cfg: Services, s: State, i: nat, ev: AttemptEvent)
    requires Inv(cfg, s) && AttemptEnabled(cfg, s, i, ev)
    ensures var a := s.attempts[i];
            var b := AttemptNext(cfg[a.name], s.down.cancelled, s.restarts.Of(a.name), a, ev);
            AttemptApply(cfg, s, i, ev).attempts ==
            s.attempts[i := b] + if Schedules(a.phase) then [NewAttempt(a.name, false)] else []
    ensures AttemptApply(cfg, s, i, ev).mains == s.mains
  {
  }
}
