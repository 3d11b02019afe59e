/** Shutdown: how much can still happen once the shutdown context is cancelled, and where it ends. */
module Drain {
  import opened Config
  import opened Supervisor
  import opened Invariant
  import opened Lifecycle
  import opened Sums

  // ----- at most the starts already past their check -----

  /** Processes of `t` beyond those of `s`: only starts that had passed the shutdown check in `s`. */
  ghost predicate OnlyInFlight(s: State, t: State) {
    forall j :: 0 <= j < |t.attempts| && (t.attempts[j].phase.Launched() || t.attempts[j].phase == Pre(Launch)) ==>
      j < |s.attempts| && (s.attempts[j].phase.Launched() || s.attempts[j].phase == Pre(Launch))
  }

  lemma NextInFlight(svc: Service, count: int, a: Attempt, ev: AttemptEvent)
    ensures var b := AttemptNext(svc, true, count, a, ev);
            b.phase.Launched() || b.phase == Pre(Launch) ==> a.phase.Launched() || a.phase == Pre(Launch)
  {
  }

  lemma AttemptInFlight(cfg: Services, s: State, t: State, i: nat, ev: AttemptEvent)
    requires Inv(cfg, s) && s.down.cancelled && AttemptEnabled(cfg, s, i, ev) && t == AttemptApply(cfg, s, i, ev)
    ensures OnlyInFlight(s, t)
  {
    var a := s.attempts[i];
    AttemptEffect(cfg, s, i, ev);
    NextInFlight(cfg[a.name], s.restarts.Of(a.name), a, ev);
  }

  lemma MainInFlight(cfg: Services, s: State, t: State, n: Name, ev: MainEvent)
    requires MainEnabled(cfg, s, n, ev) && t == MainApply(cfg, s, n, ev)
    ensures OnlyInFlight(s, t) && t.down.cancelled == s.down.cancelled
  {
  }

  lemma StepInFlight(cfg: Services, s: State, t: State, step: Step)
    requires Inv(cfg, s) && s.down.cancelled && Enabled(cfg, s, step) && t == Apply(cfg, s, step)
    ensures OnlyInFlight(s, t) && t.down.cancelled
  {
    hide Inv;
    match step {
      case MainStep(n, ev) => MainInFlight(cfg, s, t, n, ev);
      case AttemptStep(i, ev) => AttemptInFlight(cfg, s, t, i, ev);
      case HealthStep(_, _) =>
      case OperatorRestart(_) =>
      case SignalStep =>
      case OnceStep(_) =>
    }
  }

  lemma {:induction false} RunInFlight(cfg: Services, s: State, steps: seq<Step>)
    requires Inv(cfg, s) && s.down.cancelled && Runs(cfg, s, steps)
    ensures OnlyInFlight(s, Exec(cfg, s, steps)) && Exec(cfg, s, steps).down.cancelled
    decreases |steps|
  {
    if steps != [] {
      var t := Apply(cfg, s, steps[0]);
      StepKeepsInv(cfg, s, steps[0]);
      StepInFlight(cfg, s, t, steps[0]);
      RunInFlight(cfg, t, steps[1..]);
    }
  }

  /**
   After the shutdown context is cancelled a service starts at most one more process, and only if its
   `startService` had already passed the shutdown check.
   */
  lemma AtMostOneLateStart(cfg: Services, s: State, t: State, j: nat, k: nat)
    requires Reachable(cfg, s) && s.down.cancelled && Leads(cfg, s, t)
    requires j < |t.attempts| && t.attempts[j].phase.Launched()
    requires j >= |s.attempts| || !s.attempts[j].phase.Launched()
    ensures j < |s.attempts| && s.attempts[j].phase == Pre(Launch)
    ensures (k < |t.attempts| && t.attempts[k].name == t.attempts[j].name && t.attempts[k].phase.Launched()
             && (k >= |s.attempts| || !s.attempts[k].phase.Launched())) ==> k == j
  {
    ReachableInv(cfg, s);
    LeadsForward(cfg, s, t);
    var steps :| Runs(cfg, s, steps) && Exec(cfg, s, steps) == t;
    RunInFlight(cfg, s, steps);
    assert Forward(s.attempts[j], t.attempts[j]);
    if k < |s.attempts| {
      assert Forward(s.attempts[k], t.attempts[k]);
    }
  }

  // ----- the measure -----

  function BeforeWeight(svc: Service, stage: BeforeStart): nat {
    match stage
    case Fresh => 2 * |svc.dependsOn| + 9
    case PreScript => 2 * |svc.dependsOn| + 8
    case PreTrigger => 4
    case PreOnce => 3
    case Waiting(i) => if i <= |svc.dependsOn| then 2 * (|svc.dependsOn| - i) + 7 else 7
    case Grace(i) => if i < |svc.dependsOn| then 2 * (|svc.dependsOn| - i) + 6 else 8
    case Failing => 1
  }

  function MainWeight(svc: Service, m: Main): nat {
    match m
    case Before(stage) => BeforeWeight(svc, stage)
    case Awaiting(_) => 3
    case ErrTrigger => 2
    case ErrOnce => 1
    case Finished => 0
  }

  /** Steps left to a phase when the shutdown context is cancelled. */
  function PhaseWeight(p: Phase): nat {
    match p
    case Pre(q) => if q.Launch? then 20 else 1
    case Register => 19
    case Live(q) =>
      (match q
       case Announce => 18
       case Monitor => 17
       case Publish => 13
       case Select => 12
       case Request => 11
       case Stop => 10
       case Reap => 9
       case Finish(_) => 8
       case Record => 7
       case Remove(_) => 6)
    case Post(q, _) =>
      (match q
       case Decide => 5
       case Reset => 4
       case Count => 4
       case Schedule => 3
       case Trigger => 2
       case InOnce => 1)
    case Returned(_) => 0
  }

  function HealthWeight(h: Health): nat {
    match h
    case Watching => 3
    case Alarm => 2
    case InShutdown => 1
    case _ => 0
  }

  function AttemptWeight(a: Attempt): nat {
    PhaseWeight(a.phase) + HealthWeight(a.health) + if a.intent.NoIntent? then 1 else 0
  }

  function MainWeights(cfg: Services): (Name, Main) -> nat {
    (n, m) => if n in cfg then MainWeight(cfg[n], m) else 0
  }

  function DownWeight(d: Shutdown): nat {
    (match d.once
     case Idle => 6
     case Begin(_) => 5
     case Closing(_) => 4
     case Draining(_) => 3
     case Forced(_) => 2
     case Done => 0)
    + (if d.drained then 0 else 1)
    + (match d.signal case Listening => 2 case Handling => 1 case Exiting => 0)
  }

  /** An upper bound on the number of steps left after cancellation. */
  ghost function Measure(cfg: Services, s: State): nat {
    OverMap(s.mains, cfg.Keys, MainWeights(cfg)) + OverSeq(s.attempts, AttemptWeight) + DownWeight(s.down)
  }

  // ----- every step lowers the measure -----

  lemma BeforeLowers(svc: Service, s: State, stage: BeforeStart, ev: MainEvent)
    requires s.down.cancelled && BeforeEnabled(svc, s, stage, ev)
    requires stage.Waiting? ==> stage.dep < |svc.dependsOn|
    requires stage.Grace? ==> stage.dep < |svc.dependsOn|
    ensures MainWeight(svc, BeforeNext(svc, true, stage, ev)) < BeforeWeight(svc, stage)
  {
  }

  lemma AttemptLowers(cfg: Services, s: State, i: nat, ev: AttemptEvent)
    requires i < |s.attempts| && s.attempts[i].name in cfg && AttemptEnabled(cfg, s, i, ev)
    requires AttemptOk(cfg[s.attempts[i].name], true, s.attempts[i])
    ensures var a := s.attempts[i];
            var b := AttemptNext(cfg[a.name], true, s.restarts.Of(a.name), a, ev);
            AttemptWeight(b) + (if Schedules(a.phase) then 2 else 0) < AttemptWeight(a)
  {
  }

  lemma MoveLowers(cfg: Services, s: State, t: State, n: Name, m: Main, appended: seq<Attempt>)
    requires n in cfg && n in s.mains && t.mains == s.mains[n := m] && t.attempts == s.attempts + appended
    requires DownWeight(t.down) == DownWeight(s.down)
    requires appended == [] || appended == [NewAttempt(n, true)]
    requires MainWeight(cfg[n], m) + (if appended == [] then 0 else 2) < MainWeight(cfg[n], s.mains[n])
    ensures Measure(cfg, t) < Measure(cfg, s)
  {
    MapPut(s.mains, cfg.Keys, MainWeights(cfg), n, m);
    if appended == [] {
      assert t.attempts == s.attempts;
    } else {
      SeqAppend(s.attempts, AttemptWeight, NewAttempt(n, true));
    }
  }

  lemma BeforeStepLowers(cfg: Services, s: State, t: State, n: Name, stage: BeforeStart, ev: MainEvent)
    requires n in cfg && n in s.mains && s.mains[n] == Before(stage) && s.down.cancelled
    requires BeforeOk(cfg[n], s, n, stage) && BeforeEnabled(cfg[n], s, stage, ev)
    requires t == BeforeApply(cfg[n], s, n, stage, ev)
    ensures Measure(cfg, t) < Measure(cfg, s)
  {
    if stage.Waiting? && stage.dep >= |cfg[n].dependsOn| {
      MoveLowers(cfg, s, t, n, Awaiting(|s.attempts|), [NewAttempt(n, true)]);
    } else {
      BeforeLowers(cfg[n], s, stage, ev);
      MoveLowers(cfg, s, t, n, t.mains[n], []);
    }
  }

  lemma MainLowers(cfg: Services, s: State, t: State, n: Name, ev: MainEvent)
    requires MainOk(cfg, s, n) && s.down.cancelled && MainEnabled(cfg, s, n, ev) && t == MainApply(cfg, s, n, ev)
    ensures Measure(cfg, t) < Measure(cfg, s)
  {
    match s.mains[n] {
      case Before(stage) => BeforeStepLowers(cfg, s, t, n, stage, ev);
      case Awaiting(_) => MoveLowers(cfg, s, t, n, t.mains[n], []);
      case ErrTrigger => MoveLowers(cfg, s, t, n, ErrOnce, []);
      case ErrOnce => MoveLowers(cfg, s, t, n, Finished, []);
      case Finished =>
    }
  }

  lemma AttemptDownWeight(cfg: Services, s: State, i: nat, ev: AttemptEvent)
    requires AttemptEnabled(cfg, s, i, ev)
    ensures DownWeight(AttemptApply(cfg, s, i, ev).down) == DownWeight(s.down)
  {
  }

  lemma ScheduleLowers(cfg: Services, s: State, t: State, i: nat, b: Attempt, appended: seq<Attempt>)
    requires i < |s.attempts| && t.attempts == s.attempts[i := b] + appended && t.mains == s.mains
    requires DownWeight(t.down) == DownWeight(s.down)
    requires appended == [] || (exists n :: appended == [NewAttempt(n, false)])
    requires AttemptWeight(b) + (if appended == [] then 0 else 2) < AttemptWeight(s.attempts[i])
    ensures Measure(cfg, t) < Measure(cfg, s)
  {
    SeqPut(s.attempts, AttemptWeight, i, b);
    if appended == [] {
      assert t.attempts == s.attempts[i := b];
    } else {
      SeqAppend(s.attempts[i := b], AttemptWeight, appended[0]);
    }
  }

  lemma AttemptStepLowers(cfg: Services, s: State, t: State, i: nat, ev: AttemptEvent)
    requires Inv(cfg, s) && s.down.cancelled && AttemptEnabled(cfg, s, i, ev) && t == AttemptApply(cfg, s, i, ev)
    ensures Measure(cfg, t) < Measure(cfg, s)
  {
    var a := s.attempts[i];
    var b := AttemptNext(cfg[a.name], true, s.restarts.Of(a.name), a, ev);
    AttemptEffect(cfg, s, i, ev);
    AttemptDownWeight(cfg, s, i, ev);
    AttemptLowers(cfg, s, i, ev);
    ScheduleLowers(cfg, s, t, i, b, if Schedules(a.phase) then [NewAttempt(a.name, false)] else []);
  }

  lemma PutLowers(cfg: Services, s: State, t: State, i: nat, b: Attempt)
    requires i < |s.attempts| && t.attempts == s.attempts[i := b] && t.mains == s.mains
    requires DownWeight(t.down) == DownWeight(s.down) && AttemptWeight(b) < AttemptWeight(s.attempts[i])
    ensures Measure(cfg, t) < Measure(cfg, s)
  {
    SeqPut(s.attempts, AttemptWeight, i, b);
  }

  lemma HealthLowers(cfg: Services, s: State, t: State, i: nat, ev: HealthEvent)
    requires HealthEnabled(cfg, s, i, ev) && t == HealthApply(cfg, s, i, ev)
    ensures Measure(cfg, t) < Measure(cfg, s)
  {
    PutLowers(cfg, s, t, i, t.attempts[i]);
  }

  lemma OnceLowers(cfg: Services, s: State, t: State, ev: OnceEvent)
    requires OnceEnabled(s, ev) && t == OnceApply(s, ev)
    ensures Measure(cfg, t) < Measure(cfg, s)
  {
  }

  /** Once the shutdown context is cancelled, every step of anyone lowers the measure. */
  lemma StepLowersMeasure(cfg: Services, s: State, t: State, step: Step)
    requires Inv(cfg, s) && s.down.cancelled && Enabled(cfg, s, step) && t == Apply(cfg, s, step)
    ensures Measure(cfg, t) < Measure(cfg, s)
  {
    match step {
      case MainStep(n, ev) =>
        assert MainOk(cfg, s, n);
        MainLowers(cfg, s, t, n, ev);
      case AttemptStep(i, ev) => AttemptStepLowers(cfg, s, t, i, ev);
      case HealthStep(i, ev) => HealthLowers(cfg, s, t, i, ev);
      case OperatorRestart(i) => PutLowers(cfg, s, t, i, t.attempts[i]);
      case SignalStep =>
      case OnceStep(ev) => OnceLowers(cfg, s, t, ev);
    }
  }

  lemma {:induction false} RunLowersMeasure(cfg: Services, s: State, steps: seq<Step>)
    requires Inv(cfg, s) && s.down.cancelled && Runs(cfg, s, steps)
    ensures |steps| + Measure(cfg, Exec(cfg, s, steps)) <= Measure(cfg, s)
    decreases |steps|
  {
    if steps != [] {
      var t := Apply(cfg, s, steps[0]);
      StepKeepsInv(cfg, s, steps[0]);
      StepLowersMeasure(cfg, s, t, steps[0]);
      StepInFlight(cfg, s, t, steps[0]);
      RunLowersMeasure(cfg, t, steps[1..]);
    }
  }

  /** So no run after cancellation is longer than the measure of where it starts. */
  lemma ShutdownTerminates(cfg: Services, s: State, steps: seq<Step>)
    requires Reachable(cfg, s) && s.down.cancelled && Runs(cfg, s, steps)
    ensures |steps| + Measure(cfg, Exec(cfg, s, steps)) <= Measure(cfg, s)
  {
    ReachableInv(cfg, s);
    RunLowersMeasure(cfg, s, steps);
  }

  // ----- where it ends -----

  /** Nothing is left running, registered or pending. */
  ghost predicate Drained(cfg: Services, s: State) {
    && (forall n :: n in cfg ==> n in s.mains && s.mains[n].Finished?)
    && (forall i :: 0 <= i < |s.attempts| ==> s.attempts[i].phase.Returned?)
    && s.reg.active == map[] && s.reg.wg == 0 && s.down.once.Done?
  }

  predicate IsTimeout(step: Step) {
    (step.OnceStep? && (step.onceEvent.GlobalTimeout? || step.onceEvent.ForceTimeout?))
    || (step.MainStep? && step.mainEvent.DepTimeout?)
  }

  /** Some step that is no timeout can be taken. */
  ghost predicate Busy(cfg: Services, s: State) {
    exists step :: Enabled(cfg, s, step) && !IsTimeout(step)
  }

  lemma AttemptBusy(cfg: Services, s: State, i: nat)
    requires i < |s.attempts| && s.attempts[i].name in cfg && !s.attempts[i].phase.Returned?
    requires s.attempts[i].phase.Post? && s.attempts[i].phase.post.InOnce? ==> s.down.once.Done?
    ensures Busy(cfg, s)
  {
    var p := s.attempts[i].phase;
    var ev := if p == Pre(Launch) then Started(true)
              else if p.Live? && (p.live.Select? || p.live.Reap?) then ProcessExit(true) else Next;
    assert Enabled(cfg, s, AttemptStep(i, ev));
  }

  /** `shutdownOnce` not done: its runner can go on, or a registered incarnation it waits for can. */
  lemma OnceBusy(cfg: Services, s: State)
    requires Shape(cfg, s) && Slots(s) && s.down.cancelled && ShutdownOk(s) && !s.down.once.Done?
    ensures Busy(cfg, s)
  {
    if s.down.once.Closing? || s.down.drained {
      assert Enabled(cfg, s, OnceStep(Proceeds));
    } else if s.reg.wg == 0 {
      assert Enabled(cfg, s, OnceStep(WaitGroupZero));
    } else {
      var n :| n in s.reg.active;
      AttemptBusy(cfg, s, s.reg.active[n]);
    }
  }

  lemma MainBusy(cfg: Services, s: State, n: Name)
    requires MainOk(cfg, s, n) && s.down.cancelled && s.down.once.Done? && !s.mains[n].Finished?
    requires s.mains[n].Awaiting? ==> s.attempts[s.mains[n].attempt].phase.Returned?
    ensures Busy(cfg, s)
  {
    var ev := if s.mains[n] == Before(PreScript) then PreDone(true)
              else if s.mains[n].Before? && s.mains[n].stage.Waiting?
                      && s.mains[n].stage.dep < |cfg[n].dependsOn| then SeesShutdown
              else Advance;
    assert Enabled(cfg, s, MainStep(n, ev));
  }

  /**
   After cancellation the supervisor never gets stuck: as long as a goroutine has not returned, a
   service is registered or `shutdownOnce` is not done, some step that is no timeout can be taken.
   */
  lemma ShutdownDrains(cfg: Services, s: State)
    requires Reachable(cfg, s) && s.down.cancelled && !Drained(cfg, s)
    ensures Busy(cfg, s)
  {
    ReachableInv(cfg, s);
    if !s.down.once.Done? {
      OnceBusy(cfg, s);
    } else if i :| 0 <= i < |s.attempts| && !s.attempts[i].phase.Returned? {
      AttemptBusy(cfg, s, i);
    } else {
      NothingRegistered(s);
      var n :| n in cfg && !s.mains[n].Finished?;
      assert MainOk(cfg, s, n);
      MainBusy(cfg, s, n);
    }
  }

  lemma NothingRegistered(s: State)
    requires Slots(s) && forall i :: 0 <= i < |s.attempts| ==> s.attempts[i].phase.Returned?
    ensures s.reg.active == map[] && s.reg.wg == 0
  {
    assert s.reg.active.Keys == {};
  }

  /** The run can be taken from `s`, uses no timeout and drains everything. */
  ghost predicate DrainingRun(cfg: Services, s: State, steps: seq<Step>) {
    && Runs(cfg, s, steps) && Drained(cfg, Exec(cfg, s, steps))
    && forall step :: step in steps ==> !IsTimeout(step)
  }

  /** No timeout is ever needed: from anywhere after cancellation some run without one drains everything. */
  lemma {:induction false} DrainsWithoutTimeout(cfg: Services, s: State)
    requires Reachable(cfg, s) && s.down.cancelled
    ensures exists steps :: DrainingRun(cfg, s, steps)
    decreases Measure(cfg, s)
  {
    if Drained(cfg, s) {
      assert DrainingRun(cfg, s, []);
    } else {
      ShutdownDrains(cfg, s);
      var step :| Enabled(cfg, s, step) && !IsTimeout(step);
      var t := Apply(cfg, s, step);
      OneStepCloser(cfg, s, t, step);
      DrainsWithoutTimeout(cfg, t);
      var rest :| DrainingRun(cfg, t, rest);
      assert ([step] + rest)[1..] == rest;
      assert DrainingRun(cfg, s, [step] + rest);
    }
  }

  lemma OneStepCloser(cfg: Services, s: State, t: State, step: Step)
    requires Reachable(cfg, s) && s.down.cancelled && Enabled(cfg, s, step) && t == Apply(cfg, s, step)
    ensures Reachable(cfg, t) && t.down.cancelled && Measure(cfg, t) < Measure(cfg, s)
  {
    ReachableInv(cfg, s);
    StepInFlight(cfg, s, t, step);
    StepLowersMeasure(cfg, s, t, step);
    LeadsByStep(cfg, s, step);
    LeadsOn(cfg, Init(cfg), s, t);
  }

  // ----- what a completed shutdown leaves behind -----

  /** The start has passed its shutdown check and is not registered yet. */
  predicate InFlight(p: Phase) { p == Pre(Launch) || p.Register? }

  ghost predicate NoneInFlight(s: State) {
    forall i :: 0 <= i < |s.attempts| ==> !InFlight(s.attempts[i].phase)
  }

  /** Some run that never gives up after a force kill leads from `s` to `t`. */
  ghost predicate LeadsUnforced(cfg: Services, s: State, t: State) {
    exists steps :: Runs(cfg, s, steps) && OnceStep(ForceTimeout) !in steps && Exec(cfg, s, steps) == t
  }

  lemma UnforcedHere(cfg: Services, s: State)
    ensures LeadsUnforced(cfg, s, s)
  {
    assert Runs(cfg, s, []) && Exec(cfg, s, []) == s;
  }

  lemma UnforcedFirst(cfg: Services, s: State, step: Step, t: State)
    requires Enabled(cfg, s, step) && step != OnceStep(ForceTimeout) && LeadsUnforced(cfg, Apply(cfg, s, step), t)
    ensures LeadsUnforced(cfg, s, t)
  {
    var u := Apply(cfg, s, step);
    var rest :| Runs(cfg, u, rest) && OnceStep(ForceTimeout) !in rest && Exec(cfg, u, rest) == t;
    var steps := [step] + rest;
    assert steps[1..] == rest;
    assert Runs(cfg, s, steps) && OnceStep(ForceTimeout) !in steps && Exec(cfg, s, steps) == t;
  }

  /** Nobody can register any more, and whoever saw the WaitGroup at zero saw an empty registry. */
  ghost predicate Emptying(s: State) {
    s.down.cancelled && NoneInFlight(s) && (s.down.once.Done? || s.down.drained ==> s.reg.active == map[])
  }

  lemma NextNotInFlight(svc: Service, count: int, a: Attempt, ev: AttemptEvent)
    requires !InFlight(a.phase)
    ensures !InFlight(AttemptNext(svc, true, count, a, ev).phase)
  {
  }

  lemma AttemptOnlyDrops(cfg: Services, s: State, i: nat, ev: AttemptEvent)
    requires AttemptEnabled(cfg, s, i, ev) && !InFlight(s.attempts[i].phase)
    ensures var t := AttemptApply(cfg, s, i, ev);
            t.reg == s.reg || t.reg == s.reg.Drop(s.attempts[i].name)
    ensures AttemptApply(cfg, s, i, ev).down.once == s.down.once
    ensures AttemptApply(cfg, s, i, ev).down.drained == s.down.drained
    ensures AttemptApply(cfg, s, i, ev).down.cancelled == s.down.cancelled
  {
  }

  lemma NotInFlightFrom(s: State, t: State, i: nat, b: Attempt, appended: seq<Attempt>)
    requires NoneInFlight(s) && i < |s.attempts| && t.attempts == s.attempts[i := b] + appended
    requires !InFlight(b.phase) && forall k :: 0 <= k < |appended| ==> !InFlight(appended[k].phase)
    ensures NoneInFlight(t)
  {
  }

  lemma AttemptKeepsEmptying(cfg: Services, s: State, t: State, i: nat, ev: AttemptEvent)
    requires Inv(cfg, s) && Emptying(s) && AttemptEnabled(cfg, s, i, ev) && t == AttemptApply(cfg, s, i, ev)
    ensures Emptying(t)
  {
    hide Inv;
    var a := s.attempts[i];
    AttemptEffect(cfg, s, i, ev);
    AttemptOnlyDrops(cfg, s, i, ev);
    NextNotInFlight(cfg[a.name], s.restarts.Of(a.name), a, ev);
    NotInFlightFrom(s, t, i, AttemptNext(cfg[a.name], true, s.restarts.Of(a.name), a, ev),
                    if Schedules(a.phase) then [NewAttempt(a.name, false)] else []);
  }

  lemma InvCounts(cfg: Services, s: State)
    requires Inv(cfg, s)
    ensures s.reg.wg == |s.reg.active|
    ensures s.down.drained ==> s.down.once.Draining? || s.down.once.Forced? || s.down.once.Done?
  {
  }

  lemma MainKeepsEmptying(cfg: Services, s: State, t: State, n: Name, ev: MainEvent)
    requires Emptying(s) && MainEnabled(cfg, s, n, ev) && t == MainApply(cfg, s, n, ev)
    ensures Emptying(t)
  {
  }

  lemma StepKeepsEmptying(cfg: Services, s: State, t: State, step: Step)
    requires Inv(cfg, s) && Emptying(s) && Enabled(cfg, s, step) && step != OnceStep(ForceTimeout)
    requires t == Apply(cfg, s, step)
    ensures Emptying(t)
  {
    hide Inv;
    match step {
      case AttemptStep(i, ev) => AttemptKeepsEmptying(cfg, s, t, i, ev);
      case MainStep(n, ev) => MainKeepsEmptying(cfg, s, t, n, ev);
      case HealthStep(i, _) => NotInFlightFrom(s, t, i, t.attempts[i], []);
      case OperatorRestart(i) => NotInFlightFrom(s, t, i, t.attempts[i], []);
      case SignalStep =>
      case OnceStep(_) => InvCounts(cfg, s);
    }
  }

  lemma {:induction false} RunKeepsEmptying(cfg: Services, s: State, steps: seq<Step>)
    requires Inv(cfg, s) && Emptying(s) && Runs(cfg, s, steps) && OnceStep(ForceTimeout) !in steps
    ensures Emptying(Exec(cfg, s, steps))
    decreases |steps|
  {
    hide Inv, Emptying;
    if steps != [] {
      StepKeepsInv(cfg, s, steps[0]);
      StepKeepsEmptying(cfg, s, Apply(cfg, s, steps[0]), steps[0]);
      RunKeepsEmptying(cfg, Apply(cfg, s, steps[0]), steps[1..]);
    }
  }

  /** While attempt `i` is held back before its registration, the others drain and the shutdown completes. */
  lemma {:induction false} DrainAround(cfg: Services, s: State, i: nat) returns (t: State)
    requires Reachable(cfg, s) && s.down.cancelled && i < |s.attempts| && InFlight(s.attempts[i].phase)
    ensures LeadsUnforced(cfg, s, t) && Reachable(cfg, t) && t.down.once.Done?
    ensures i < |t.attempts| && InFlight(t.attempts[i].phase)
    decreases Measure(cfg, s)
  {
    if s.down.once.Done? {
      UnforcedHere(cfg, s);
      return s;
    }
    var step := AroundStep(cfg, s, i);
    var u := Apply(cfg, s, step);
    OneStepCloser(cfg, s, u, step);
    t := DrainAround(cfg, u, i);
    UnforcedFirst(cfg, s, step, t);
  }

  /** `shutdownOnce` is not done: it can go on, or a registered incarnation can. */
  lemma AroundStep(cfg: Services, s: State, i: nat) returns (step: Step)
    requires Reachable(cfg, s) && s.down.cancelled && !s.down.once.Done?
    requires i < |s.attempts| && InFlight(s.attempts[i].phase)
    ensures Enabled(cfg, s, step) && step != OnceStep(ForceTimeout)
    ensures i < |Apply(cfg, s, step).attempts| && Apply(cfg, s, step).attempts[i].phase == s.attempts[i].phase
  {
    ReachableInv(cfg, s);
    if s.down.once.Closing? || s.down.drained {
      step := OnceStep(Proceeds);
    } else if s.reg.wg == 0 {
      step := OnceStep(WaitGroupZero);
    } else {
      var n :| n in s.reg.active;
      ShutdownNeverWaitsOnCaller(cfg, s, SignalCaller, n);
      var k := s.reg.active[n];
      step := AttemptStep(k, Leaving(s.attempts[k].phase));
      AttemptEffect(cfg, s, k, step.attemptEvent);
    }
  }

  /** A start in flight goes on to register. */
  lemma Lands(cfg: Services, s: State, i: nat) returns (t: State)
    requires Reachable(cfg, s) && i < |s.attempts| && InFlight(s.attempts[i].phase) && s.attempts[i].name in cfg
    ensures LeadsUnforced(cfg, s, t) && t.down == s.down
    ensures s.attempts[i].name in t.reg.active
  {
    var u := s;
    if s.attempts[i].phase == Pre(Launch) {
      u := Put(s, i, s.attempts[i].(phase := Register));
      assert u == Apply(cfg, s, AttemptStep(i, Started(true)));
    }
    t := AttemptApply(cfg, u, i, Next);
    assert t == Apply(cfg, u, AttemptStep(i, Next));
    UnforcedHere(cfg, t);
    UnforcedFirst(cfg, u, AttemptStep(i, Next), t);
    if s.attempts[i].phase == Pre(Launch) {
      UnforcedFirst(cfg, s, AttemptStep(i, Started(true)), t);
    }
  }

  /** A completed shutdown that never gave up after a force kill has left nothing registered. */
  ghost predicate LeavesNothing(cfg: Services, s: State) {
    forall t :: LeadsUnforced(cfg, s, t) && t.down.once.Done? ==> t.reg.active == map[]
  }

  /**
   Take the instant at which the shutdown context has just been cancelled. Whatever happens from there on,
   a completed `runShutdown` that did not give up leaves no registered process behind, if and only if at
   that instant no start was in flight.
   */
  lemma ShutdownLeavesNothingExactly(cfg: Services, s: State)
    requires Reachable(cfg, s) && s.down.once.Closing?
    ensures LeavesNothing(cfg, s) <==> NoneInFlight(s)
  {
    ReachableClosing(cfg, s);
    if NoneInFlight(s) {
      forall t | LeadsUnforced(cfg, s, t) && t.down.once.Done? ensures t.reg.active == map[] {
        var steps :| Runs(cfg, s, steps) && OnceStep(ForceTimeout) !in steps && Exec(cfg, s, steps) == t;
        ReachableInv(cfg, s);
        RunKeepsEmptying(cfg, s, steps);
      }
    } else {
      var i :| 0 <= i < |s.attempts| && InFlight(s.attempts[i].phase);
      var t := SomethingLands(cfg, s, i);
    }
  }

  lemma ReachableClosing(cfg: Services, s: State)
    requires Reachable(cfg, s) && s.down.once.Closing?
    ensures s.down.cancelled && !s.down.drained
  {
    ReachableInv(cfg, s);
  }

  lemma SomethingLands(cfg: Services, s: State, i: nat) returns (t: State)
    requires Reachable(cfg, s) && s.down.cancelled && i < |s.attempts| && InFlight(s.attempts[i].phase)
    ensures LeadsUnforced(cfg, s, t) && t.down.once.Done? && t.reg.active != map[]
  {
    var u := DrainAround(cfg, s, i);
    ReachableAttempt(cfg, u, i);
    t := Lands(cfg, u, i);
    UnforcedOn(cfg, s, u, t);
  }

  lemma UnforcedOn(cfg: Services, r: State, s: State, t: State)
    requires LeadsUnforced(cfg, r, s) && LeadsUnforced(cfg, s, t)
    ensures LeadsUnforced(cfg, r, t)
  {
    var a :| Runs(cfg, r, a) && OnceStep(ForceTimeout) !in a && Exec(cfg, r, a) == s;
    var b :| Runs(cfg, s, b) && OnceStep(ForceTimeout) !in b && Exec(cfg, s, b) == t;
    RunsAppend(cfg, r, a, b);
    assert OnceStep(ForceTimeout) !in a + b;
  }

  // ----- whoever has not begun never does -----

  /** The shutdown is on, and nothing of the service has happened: no pre-script, no start, no mark. */
  ghost predicate NeverBegan(s: State, n: Name) {
    && s.down.cancelled && n in s.mains && (s.mains[n] == Before(Fresh) || s.mains[n].Finished?)
    && NoAttempts(s, n) && n !in s.deps.ready && n !in s.deps.failed
  }

  lemma AttemptKeepsNames(cfg: Services, s: State, i: nat, ev: AttemptEvent, n: Name)
    requires Inv(cfg, s) && AttemptEnabled(cfg, s, i, ev) && NoAttempts(s, n)
    ensures NoAttempts(AttemptApply(cfg, s, i, ev), n)
  {
    hide Inv;
    AttemptEffect(cfg, s, i, ev);
  }

  lemma StepNeverBegins(cfg: Services, s: State, t: State, step: Step, n: Name)
    requires Inv(cfg, s) && Enabled(cfg, s, step) && t == Apply(cfg, s, step) && NeverBegan(s, n)
    ensures NeverBegan(t, n)
  {
    hide Inv;
    match step {
      case AttemptStep(i, ev) => AttemptKeepsNames(cfg, s, i, ev, n);
      case _ =>
    }
  }

  lemma {:induction false} RunNeverBegins(cfg: Services, s: State, steps: seq<Step>, n: Name)
    requires Inv(cfg, s) && Runs(cfg, s, steps) && NeverBegan(s, n)
    ensures NeverBegan(Exec(cfg, s, steps), n)
    decreases |steps|
  {
    if steps != [] {
      StepKeepsInv(cfg, s, steps[0]);
      StepNeverBegins(cfg, s, Apply(cfg, s, steps[0]), steps[0], n);
      RunNeverBegins(cfg, Apply(cfg, s, steps[0]), steps[1..], n);
    }
  }

  /**
   A service whose `processService` had not begun when the context was cancelled never begins: in every
   continuation it has run no pre-script, was not started, and is marked neither ready nor failed.
   */
  lemma UnbegunStaysAway(cfg: Services, s: State, t: State, n: Name)
    requires Reachable(cfg, s) && s.down.cancelled && n in cfg && n in s.mains && s.mains[n] == Before(Fresh)
    requires Leads(cfg, s, t)
    ensures n in t.mains && (t.mains[n] == Before(Fresh) || t.mains[n].Finished?)
    ensures !EverStarted(t, n) && n !in t.deps.ready && n !in t.deps.failed
  {
    ReachableInv(cfg, s);
    assert MainOk(cfg, s, n);
    var steps :| Runs(cfg, s, steps) && Exec(cfg, s, steps) == t;
    RunNeverBegins(cfg, s, steps, n);
  }
}
