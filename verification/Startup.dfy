/** Progress and confluence of the concurrent startup. */
module Startup {
  import opened Config
  import opened Supervisor
  import opened Invariant
  import opened Lifecycle

  // ----- no startup deadlock -----

  predicate Marked(s: State, n: Name) { n in s.deps.ready || n in s.deps.failed }

  /** A goroutine of `m` is inside `shutdownOnce`: the caller is its `processService` or one of its attempts. */
  ghost predicate InOnceItself(s: State, m: Name) {
    || InsideOnce(s, MainCaller(m))
    || exists i: nat :: i < |s.attempts| && s.attempts[i].name == m && InsideOnce(s, AttemptCaller(i))
  }

  /**
   `step` can be taken now, and is a step of `m` itself, or of the `shutdownOnce` that a goroutine of `m`
   is inside of. It is neither a timeout nor the end of a long-running process.
   */
  ghost predicate Moves(cfg: Services, s: State, m: Name, step: Step) {
    m in cfg && Enabled(cfg, s, step) &&
    match step
    case MainStep(n, ev) => n == m && !ev.DepTimeout?
    case AttemptStep(i, ev) => s.attempts[i].name == m && (ev.ProcessExit? ==> cfg[m].oneshot)
    case OnceStep(ev) => InOnceItself(s, m) && !ev.GlobalTimeout? && !ev.ForceTimeout?
    case _ => false
  }

  /** Waiting for a dependency that carries no mark yet. */
  predicate Blocked(cfg: Services, s: State, n: Name) {
    n in cfg && n in s.mains && s.mains[n].Before? && s.mains[n].stage.Waiting?
    && s.mains[n].stage.dep < |cfg[n].dependsOn| && !Marked(s, cfg[n].dependsOn[s.mains[n].stage.dep])
  }

  lemma AttemptMoves(cfg: Services, s: State, m: Name, i: nat)
    requires i < |s.attempts| && s.attempts[i].name == m && m in cfg && !s.attempts[i].phase.Returned?
    requires PastPublish(s.attempts[i].phase) ==> cfg[m].oneshot
    requires s.down.once.Idle? || s.down.once.Begin?
    ensures exists step :: Moves(cfg, s, m, step)
  {
    var a := s.attempts[i];
    if a.phase == Pre(Launch) {
      assert Moves(cfg, s, m, AttemptStep(i, Started(true)));
    } else if a.phase.Live? && (a.phase.live.Select? || a.phase.live.Reap?) {
      assert Moves(cfg, s, m, AttemptStep(i, ProcessExit(false)));
    } else if a.phase.Post? && a.phase.post.InOnce? {
      OnceMoves(cfg, s, m, AttemptCaller(i));
    } else {
      assert Moves(cfg, s, m, AttemptStep(i, Next));
    }
  }

  lemma OnceMoves(cfg: Services, s: State, m: Name, who: Caller)
    requires m in cfg && InsideOnce(s, who) && InOnceItself(s, m) && (s.down.once.Idle? || s.down.once.Begin?)
    ensures exists step :: Moves(cfg, s, m, step)
  {
    assert Moves(cfg, s, m, OnceStep(if s.down.once.Idle? then Enter(who) else Proceeds));
  }

  lemma BeforeMoves(cfg: Services, s: State, m: Name, stage: BeforeStart)
    requires m in cfg && m in s.mains && s.mains[m] == Before(stage) && BeforeOk(cfg[m], s, m, stage)
    requires !Blocked(cfg, s, m) && (s.down.once.Idle? || s.down.once.Begin?)
    ensures exists step :: Moves(cfg, s, m, step)
  {
    match stage {
      case PreScript => assert Moves(cfg, s, m, MainStep(m, PreDone(true)));
      case PreOnce => OnceMoves(cfg, s, m, MainCaller(m));
      case Waiting(k) =>
        var ev := if k == |cfg[m].dependsOn| then Advance
                  else if cfg[m].dependsOn[k] in s.deps.ready then DepReady else DepFailed;
        assert Moves(cfg, s, m, MainStep(m, ev));
      case _ => assert Moves(cfg, s, m, MainStep(m, Advance));
    }
  }

  /** Before a shutdown, an unmarked service that is not itself blocked can move. */
  lemma UnmarkedMoves(cfg: Services, s: State, m: Name)
    requires Inv(cfg, s) && !s.down.cancelled && m in cfg && !Marked(s, m) && !Blocked(cfg, s, m)
    ensures exists step :: Moves(cfg, s, m, step)
  {
    assert MainOk(cfg, s, m);
    match s.mains[m] {
      case Before(stage) => BeforeMoves(cfg, s, m, stage);
      case Awaiting(i) =>
        if s.attempts[i].phase.Returned? {
          assert Moves(cfg, s, m, MainStep(m, Advance));
        } else {
          assert StartedOk(cfg, s, i);
          AttemptMoves(cfg, s, m, i);
        }
      case _ =>
    }
  }

  /** `walk` leads from `n` along dependencies to an unmarked service that waits for no mark and can move. */
  ghost predicate Mover(cfg: Services, s: State, n: Name, walk: seq<Name>, step: Step) {
    && |walk| > 1 && walk[0] == n && Walk(cfg, walk)
    && !Marked(s, walk[|walk| - 1]) && !Blocked(cfg, s, walk[|walk| - 1]) && Moves(cfg, s, walk[|walk| - 1], step)
  }

  lemma MoverFrom(cfg: Services, s: State, n: Name, d: Name, walk: seq<Name>, step: Step)
    requires n in cfg && d in cfg[n].dependsOn && Mover(cfg, s, d, walk, step)
    ensures Mover(cfg, s, n, [n] + walk, step)
  {
    var longer := [n] + walk;
    assert longer[|longer| - 1] == walk[|walk| - 1];
    forall k | 0 <= k < |longer| - 1 ensures longer[k] in cfg && longer[k + 1] in cfg[longer[k]].dependsOn {
      if k > 0 {
        assert longer[k] == walk[k - 1] && longer[k + 1] == walk[k];
      }
    }
  }

  ghost predicate FreeMove(cfg: Services, s: State) {
    forall m :: m in cfg && !Marked(s, m) && !Blocked(cfg, s, m) ==> exists step :: Moves(cfg, s, m, step)
  }

  lemma {:induction false} BlockedHasMover(cfg: Services, s: State, n: Name, rank: map<Name, nat>)
    requires FreeMove(cfg, s) && Closed(cfg) && Ranked(cfg, rank) && Blocked(cfg, s, n)
    ensures exists walk, step :: Mover(cfg, s, n, walk, step)
    decreases rank[n]
  {
    var d := cfg[n].dependsOn[s.mains[n].stage.dep];
    if Blocked(cfg, s, d) {
      BlockedHasMover(cfg, s, d, rank);
      var walk, step :| Mover(cfg, s, d, walk, step);
      MoverFrom(cfg, s, n, d, walk, step);
    } else {
      var step :| Moves(cfg, s, d, step);
      assert Mover(cfg, s, n, [n, d], step);
    }
  }

  /**
   Before a shutdown no validated configuration deadlocks: whoever waits for an unmarked dependency
   reaches, along `depends_on`, an unmarked service that is not waiting for a mark itself and can move
   without any timeout.
   */
  lemma NoStartupDeadlock(cfg: Services, s: State, n: Name)
    requires WellFormed(cfg) && Reachable(cfg, s) && !s.down.cancelled && Blocked(cfg, s, n)
    ensures exists walk, step :: Mover(cfg, s, n, walk, step)
  {
    assert FreeMove(cfg, s) by {
      ReachableInv(cfg, s);
      forall m | m in cfg && !Marked(s, m) && !Blocked(cfg, s, m) ensures exists step :: Moves(cfg, s, m, step) {
        UnmarkedMoves(cfg, s, m);
      }
    }
    var rank :| Ranked(cfg, rank);
    BlockedHasMover(cfg, s, n, rank);
  }

  // ----- confluence -----

  /** What the outside world does with each service's first start. */
  datatype World = World(preScriptOk: Name -> bool, launches: Name -> bool, exitsCleanly: Name -> bool)

  /** The step takes its choices from the world, uses no dependency timeout and no shutdown, and leaves the
      first run of a one-shot to end by itself. */
  predicate Follows(cfg: Services, w: World, s: State, step: Step) {
    match step
    case MainStep(n, ev) => !ev.DepTimeout? && (ev.PreDone? ==> ev.ok == w.preScriptOk(n))
    case AttemptStep(i, ev) =>
      i < |s.attempts| && s.attempts[i].name in cfg &&
      var a := s.attempts[i];
      && (a.first && ev.Started? ==> ev.ok == w.launches(a.name))
      && (a.first && cfg[a.name].oneshot && ev.ProcessExit? ==> ev.failed == !w.exitsCleanly(a.name))
    case OperatorRestart(i) =>
      i < |s.attempts| && s.attempts[i].name in cfg && !(s.attempts[i].first && cfg[s.attempts[i].name].oneshot)
    case OnceStep(ev) => !(ev.Proceeds? && s.down.once.Begin?)
    case _ => true
  }

  predicate RunFollows(cfg: Services, w: World, s: State, steps: seq<Step>)
    requires Runs(cfg, s, steps)
    decreases |steps|
  {
    steps == [] || (Follows(cfg, w, s, steps[0]) && RunFollows(cfg, w, Apply(cfg, s, steps[0]), steps[1..]))
  }

  /** The recursive classification: a service comes up iff its own start and all its dependencies do. */
  ghost predicate ComesUp(cfg: Services, rank: map<Name, nat>, w: World, n: Name)
    requires Closed(cfg) && Ranked(cfg, rank) && n in cfg
    decreases rank[n]
  {
    && w.preScriptOk(n)
    && (forall d :: d in cfg[n].dependsOn ==> ComesUp(cfg, rank, w, d))
    && w.launches(n)
    && (cfg[n].oneshot ==> w.exitsCleanly(n))
  }

  /** What is known of an attempt from the world. */
  predicate AttemptFits(cfg: Services, w: World, a: Attempt) {
    a.name in cfg &&
    var n := a.name;
    && w.preScriptOk(n)
    && (a.phase.Launched() || !a.first ==> w.launches(n))
    && (a.first && a.phase == Returned(StartError) ==> !w.launches(n))
    && (a.first && cfg[n].oneshot ==>
          && a.intent.NoIntent?
          && match a.phase
             case Live(p) =>
               && (p.Finish? ==> p.failed == !w.exitsCleanly(n))
               && (p.Record? ==> !w.exitsCleanly(n))
               && (p.Remove? ==> p.exit == Exit(NoIntent, !w.exitsCleanly(n)))
             case Post(_, e) => e == Exit(NoIntent, !w.exitsCleanly(n))
             case Returned(o) => o.Ended? ==> o.exit == Exit(NoIntent, !w.exitsCleanly(n))
             case _ => true)
  }

  ghost predicate MainFits(cfg: Services, rank: map<Name, nat>, w: World, s: State, n: Name)
    requires Closed(cfg) && Ranked(cfg, rank)
  {
    n in cfg && n in s.mains &&
    match s.mains[n]
    case Before(stage) =>
      && (stage.Waiting? || stage.Grace? ==> w.preScriptOk(n))
      && (stage.PreTrigger? || stage.PreOnce? ==> !w.preScriptOk(n))
      && (stage.Failing? ==> !ComesUp(cfg, rank, w, n))
    case ErrTrigger => !w.launches(n)
    case ErrOnce => !w.launches(n)
    case _ => true
  }

  /** The marks agree with the classification. */
  ghost predicate Agrees(cfg: Services, rank: map<Name, nat>, w: World, s: State)
    requires Closed(cfg) && Ranked(cfg, rank)
  {
    && (forall n :: n in s.deps.ready ==> n in cfg && ComesUp(cfg, rank, w, n))
    && (forall n :: n in s.deps.failed ==> n in cfg && !ComesUp(cfg, rank, w, n))
  }

  ghost predicate Fits(cfg: Services, rank: map<Name, nat>, w: World, s: State)
    requires Closed(cfg) && Ranked(cfg, rank)
  {
    && Agrees(cfg, rank, w, s)
    && (forall i :: 0 <= i < |s.attempts| ==> AttemptFits(cfg, w, s.attempts[i]))
    && (forall n :: n in cfg ==> MainFits(cfg, rank, w, s, n))
  }

  /** What `Follows` asks of a step of this attempt, and what enables it. */
  predicate EventFits(cfg: Services, w: World, a: Attempt, ev: AttemptEvent) {
    a.name in cfg &&
    match a.phase
    case Pre(p) => p.Launch? ==> ev.Started? && (a.first ==> ev.ok == w.launches(a.name))
    case Live(p) =>
      && (p.Select? ==> ev.ProcessExit? || !a.intent.NoIntent?)
      && (a.first && cfg[a.name].oneshot && ev.ProcessExit? ==> ev.failed == !w.exitsCleanly(a.name))
    case _ => true
  }

  lemma NextFits(cfg: Services, w: World, cancelled: bool, count: int, a: Attempt, ev: AttemptEvent)
    requires AttemptFits(cfg, w, a) && AttemptOk(cfg[a.name], cancelled, a) && !cancelled
    requires EventFits(cfg, w, a, ev)
    ensures AttemptFits(cfg, w, AttemptNext(cfg[a.name], cancelled, count, a, ev))
  {
  }

  lemma StartedComesUp(cfg: Services, rank: map<Name, nat>, w: World, s: State, i: nat)
    requires Closed(cfg) && Ranked(cfg, rank) && Agrees(cfg, rank, w, s) && StartedOk(cfg, s, i)
    requires AttemptFits(cfg, w, s.attempts[i]) && w.launches(s.attempts[i].name)
    requires cfg[s.attempts[i].name].oneshot ==> w.exitsCleanly(s.attempts[i].name)
    ensures ComesUp(cfg, rank, w, s.attempts[i].name)
  {
  }

  lemma PutFits(cfg: Services, rank: map<Name, nat>, w: World, s: State, t: State, i: nat, b: Attempt,
                appended: seq<Attempt>)
    requires Closed(cfg) && Ranked(cfg, rank) && Fits(cfg, rank, w, s) && Agrees(cfg, rank, w, t)
    requires i < |s.attempts| && t.attempts == s.attempts[i := b] + appended && t.mains == s.mains
    requires AttemptFits(cfg, w, b) && forall c :: c in appended ==> AttemptFits(cfg, w, c)
    ensures Fits(cfg, rank, w, t)
  {
    forall n | n in cfg ensures MainFits(cfg, rank, w, t, n) { assert MainFits(cfg, rank, w, s, n); }
  }

  lemma AttemptMarks(cfg: Services, s: State, i: nat, ev: AttemptEvent)
    requires AttemptEnabled(cfg, s, i, ev)
    ensures var a := s.attempts[i];
            AttemptApply(cfg, s, i, ev).deps ==
            if a.phase == Live(Publish) && !cfg[a.name].oneshot then s.deps.MarkReady(a.name) else s.deps
  {
  }

  lemma AttemptAgrees(cfg: Services, rank: map<Name, nat>, w: World, s: State, t: State, i: nat)
    requires Closed(cfg) && Ranked(cfg, rank) && Agrees(cfg, rank, w, s) && StartedOk(cfg, s, i)
    requires AttemptFits(cfg, w, s.attempts[i])
    requires t.deps == if s.attempts[i].phase == Live(Publish) && !cfg[s.attempts[i].name].oneshot
                       then s.deps.MarkReady(s.attempts[i].name) else s.deps
    ensures Agrees(cfg, rank, w, t)
  {
    if s.attempts[i].phase == Live(Publish) && !cfg[s.attempts[i].name].oneshot {
      StartedComesUp(cfg, rank, w, s, i);
    }
  }

  lemma AttemptKeepsFits(cfg: Services, rank: map<Name, nat>, w: World, s: State, t: State, i: nat, ev: AttemptEvent)
    requires Closed(cfg) && Ranked(cfg, rank) && Inv(cfg, s) && Fits(cfg, rank, w, s) && !s.down.cancelled
    requires AttemptEnabled(cfg, s, i, ev) && Follows(cfg, w, s, AttemptStep(i, ev)) && t == AttemptApply(cfg, s, i, ev)
    ensures Fits(cfg, rank, w, t)
  {
    var a := s.attempts[i];
    var count := s.restarts.Of(a.name);
    assert StartedOk(cfg, s, i) && AttemptFits(cfg, w, a);
    AttemptEffect(cfg, s, i, ev);
    AttemptMarks(cfg, s, i, ev);
    AttemptAgrees(cfg, rank, w, s, t, i);
    NextFits(cfg, w, s.down.cancelled, count, a, ev);
    PutFits(cfg, rank, w, s, t, i, AttemptNext(cfg[a.name], s.down.cancelled, count, a, ev),
            if Schedules(a.phase) then [NewAttempt(a.name, false)] else []);
  }

  lemma MoveFits(cfg: Services, rank: map<Name, nat>, w: World, s: State, t: State, n: Name, m: Main,
                 appended: seq<Attempt>)
    requires Closed(cfg) && Ranked(cfg, rank) && Fits(cfg, rank, w, s) && Agrees(cfg, rank, w, t) && n in cfg
    requires t.mains == s.mains[n := m] && t.attempts == s.attempts + appended
    requires MainFits(cfg, rank, w, t, n) && forall c :: c in appended ==> AttemptFits(cfg, w, c)
    ensures Fits(cfg, rank, w, t)
  {
    forall o | o in cfg ensures MainFits(cfg, rank, w, t, o) { assert MainFits(cfg, rank, w, s, o); }
  }

  /** A dependency that failed decides against the service, whatever the others do. */
  lemma BeforeFits(cfg: Services, rank: map<Name, nat>, w: World, s: State, t: State, n: Name, stage: BeforeStart,
                   ev: MainEvent)
    requires Closed(cfg) && Ranked(cfg, rank) && Agrees(cfg, rank, w, s) && MainFits(cfg, rank, w, s, n)
    requires s.mains[n] == Before(stage) && BeforeOk(cfg[n], s, n, stage) && BeforeEnabled(cfg[n], s, stage, ev)
    requires Follows(cfg, w, s, MainStep(n, ev)) && !s.down.cancelled
    requires t == BeforeApply(cfg[n], s, n, stage, ev)
    ensures MainFits(cfg, rank, w, t, n) && Agrees(cfg, rank, w, t)
    ensures |t.attempts| > |s.attempts| ==> w.preScriptOk(n)
  {
  }

  lemma SettleFits(cfg: Services, rank: map<Name, nat>, w: World, s: State, t: State, n: Name, i: nat)
    requires Closed(cfg) && Ranked(cfg, rank) && Agrees(cfg, rank, w, s) && !s.down.cancelled
    requires MainOk(cfg, s, n) && s.mains[n] == Awaiting(i) && StartedOk(cfg, s, i)
    requires AttemptFits(cfg, w, s.attempts[i]) && AttemptOk(cfg[n], s.down.cancelled, s.attempts[i])
    requires s.attempts[i].phase.Returned? && t == SettleApply(cfg[n], s, n, s.attempts[i].phase.outcome)
    ensures MainFits(cfg, rank, w, t, n) && Agrees(cfg, rank, w, t)
  {
    if cfg[n].oneshot && s.attempts[i].phase.outcome.Ended? && !s.attempts[i].phase.outcome.IsError() {
      StartedComesUp(cfg, rank, w, s, i);
    }
  }

  lemma BeforeKeepsFits(cfg: Services, rank: map<Name, nat>, w: World, s: State, t: State, n: Name,
                        stage: BeforeStart, ev: MainEvent)
    requires Closed(cfg) && Ranked(cfg, rank) && Fits(cfg, rank, w, s) && !s.down.cancelled && n in cfg
    requires n in s.mains && s.mains[n] == Before(stage)
    requires BeforeOk(cfg[n], s, n, stage) && BeforeEnabled(cfg[n], s, stage, ev)
    requires Follows(cfg, w, s, MainStep(n, ev)) && t == BeforeApply(cfg[n], s, n, stage, ev)
    ensures Fits(cfg, rank, w, t)
  {
    assert MainFits(cfg, rank, w, s, n);
    BeforeFits(cfg, rank, w, s, t, n, stage, ev);
    MoveFits(cfg, rank, w, s, t, n, t.mains[n], t.attempts[|s.attempts|..]);
  }

  lemma SettleKeepsFits(cfg: Services, rank: map<Name, nat>, w: World, s: State, t: State, n: Name, i: nat)
    requires Closed(cfg) && Ranked(cfg, rank) && Fits(cfg, rank, w, s) && !s.down.cancelled
    requires MainOk(cfg, s, n) && s.mains[n] == Awaiting(i) && StartedOk(cfg, s, i)
    requires AttemptOk(cfg[n], s.down.cancelled, s.attempts[i])
    requires s.attempts[i].phase.Returned? && t == SettleApply(cfg[n], s, n, s.attempts[i].phase.outcome)
    ensures Fits(cfg, rank, w, t)
  {
    assert AttemptFits(cfg, w, s.attempts[i]);
    SettleFits(cfg, rank, w, s, t, n, i);
    MoveFits(cfg, rank, w, s, t, n, t.mains[n], []);
  }

  lemma MainKeepsFits(cfg: Services, rank: map<Name, nat>, w: World, s: State, t: State, n: Name, ev: MainEvent)
    requires Closed(cfg) && Ranked(cfg, rank) && Inv(cfg, s) && Fits(cfg, rank, w, s) && !s.down.cancelled
    requires MainEnabled(cfg, s, n, ev) && Follows(cfg, w, s, MainStep(n, ev)) && t == MainApply(cfg, s, n, ev)
    ensures Fits(cfg, rank, w, t)
  {
    assert MainOk(cfg, s, n);
    match s.mains[n] {
      case Before(stage) => BeforeKeepsFits(cfg, rank, w, s, t, n, stage, ev);
      case Awaiting(i) =>
        assert StartedOk(cfg, s, i);
        SettleKeepsFits(cfg, rank, w, s, t, n, i);
      case ErrTrigger => MoveFits(cfg, rank, w, s, t, n, ErrOnce, []);
      case ErrOnce => MoveFits(cfg, rank, w, s, t, n, Finished, []);
      case Finished =>
    }
  }

  lemma HealthFits(cfg: Services, w: World, a: Attempt, ev: HealthEvent)
    requires WellFormed(cfg) && AttemptFits(cfg, w, a)
    ensures AttemptFits(cfg, w, HealthNext(cfg[a.name], a, ev))
  {
  }

  lemma HealthKeepsFits(cfg: Services, rank: map<Name, nat>, w: World, s: State, t: State, i: nat, ev: HealthEvent)
    requires WellFormed(cfg) && Ranked(cfg, rank) && Fits(cfg, rank, w, s)
    requires HealthEnabled(cfg, s, i, ev) && t == HealthApply(cfg, s, i, ev)
    ensures Fits(cfg, rank, w, t)
  {
    HealthFits(cfg, w, s.attempts[i], ev);
    PutFits(cfg, rank, w, s, t, i, t.attempts[i], []);
  }

  lemma OperatorKeepsFits(cfg: Services, rank: map<Name, nat>, w: World, s: State, t: State, i: nat)
    requires Closed(cfg) && Ranked(cfg, rank) && Fits(cfg, rank, w, s) && OperatorEnabled(cfg, s, i)
    requires !(s.attempts[i].first && cfg[s.attempts[i].name].oneshot)
    requires t == Put(s, i, s.attempts[i].(intent := CasIntent(s.attempts[i].intent, OperatorIntent)))
    ensures Fits(cfg, rank, w, t)
  {
    PutFits(cfg, rank, w, s, t, i, t.attempts[i], []);
  }

  lemma AttemptCancelled(cfg: Services, s: State, i: nat, ev: AttemptEvent)
    requires AttemptEnabled(cfg, s, i, ev)
    ensures AttemptApply(cfg, s, i, ev).down.cancelled == s.down.cancelled
  {
  }

  lemma NotCancelled(cfg: Services, w: World, s: State, step: Step)
    requires Enabled(cfg, s, step) && Follows(cfg, w, s, step) && !s.down.cancelled
    ensures !Apply(cfg, s, step).down.cancelled
  {
    match step {
      case AttemptStep(i, ev) => AttemptCancelled(cfg, s, i, ev);
      case _ =>
    }
  }

  lemma StepKeepsFits(cfg: Services, rank: map<Name, nat>, w: World, s: State, t: State, step: Step)
    requires WellFormed(cfg) && Ranked(cfg, rank) && Inv(cfg, s) && Fits(cfg, rank, w, s) && !s.down.cancelled
    requires Enabled(cfg, s, step) && Follows(cfg, w, s, step) && t == Apply(cfg, s, step)
    ensures Fits(cfg, rank, w, t) && !t.down.cancelled
  {
    assert Closed(cfg);
    hide Inv, Fits, WellFormed, Ranked;
    NotCancelled(cfg, w, s, step);
    match step {
      case MainStep(n, ev) => MainKeepsFits(cfg, rank, w, s, t, n, ev);
      case AttemptStep(i, ev) => AttemptKeepsFits(cfg, rank, w, s, t, i, ev);
      case HealthStep(i, ev) => HealthKeepsFits(cfg, rank, w, s, t, i, ev);
      case OperatorRestart(i) => OperatorKeepsFits(cfg, rank, w, s, t, i);
      case SignalStep => SameFits(cfg, rank, w, s, t);
      case OnceStep(_) => SameFits(cfg, rank, w, s, t);
    }
  }

  lemma SameFits(cfg: Services, rank: map<Name, nat>, w: World, s: State, t: State)
    requires Closed(cfg) && Ranked(cfg, rank) && Fits(cfg, rank, w, s)
    requires t.attempts == s.attempts && t.mains == s.mains && t.deps == s.deps
    ensures Fits(cfg, rank, w, t)
  {
    forall n | n in cfg ensures MainFits(cfg, rank, w, t, n) { assert MainFits(cfg, rank, w, s, n); }
  }

  lemma {:induction false} RunKeepsFits(cfg: Services, rank: map<Name, nat>, w: World, s: State, steps: seq<Step>)
    requires WellFormed(cfg) && Ranked(cfg, rank) && Inv(cfg, s) && Fits(cfg, rank, w, s) && !s.down.cancelled
    requires Runs(cfg, s, steps) && RunFollows(cfg, w, s, steps)
    ensures var t := Exec(cfg, s, steps); Fits(cfg, rank, w, t) && Inv(cfg, t) && !t.down.cancelled
    decreases |steps|
  {
    if steps != [] {
      var t := Apply(cfg, s, steps[0]);
      StepKeepsInv(cfg, s, steps[0]);
      StepKeepsFits(cfg, rank, w, s, t, steps[0]);
      RunKeepsFits(cfg, rank, w, t, steps[1..]);
    }
  }

  lemma InitFits(cfg: Services, rank: map<Name, nat>, w: World)
    requires Closed(cfg) && Ranked(cfg, rank)
    ensures Fits(cfg, rank, w, Init(cfg))
  {
  }

  /** Every service has been classified. */
  ghost predicate Settled(cfg: Services, s: State) {
    forall n :: n in cfg ==> n in s.deps.ready || n in s.deps.failed
  }

  /**
   Every interleaving of the startup classifies the services as the recursion over the dependency
   graph does: marks never contradict it, and they equal it once every service is marked.
   */
  lemma StartupAgrees(cfg: Services, rank: map<Name, nat>, w: World, steps: seq<Step>)
    requires WellFormed(cfg) && Ranked(cfg, rank) && Runs(cfg, Init(cfg), steps)
    requires RunFollows(cfg, w, Init(cfg), steps)
    ensures var t := Exec(cfg, Init(cfg), steps);
            && Agrees(cfg, rank, w, t)
            && (forall n :: n in cfg && n in t.mains && t.mains[n].Finished? ==>
                  n in t.deps.ready || n in t.deps.failed)
  {
    InitInv(cfg);
    InitFits(cfg, rank, w);
    RunKeepsFits(cfg, rank, w, Init(cfg), steps);
    var t := Exec(cfg, Init(cfg), steps);
    forall n | n in cfg && n in t.mains && t.mains[n].Finished? ensures n in t.deps.ready || n in t.deps.failed {
      assert MainOk(cfg, t, n);
    }
  }

  /** Two runs in the same world that have both classified every service end with the same marks. */
  lemma StartupConfluence(cfg: Services, w: World, a: seq<Step>, b: seq<Step>)
    requires WellFormed(cfg) && Runs(cfg, Init(cfg), a) && Runs(cfg, Init(cfg), b)
    requires RunFollows(cfg, w, Init(cfg), a) && RunFollows(cfg, w, Init(cfg), b)
    requires Settled(cfg, Exec(cfg, Init(cfg), a)) && Settled(cfg, Exec(cfg, Init(cfg), b))
    ensures Exec(cfg, Init(cfg), a).deps == Exec(cfg, Init(cfg), b).deps
  {
    var rank :| Ranked(cfg, rank);
    StartupAgrees(cfg, rank, w, a);
    StartupAgrees(cfg, rank, w, b);
    var s, t := Exec(cfg, Init(cfg), a), Exec(cfg, Init(cfg), b);
    assert s.deps.ready == t.deps.ready && s.deps.failed == t.deps.failed;
  }
}
