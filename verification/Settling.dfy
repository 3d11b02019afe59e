/** Startup comes to an end: every service gets its mark without any timeout. */
module Settling {
  import opened Config
  import opened Supervisor
  import opened Invariant
  import opened Lifecycle
  import opened Startup
  import Drain
  import opened Sums

  /** No required service fails by itself, and an empty pre-script succeeds. */
  ghost predicate Harmless(cfg: Services, w: World) {
    forall n :: n in cfg ==>
      && (cfg[n].preScript == "" ==> w.preScriptOk(n))
      && (cfg[n].required ==> w.preScriptOk(n) && w.launches(n) && (cfg[n].oneshot ==> w.exitsCleanly(n)))
  }

  /** A step of startup only: it follows the world, nobody interferes, and long-running processes keep running. */
  predicate CalmStep(cfg: Services, w: World, s: State, step: Step) {
    Follows(cfg, w, s, step) &&
    match step
    case MainStep(_, ev) => !ev.DepTimeout?
    case AttemptStep(i, ev) =>
      !ev.ContextDone?
      && (ev.ProcessExit? ==> i < |s.attempts| && s.attempts[i].name in cfg && cfg[s.attempts[i].name].oneshot)
    case _ => false
  }

  predicate RunCalm(cfg: Services, w: World, s: State, steps: seq<Step>)
    requires Runs(cfg, s, steps)
    decreases |steps|
  {
    steps == [] || (CalmStep(cfg, w, s, steps[0]) && RunCalm(cfg, w, Apply(cfg, s, steps[0]), steps[1..]))
  }

  ghost predicate CalmLeads(cfg: Services, w: World, s: State, t: State) {
    exists steps :: Runs(cfg, s, steps) && RunCalm(cfg, w, s, steps) && Exec(cfg, s, steps) == t
  }

  lemma CalmHere(cfg: Services, w: World, s: State)
    ensures CalmLeads(cfg, w, s, s)
  {
    assert Runs(cfg, s, []) && RunCalm(cfg, w, s, []) && Exec(cfg, s, []) == s;
  }

  lemma CalmFirst(cfg: Services, w: World, s: State, step: Step, t: State)
    requires Enabled(cfg, s, step) && CalmStep(cfg, w, s, step) && CalmLeads(cfg, w, Apply(cfg, s, step), t)
    ensures CalmLeads(cfg, w, s, t)
  {
    var u := Apply(cfg, s, step);
    var rest :| Runs(cfg, u, rest) && RunCalm(cfg, w, u, rest) && Exec(cfg, u, rest) == t;
    var steps := [step] + rest;
    assert steps[1..] == rest;
    assert Runs(cfg, s, steps) && RunCalm(cfg, w, s, steps) && Exec(cfg, s, steps) == t;
  }

  lemma {:induction false} CalmPrepend(cfg: Services, w: World, s: State, steps: seq<Step>, t: State)
    requires Runs(cfg, s, steps) && RunCalm(cfg, w, s, steps) && CalmLeads(cfg, w, Exec(cfg, s, steps), t)
    ensures CalmLeads(cfg, w, s, t)
    decreases |steps|
  {
    if steps != [] {
      CalmPrepend(cfg, w, Apply(cfg, s, steps[0]), steps[1..], t);
      CalmFirst(cfg, w, s, steps[0], t);
    }
  }

  lemma CalmOn(cfg: Services, w: World, r: State, s: State, t: State)
    requires CalmLeads(cfg, w, r, s) && CalmLeads(cfg, w, s, t)
    ensures CalmLeads(cfg, w, r, t)
  {
    var steps :| Runs(cfg, r, steps) && RunCalm(cfg, w, r, steps) && Exec(cfg, r, steps) == s;
    CalmPrepend(cfg, w, r, steps, t);
  }

  // ----- what calm steps keep -----

  /** A state of a startup in this world that no shutdown has reached. */
  ghost predicate InStartup(cfg: Services, rank: map<Name, nat>, w: World, s: State) {
    && WellFormed(cfg) && Ranked(cfg, rank) && Harmless(cfg, w)
    && Inv(cfg, s) && Fits(cfg, rank, w, s) && !s.down.cancelled
  }

  lemma StartingStep(cfg: Services, rank: map<Name, nat>, w: World, s: State, step: Step)
    requires InStartup(cfg, rank, w, s) && Enabled(cfg, s, step) && CalmStep(cfg, w, s, step)
    ensures InStartup(cfg, rank, w, Apply(cfg, s, step))
  {
    hide Inv, Fits, WellFormed, Ranked, Harmless;
    assert WellFormed(cfg) && Ranked(cfg, rank);
    StepKeepsInv(cfg, s, step);
    StepKeepsFits(cfg, rank, w, s, Apply(cfg, s, step), step);
  }

  /** A one-shot that must exit cleanly never gets to the failure of a required service. */
  lemma NoTrigger(cfg: Services, rank: map<Name, nat>, w: World, s: State, i: nat)
    requires InStartup(cfg, rank, w, s) && i < |s.attempts| && s.attempts[i].first && cfg[s.attempts[i].name].oneshot
    ensures s.attempts[i].phase.Post? ==> !s.attempts[i].phase.post.Trigger? && !s.attempts[i].phase.post.InOnce?
  {
    assert AttemptOk(cfg[s.attempts[i].name], s.down.cancelled, s.attempts[i]);
    assert AttemptFits(cfg, w, s.attempts[i]);
  }

  // ----- one service at a time -----

  /** The next step of a service that no unmarked dependency holds up. */
  function NextStep(cfg: Services, w: World, s: State, n: Name): Step
    requires n in cfg && n in s.mains
  {
    match s.mains[n]
    case Before(PreScript) => MainStep(n, PreDone(w.preScriptOk(n)))
    case Before(Waiting(k)) =>
      MainStep(n, if k >= |cfg[n].dependsOn| then Advance
                  else if cfg[n].dependsOn[k] in s.deps.ready then DepReady else DepFailed)
    case Awaiting(i) =>
      if i < |s.attempts| && !s.attempts[i].phase.Returned? then AttemptStep(i, NextEvent(w, s.attempts[i]))
      else MainStep(n, Advance)
    case _ => MainStep(n, Advance)
  }

  function NextEvent(w: World, a: Attempt): AttemptEvent {
    match a.phase
    case Pre(Launch) => Started(w.launches(a.name))
    case Live(Select) => ProcessExit(!w.exitsCleanly(a.name))
    case Live(Reap) => ProcessExit(!w.exitsCleanly(a.name))
    case _ => Next
  }

  /** Steps left to a service before it is marked. */
  function Left(cfg: Services, s: State, n: Name): nat {
    if n !in cfg || n !in s.mains then 0
    else match s.mains[n]
         case Before(stage) => 30 + BeforeLeft(|cfg[n].dependsOn|, stage)
         case Awaiting(i) => if i < |s.attempts| then 1 + PhaseLeft(s.attempts[i].phase) else 0
         case _ => 0
  }

  function BeforeLeft(k: nat, stage: BeforeStart): nat {
    match stage
    case Fresh => 2 * k + 7
    case PreScript => 2 * k + 6
    case Waiting(i) => if i <= k then 2 * (k - i) + 5 else 5
    case Grace(i) => if i < k then 2 * (k - i) + 4 else 6
    case PreTrigger => 3
    case PreOnce => 2
    case Failing => 1
  }

  function PhaseLeft(p: Phase): (left: nat)
    ensures left < 24
  {
    match p
    case Pre(Timer) => 23
    case Pre(Fired) => 22
    case Pre(Check) => 21
    case _ => Drain.PhaseWeight(p)
  }

  lemma LiveLowers(svc: Service, a: Attempt, p: LivePhase, ev: AttemptEvent)
    requires p.Select? ==> ev.ProcessExit?
    ensures PhaseLeft(LiveNext(svc, a, p, ev).phase) < PhaseLeft(Live(p))
  {
  }

  lemma PostLowers(svc: Service, count: int, p: PostPhase, e: Exit)
    ensures PhaseLeft(PostNext(svc, count, p, e)) < PhaseLeft(Post(p, e))
  {
  }

  /** Before a shutdown every step of an attempt but the answer to a stop request lowers what is left of it. */
  lemma PhaseLowers(svc: Service, a: Attempt, count: int, ev: AttemptEvent)
    requires !a.phase.Returned? && (a.phase == Live(Select) ==> ev.ProcessExit?)
    ensures PhaseLeft(AttemptNext(svc, false, count, a, ev).phase) < PhaseLeft(a.phase)
  {
    match a.phase {
      case Pre(_) =>
      case Register =>
      case Live(p) => LiveLowers(svc, a, p, ev);
      case Post(p, e) => PostLowers(svc, count, p, e);
    }
  }

  /** What is taken for granted about an unmarked service that is to move next. */
  ghost predicate Due(cfg: Services, s: State, n: Name) {
    n in cfg && !Marked(s, n) && forall d :: d in cfg[n].dependsOn ==> Marked(s, d)
  }

  /** Nothing has happened to `processService` and the restart counter of `m`. */
  predicate Same(s: State, t: State, m: Name) {
    && (m in s.mains <==> m in t.mains) && (m in s.mains && m in t.mains ==> t.mains[m] == s.mains[m])
    && t.restarts.Of(m) == s.restarts.Of(m) && t.restarts.Honoured(m) == s.restarts.Honoured(m)
  }

  ghost predicate LeavesOthers(s: State, t: State, n: Name) { forall m :: m != n ==> Same(s, t, m) }

  /** Only services of a rank below `r` were touched. */
  ghost predicate LeavesAbove(rank: map<Name, nat>, s: State, t: State, r: nat) {
    forall m :: m in rank && rank[m] >= r ==> Same(s, t, m)
  }

  lemma SameHere(s: State, n: Name)
    ensures LeavesOthers(s, s, n)
  {
  }

  lemma OthersOn(s: State, u: State, t: State, n: Name)
    requires LeavesOthers(s, u, n) && LeavesOthers(u, t, n)
    ensures LeavesOthers(s, t, n)
  {
    forall m | m != n ensures Same(s, t, m) {
      assert Same(s, u, m) && Same(u, t, m);
    }
  }

  lemma AboveOn(rank: map<Name, nat>, s: State, u: State, t: State, q: nat, r: nat)
    requires LeavesAbove(rank, s, u, q) && q <= r && LeavesAbove(rank, u, t, r)
    ensures LeavesAbove(rank, s, t, r)
  {
    forall m | m in rank && rank[m] >= r ensures Same(s, t, m) {
      assert Same(s, u, m) && Same(u, t, m);
    }
  }

  /**
   The step can be taken calmly, leaves the shutdown state and the other services alone, and brings `n`
   closer to its mark.
   */
  ghost predicate Helps(cfg: Services, w: World, s: State, n: Name, step: Step) {
    && Enabled(cfg, s, step) && CalmStep(cfg, w, s, step)
    && Apply(cfg, s, step).down == s.down && LeavesOthers(s, Apply(cfg, s, step), n)
    && (Marked(Apply(cfg, s, step), n) || Left(cfg, Apply(cfg, s, step), n) < Left(cfg, s, n))
  }

  lemma BeforeHelps(cfg: Services, rank: map<Name, nat>, w: World, s: State, n: Name, stage: BeforeStart)
    requires Closed(cfg) && Ranked(cfg, rank) && Harmless(cfg, w) && !s.down.cancelled && Due(cfg, s, n)
    requires n in s.mains && s.mains[n] == Before(stage) && BeforeOk(cfg[n], s, n, stage)
    requires MainFits(cfg, rank, w, s, n)
    ensures Helps(cfg, w, s, n, NextStep(cfg, w, s, n))
  {
    assert cfg[n].required ==> w.preScriptOk(n);
    if stage.Waiting? && stage.dep < |cfg[n].dependsOn| {
      var d := cfg[n].dependsOn[stage.dep];
      assert d in cfg[n].dependsOn && Marked(s, d);
    }
  }

  lemma ReturnedHelps(cfg: Services, w: World, s: State, n: Name, i: nat)
    requires Harmless(cfg, w) && !s.down.cancelled && Due(cfg, s, n)
    requires MainOk(cfg, s, n) && s.mains[n] == Awaiting(i) && StartedOk(cfg, s, i)
    requires s.attempts[i].phase.Returned? && AttemptOk(cfg[n], false, s.attempts[i])
    ensures Helps(cfg, w, s, n, NextStep(cfg, w, s, n))
  {
  }

  lemma AttemptDown(cfg: Services, s: State, i: nat, ev: AttemptEvent)
    requires AttemptEnabled(cfg, s, i, ev)
    requires s.attempts[i].phase.Post? ==> !s.attempts[i].phase.post.Trigger?
    ensures AttemptApply(cfg, s, i, ev).down == s.down
  {
  }

  lemma AttemptLeavesOthers(cfg: Services, s: State, i: nat, ev: AttemptEvent)
    requires AttemptEnabled(cfg, s, i, ev)
    ensures LeavesOthers(s, AttemptApply(cfg, s, i, ev), s.attempts[i].name)
  {
  }

  lemma NextEventEnabled(cfg: Services, w: World, s: State, i: nat)
    requires i < |s.attempts| && s.attempts[i].name in cfg && !s.attempts[i].phase.Returned?
    requires s.attempts[i].phase.Post? ==> !s.attempts[i].phase.post.InOnce?
    requires !PastPublish(s.attempts[i].phase) || cfg[s.attempts[i].name].oneshot
    ensures AttemptEnabled(cfg, s, i, NextEvent(w, s.attempts[i]))
    ensures CalmStep(cfg, w, s, AttemptStep(i, NextEvent(w, s.attempts[i])))
  {
  }

  lemma LeftOf(cfg: Services, s: State, n: Name, i: nat)
    requires n in cfg && n in s.mains && s.mains[n] == Awaiting(i) && i < |s.attempts|
    ensures Left(cfg, s, n) == 1 + PhaseLeft(s.attempts[i].phase)
  {
  }

  lemma RunningHelps(cfg: Services, rank: map<Name, nat>, w: World, s: State, n: Name, i: nat)
    requires InStartup(cfg, rank, w, s) && Due(cfg, s, n) && n in s.mains && s.mains[n] == Awaiting(i)
    requires i < |s.attempts| && s.attempts[i].name == n && s.attempts[i].first && !s.attempts[i].phase.Returned?
    requires PastPublish(s.attempts[i].phase) ==> cfg[n].oneshot && s.attempts[i].intent.NoIntent?
    requires AttemptOk(cfg[n], false, s.attempts[i])
    ensures Helps(cfg, w, s, n, AttemptStep(i, NextEvent(w, s.attempts[i])))
  {
    if cfg[n].oneshot { NoTrigger(cfg, rank, w, s, i); }
    assert Inv(cfg, s);
    hide Inv, Fits, WellFormed, Harmless, Ranked, Left, LeavesOthers;
    var a := s.attempts[i];
    var ev := NextEvent(w, a);
    NextEventEnabled(cfg, w, s, i);
    AttemptEffect(cfg, s, i, ev);
    AttemptDown(cfg, s, i, ev);
    AttemptLeavesOthers(cfg, s, i, ev);
    PhaseLowers(cfg[n], a, s.restarts.Of(n), ev);
    LeftOf(cfg, s, n, i);
    LeftOf(cfg, AttemptApply(cfg, s, i, ev), n, i);
  }

  lemma NextHelps(cfg: Services, rank: map<Name, nat>, w: World, s: State, n: Name)
    requires InStartup(cfg, rank, w, s) && Due(cfg, s, n)
    ensures n in s.mains && Helps(cfg, w, s, n, NextStep(cfg, w, s, n))
  {
    InvMain(cfg, s, n);
    match s.mains[n] {
      case Before(stage) =>
        assert MainFits(cfg, rank, w, s, n);
        BeforeHelps(cfg, rank, w, s, n, stage);
      case Awaiting(i) =>
        AwaitedIsYoung(cfg, rank, w, s, n, i);
        if s.attempts[i].phase.Returned? {
          ReturnedHelps(cfg, w, s, n, i);
        } else {
          RunningHelps(cfg, rank, w, s, n, i);
        }
      case _ =>
    }
  }

  lemma AwaitedIsYoung(cfg: Services, rank: map<Name, nat>, w: World, s: State, n: Name, i: nat)
    requires InStartup(cfg, rank, w, s) && Due(cfg, s, n) && MainOk(cfg, s, n) && s.mains[n] == Awaiting(i)
    ensures StartedOk(cfg, s, i) && AttemptOk(cfg[n], false, s.attempts[i])
    ensures !s.attempts[i].phase.Returned? && PastPublish(s.attempts[i].phase) ==>
              cfg[n].oneshot && s.attempts[i].intent.NoIntent?
  {
    assert StartedOk(cfg, s, i) && AttemptFits(cfg, w, s.attempts[i]);
  }

  lemma MarksStay(cfg: Services, w: World, s: State, t: State)
    requires CalmLeads(cfg, w, s, t)
    ensures forall n :: Marked(s, n) ==> Marked(t, n)
  {
    var steps :| Runs(cfg, s, steps) && RunCalm(cfg, w, s, steps) && Exec(cfg, s, steps) == t;
    MarksGrow(cfg, s, steps);
  }

  /** From a state of the startup a calm run leads to this one, with nothing of the shutdown touched. */
  ghost predicate Onward(cfg: Services, rank: map<Name, nat>, w: World, s: State, t: State) {
    CalmLeads(cfg, w, s, t) && InStartup(cfg, rank, w, t) && t.down == s.down
  }

  lemma OnwardOn(cfg: Services, rank: map<Name, nat>, w: World, r: State, s: State, t: State)
    requires Onward(cfg, rank, w, r, s) && Onward(cfg, rank, w, s, t)
    ensures Onward(cfg, rank, w, r, t)
  {
    CalmOn(cfg, w, r, s, t);
  }

  /** A service whose dependencies are marked gets its own mark. */
  lemma {:induction false} MarkLast(cfg: Services, rank: map<Name, nat>, w: World, s: State, n: Name)
    returns (t: State)
    requires InStartup(cfg, rank, w, s) && n in cfg && forall d :: d in cfg[n].dependsOn ==> Marked(s, d)
    ensures Onward(cfg, rank, w, s, t) && Marked(t, n) && LeavesOthers(s, t, n)
    decreases Left(cfg, s, n)
  {
    hide InStartup, Marked, LeavesOthers;
    if Marked(s, n) {
      SameHere(s, n);
      CalmHere(cfg, w, s);
      return s;
    }
    NextHelps(cfg, rank, w, s, n);
    var step := NextStep(cfg, w, s, n);
    var u := Apply(cfg, s, step);
    StartingStep(cfg, rank, w, s, step);
    CalmHere(cfg, w, u);
    CalmFirst(cfg, w, s, step, u);
    MarksStay(cfg, w, s, u);
    if Marked(u, n) {
      return u;
    }
    t := MarkLast(cfg, rank, w, u, n);
    CalmFirst(cfg, w, s, step, t);
    OthersOn(s, u, t, n);
  }

  /** The first `k` dependencies of a service get their marks. */
  lemma {:induction false} MarkDependencies(cfg: Services, rank: map<Name, nat>, w: World, s: State, n: Name, k: nat)
    returns (t: State)
    requires InStartup(cfg, rank, w, s) && Closed(cfg) && Ranked(cfg, rank) && n in cfg && k <= |cfg[n].dependsOn|
    ensures Onward(cfg, rank, w, s, t) && LeavesAbove(rank, s, t, rank[n])
    ensures forall j :: 0 <= j < k ==> Marked(t, cfg[n].dependsOn[j])
    decreases rank[n], k
  {
    hide InStartup, Marked;
    if k == 0 {
      CalmHere(cfg, w, s);
      return s;
    }
    var u := MarkDependencies(cfg, rank, w, s, n, k - 1);
    var d := cfg[n].dependsOn[k - 1];
    assert d in cfg[n].dependsOn;
    t := MarkService(cfg, rank, w, u, d);
    MarksStay(cfg, w, u, t);
    OnwardOn(cfg, rank, w, s, u, t);
    BelowIsBelow(rank, u, t, rank[d] + 1, rank[n]);
    AboveOn(rank, s, u, t, rank[n], rank[n]);
  }

  lemma BelowIsBelow(rank: map<Name, nat>, s: State, t: State, q: nat, r: nat)
    requires LeavesAbove(rank, s, t, q) && q <= r
    ensures LeavesAbove(rank, s, t, r)
  {
  }

  lemma OthersAreBelow(rank: map<Name, nat>, s: State, t: State, n: Name)
    requires LeavesOthers(s, t, n) && n in rank
    ensures LeavesAbove(rank, s, t, rank[n] + 1)
  {
  }

  lemma {:induction false} MarkService(cfg: Services, rank: map<Name, nat>, w: World, s: State, n: Name)
    returns (t: State)
    requires InStartup(cfg, rank, w, s) && Closed(cfg) && Ranked(cfg, rank) && n in cfg
    ensures Onward(cfg, rank, w, s, t) && Marked(t, n) && LeavesAbove(rank, s, t, rank[n] + 1)
    decreases rank[n], |cfg[n].dependsOn| + 1
  {
    hide InStartup, Marked;
    var u := MarkDependencies(cfg, rank, w, s, n, |cfg[n].dependsOn|);
    t := MarkLast(cfg, rank, w, u, n);
    OnwardOn(cfg, rank, w, s, u, t);
    OthersAreBelow(rank, u, t, n);
    AboveOn(rank, s, u, t, rank[n], rank[n] + 1);
  }

  lemma {:induction false} MarkAll(cfg: Services, rank: map<Name, nat>, w: World, s: State, names: set<Name>)
    returns (t: State)
    requires InStartup(cfg, rank, w, s) && Closed(cfg) && Ranked(cfg, rank) && names <= cfg.Keys
    ensures Onward(cfg, rank, w, s, t) && forall n :: n in names ==> Marked(t, n)
    decreases |names|
  {
    hide InStartup, Marked;
    if names == {} {
      CalmHere(cfg, w, s);
      return s;
    }
    var n :| n in names;
    var u := MarkAll(cfg, rank, w, s, names - {n});
    t := MarkService(cfg, rank, w, u, n);
    MarksStay(cfg, w, u, t);
    OnwardOn(cfg, rank, w, s, u, t);
  }

  lemma InitStarting(cfg: Services, rank: map<Name, nat>, w: World, past: seq<Step>)
    requires WellFormed(cfg) && Ranked(cfg, rank) && Harmless(cfg, w)
    requires Runs(cfg, Init(cfg), past) && RunFollows(cfg, w, Init(cfg), past)
    ensures InStartup(cfg, rank, w, Exec(cfg, Init(cfg), past))
  {
    InitInv(cfg);
    InitFits(cfg, rank, w);
    hide Inv, Fits, WellFormed, Harmless;
    RunKeepsFits(cfg, rank, w, Init(cfg), past);
  }

  lemma AllMarked(cfg: Services, t: State)
    requires forall n :: n in cfg.Keys ==> Marked(t, n)
    ensures Settled(cfg, t)
  {
    forall n | n in cfg ensures n in t.deps.ready || n in t.deps.failed { assert Marked(t, n); }
  }

  /** Where a startup can end: every service is marked, and nothing about the shutdown has changed. */
  ghost predicate SettledEnd(cfg: Services, w: World, s: State, t: State) {
    CalmLeads(cfg, w, s, t) && Settled(cfg, t) && t.down == s.down
  }

  /**
   In a world in which no required service fails by itself, startup comes to an end: from wherever a
   run that follows the world has got to, some run without timeouts marks every service.
   */
  lemma StartupSettles(cfg: Services, w: World, past: seq<Step>)
    requires WellFormed(cfg) && Harmless(cfg, w)
    requires Runs(cfg, Init(cfg), past) && RunFollows(cfg, w, Init(cfg), past)
    ensures exists t :: SettledEnd(cfg, w, Exec(cfg, Init(cfg), past), t)
  {
    var rank :| Ranked(cfg, rank);
    var s := Exec(cfg, Init(cfg), past);
    InitStarting(cfg, rank, w, past);
    hide InStartup, Marked;
    var t := MarkAll(cfg, rank, w, s, cfg.Keys);
    assert SettledEnd(cfg, w, s, t) by {
      AllMarked(cfg, t);
    }
  }

  // ----- every calm run is short -----

  /** A restart can still follow the attempt: it was asked to stop, or its policy may restart it. */
  predicate MayRearm(cfg: Services, a: Attempt) {
    !a.phase.Returned?
    && (!a.intent.NoIntent? || (a.name in cfg && cfg[a.name].RestartsOnFailure() && Exited(a.phase)))
  }

  /** An upper bound on the calm steps of an attempt and of the restart it may lead to. */
  function AttemptLeft(cfg: Services, a: Attempt): nat { PhaseLeft(a.phase) + if MayRearm(cfg, a) then 24 else 0 }

  function MainLeft(svc: Service, m: Main): nat {
    match m
    case Before(stage) => 30 + BeforeLeft(|svc.dependsOn|, stage)
    case Awaiting(_) => 3
    case ErrTrigger => 2
    case ErrOnce => 1
    case Finished => 0
  }

  function MainsLeft(cfg: Services): (Name, Main) -> nat { (n, m) => if n in cfg then MainLeft(cfg[n], m) else 0 }

  function AttemptsLeft(cfg: Services): Attempt -> nat { a => AttemptLeft(cfg, a) }

  /** An upper bound on the number of calm steps that are left. */
  ghost function CalmMeasure(cfg: Services, s: State): nat {
    OverMap(s.mains, cfg.Keys, MainsLeft(cfg)) + OverSeq(s.attempts, AttemptsLeft(cfg))
  }

  /** No attempt that cannot be rearmed becomes one that can. */
  lemma RearmKept(cfg: Services, a: Attempt, count: int, ev: AttemptEvent)
    requires a.name in cfg && AttemptOk(cfg[a.name], false, a) && !a.phase.Returned?
    requires a.phase == Live(Select) ==> ev.ProcessExit? && cfg[a.name].oneshot
    requires cfg[a.name].oneshot ==> !cfg[a.name].RestartsOnFailure()
    ensures MayRearm(cfg, AttemptNext(cfg[a.name], false, count, a, ev)) ==> MayRearm(cfg, a)
  {
  }

  lemma ScheduleMayRearm(cfg: Services, a: Attempt)
    requires a.name in cfg && AttemptOk(cfg[a.name], false, a) && Schedules(a.phase)
    ensures MayRearm(cfg, a)
  {
  }

  lemma AttemptLowers(cfg: Services, a: Attempt, count: int, ev: AttemptEvent)
    requires a.name in cfg && AttemptOk(cfg[a.name], false, a) && !a.phase.Returned?
    requires a.phase == Live(Select) ==> ev.ProcessExit? && cfg[a.name].oneshot
    requires cfg[a.name].oneshot ==> !cfg[a.name].RestartsOnFailure()
    ensures AttemptLeft(cfg, AttemptNext(cfg[a.name], false, count, a, ev)) + (if Schedules(a.phase) then 23 else 0)
            < AttemptLeft(cfg, a)
  {
    PhaseLowers(cfg[a.name], a, count, ev);
    RearmKept(cfg, a, count, ev);
    if Schedules(a.phase) {
      ScheduleMayRearm(cfg, a);
      assert AttemptNext(cfg[a.name], false, count, a, ev).phase == Returned(Ended(a.phase.exit));
    }
  }

  lemma NewLeft(cfg: Services, n: Name, first: bool)
    ensures AttemptLeft(cfg, NewAttempt(n, first)) == if first then 21 else 23
  {
  }

  lemma AttemptMeasure(cfg: Services, s: State, t: State, i: nat, b: Attempt, n: Name, schedules: bool)
    requires i < |s.attempts| && t.mains == s.mains
    requires t.attempts == s.attempts[i := b] + if schedules then [NewAttempt(n, false)] else []
    requires AttemptLeft(cfg, b) + (if schedules then 23 else 0) < AttemptLeft(cfg, s.attempts[i])
    ensures CalmMeasure(cfg, t) < CalmMeasure(cfg, s)
  {
    SeqPut(s.attempts, AttemptsLeft(cfg), i, b);
    if schedules {
      NewLeft(cfg, n, false);
      SeqAppend(s.attempts[i := b], AttemptsLeft(cfg), NewAttempt(n, false));
    } else {
      assert t.attempts == s.attempts[i := b];
    }
  }

  lemma MainMeasure(cfg: Services, s: State, t: State, n: Name, m: Main, starts: bool)
    requires n in cfg && n in s.mains && t.mains == s.mains[n := m]
    requires t.attempts == s.attempts + if starts then [NewAttempt(n, true)] else []
    requires MainLeft(cfg[n], m) + (if starts then 21 else 0) < MainLeft(cfg[n], s.mains[n])
    ensures CalmMeasure(cfg, t) < CalmMeasure(cfg, s)
  {
    MapPut(s.mains, cfg.Keys, MainsLeft(cfg), n, m);
    if starts {
      NewLeft(cfg, n, true);
      SeqAppend(s.attempts, AttemptsLeft(cfg), NewAttempt(n, true));
    } else {
      assert t.attempts == s.attempts;
    }
  }

  lemma MainLowers(cfg: Services, s: State, t: State, n: Name, ev: MainEvent)
    requires MainOk(cfg, s, n) && !s.down.cancelled && MainEnabled(cfg, s, n, ev) && t == MainApply(cfg, s, n, ev)
    ensures CalmMeasure(cfg, t) < CalmMeasure(cfg, s)
  {
    MainMeasure(cfg, s, t, n, t.mains[n], |t.attempts| > |s.attempts|);
  }

  lemma AttemptStepLowers(cfg: Services, s: State, t: State, i: nat, ev: AttemptEvent)
    requires WellFormed(cfg) && Inv(cfg, s) && !s.down.cancelled
    requires AttemptEnabled(cfg, s, i, ev) && t == AttemptApply(cfg, s, i, ev)
    requires s.attempts[i].phase == Live(Select) ==> ev.ProcessExit? && cfg[s.attempts[i].name].oneshot
    ensures CalmMeasure(cfg, t) < CalmMeasure(cfg, s)
  {
    var a := s.attempts[i];
    assert AttemptOk(cfg[a.name], false, a);
    assert cfg[a.name].oneshot ==> !cfg[a.name].RestartsOnFailure();
    hide Inv, WellFormed, AttemptOk, CalmMeasure, AttemptLeft;
    AttemptEffect(cfg, s, i, ev);
    AttemptLowers(cfg, a, s.restarts.Of(a.name), ev);
    AttemptMeasure(cfg, s, t, i, AttemptNext(cfg[a.name], false, s.restarts.Of(a.name), a, ev), a.name,
                   Schedules(a.phase));
  }

  /** Before a shutdown every calm step of anyone lowers the measure. */
  lemma CalmStepLowers(cfg: Services, w: World, s: State, t: State, step: Step)
    requires WellFormed(cfg) && Inv(cfg, s) && !s.down.cancelled
    requires Enabled(cfg, s, step) && CalmStep(cfg, w, s, step) && t == Apply(cfg, s, step)
    ensures CalmMeasure(cfg, t) < CalmMeasure(cfg, s)
  {
    hide Inv, WellFormed, CalmMeasure;
    match step {
      case AttemptStep(i, ev) => AttemptStepLowers(cfg, s, t, i, ev);
      case MainStep(n, ev) =>
        InvMain(cfg, s, n);
        MainLowers(cfg, s, t, n, ev);
      case _ =>
    }
  }

  lemma {:induction false} CalmRunsEnd(cfg: Services, w: World, s: State, steps: seq<Step>)
    requires WellFormed(cfg) && Inv(cfg, s) && !s.down.cancelled && Runs(cfg, s, steps) && RunCalm(cfg, w, s, steps)
    ensures |steps| + CalmMeasure(cfg, Exec(cfg, s, steps)) <= CalmMeasure(cfg, s)
    decreases |steps|
  {
    hide Inv, WellFormed, CalmMeasure;
    if steps != [] {
      var t := Apply(cfg, s, steps[0]);
      StepKeepsInv(cfg, s, steps[0]);
      NotCancelled(cfg, w, s, steps[0]);
      CalmStepLowers(cfg, w, s, t, steps[0]);
      CalmRunsEnd(cfg, w, t, steps[1..]);
    }
  }

  ghost predicate CanGoOn(cfg: Services, w: World, s: State) {
    exists step :: Enabled(cfg, s, step) && CalmStep(cfg, w, s, step)
  }

  /** Below an unmarked service there is one that no unmarked dependency holds up. */
  lemma {:induction false} SomeoneIsDue(cfg: Services, rank: map<Name, nat>, s: State, n: Name) returns (d: Name)
    requires Closed(cfg) && Ranked(cfg, rank) && n in cfg && !Marked(s, n)
    ensures Due(cfg, s, d)
    decreases rank[n]
  {
    if d' :| d' in cfg[n].dependsOn && !Marked(s, d') {
      d := SomeoneIsDue(cfg, rank, s, d');
    } else {
      d := n;
    }
  }

  lemma UnsettledGoesOn(cfg: Services, rank: map<Name, nat>, w: World, s: State)
    requires InStartup(cfg, rank, w, s) && !Settled(cfg, s)
    ensures CanGoOn(cfg, w, s)
  {
    assert Closed(cfg) && Ranked(cfg, rank);
    hide InStartup;
    var n :| n in cfg && !Marked(s, n);
    var d := SomeoneIsDue(cfg, rank, s, n);
    NextHelps(cfg, rank, w, s, d);
  }

  lemma {:induction false} CalmStaysInStartup(cfg: Services, rank: map<Name, nat>, w: World, s: State, steps: seq<Step>)
    requires InStartup(cfg, rank, w, s) && Runs(cfg, s, steps) && RunCalm(cfg, w, s, steps)
    ensures InStartup(cfg, rank, w, Exec(cfg, s, steps))
    decreases |steps|
  {
    hide InStartup;
    if steps != [] {
      StartingStep(cfg, rank, w, s, steps[0]);
      CalmStaysInStartup(cfg, rank, w, Apply(cfg, s, steps[0]), steps[1..]);
    }
  }

  /**
   In a world in which no required service fails by itself, every calm run settles: from wherever a run
   that follows the world has got to, calm runs are bounded in length, and one that cannot be continued
   calmly has marked every service.
   */
  lemma EveryCalmRunSettles(cfg: Services, w: World, past: seq<Step>, steps: seq<Step>)
    requires WellFormed(cfg) && Harmless(cfg, w)
    requires Runs(cfg, Init(cfg), past) && RunFollows(cfg, w, Init(cfg), past)
    requires Runs(cfg, Exec(cfg, Init(cfg), past), steps) && RunCalm(cfg, w, Exec(cfg, Init(cfg), past), steps)
    ensures var s := Exec(cfg, Init(cfg), past);
            && |steps| <= CalmMeasure(cfg, s)
            && (CanGoOn(cfg, w, Exec(cfg, s, steps)) || Settled(cfg, Exec(cfg, s, steps)))
  {
    var rank :| Ranked(cfg, rank);
    var s := Exec(cfg, Init(cfg), past);
    InitStarting(cfg, rank, w, past);
    assert Inv(cfg, s) && !s.down.cancelled;
    hide Inv, InStartup, CalmMeasure, Settled, CanGoOn, WellFormed, Ranked;
    CalmRunsEnd(cfg, w, s, steps);
    CalmStaysInStartup(cfg, rank, w, s, steps);
    if !Settled(cfg, Exec(cfg, s, steps)) {
      UnsettledGoesOn(cfg, rank, w, Exec(cfg, s, steps));
    }
  }

  // ----- whatever else goes on, startup progresses -----

  /** Steps left to a service that has no mark yet. */
  function PendingOf(cfg: Services, s: State, n: Name): nat { if Marked(s, n) then 0 else Left(cfg, s, n) }

  function Pendings(cfg: Services, s: State): map<Name, nat> { map n | n in cfg :: PendingOf(cfg, s, n) }

  function Amount(n: Name, pending: nat): nat { pending }

  /** An upper bound on the steps that the unmarked services still take themselves. */
  ghost function Pending(cfg: Services, s: State): nat { OverMap(Pendings(cfg, s), cfg.Keys, Amount) }

  /** The step is one of `processService` of `n`, or of the attempt that it waits for. */
  predicate Owns(s: State, n: Name, step: Step) {
    match step
    case MainStep(m, _) => m == n
    case AttemptStep(i, _) => n in s.mains && s.mains[n] == Awaiting(i)
    case _ => false
  }

  /** A state before any shutdown, of a run that follows the world. */
  ghost predicate Followed(cfg: Services, rank: map<Name, nat>, w: World, s: State) {
    WellFormed(cfg) && Ranked(cfg, rank) && Inv(cfg, s) && Fits(cfg, rank, w, s) && !s.down.cancelled
  }

  lemma FollowedStep(cfg: Services, rank: map<Name, nat>, w: World, s: State, step: Step)
    requires Followed(cfg, rank, w, s) && Enabled(cfg, s, step) && Follows(cfg, w, s, step)
    ensures Followed(cfg, rank, w, Apply(cfg, s, step))
  {
    assert WellFormed(cfg) && Ranked(cfg, rank);
    hide Inv, Fits, WellFormed, Ranked;
    StepKeepsInv(cfg, s, step);
    StepKeepsFits(cfg, rank, w, s, Apply(cfg, s, step), step);
  }

  /** An unmarked service has something left, and its first process, if it runs, is that of an untouched one-shot. */
  lemma UnmarkedHasLeft(cfg: Services, rank: map<Name, nat>, w: World, s: State, n: Name)
    requires Followed(cfg, rank, w, s) && n in cfg && !Marked(s, n)
    ensures MainOk(cfg, s, n) && Left(cfg, s, n) > 0
    ensures s.mains[n].Awaiting? && s.attempts[s.mains[n].attempt].phase == Live(Select) ==>
              s.attempts[s.mains[n].attempt].intent.NoIntent?
  {
    assert MainOk(cfg, s, n);
    if s.mains[n].Awaiting? {
      var i := s.mains[n].attempt;
      assert StartedOk(cfg, s, i) && AttemptFits(cfg, w, s.attempts[i]);
    }
  }

  lemma FollowedInv(cfg: Services, rank: map<Name, nat>, w: World, s: State)
    requires Followed(cfg, rank, w, s)
    ensures Inv(cfg, s) && !s.down.cancelled
  {
  }

  lemma MainStepLeft(cfg: Services, s: State, t: State, m: Name, ev: MainEvent, n: Name)
    requires MainOk(cfg, s, n) && !Marked(s, n) && !Marked(t, n) && !s.down.cancelled
    requires MainEnabled(cfg, s, m, ev) && t == MainApply(cfg, s, m, ev)
    ensures Left(cfg, t, n) <= Left(cfg, s, n) && (m == n ==> Left(cfg, t, n) < Left(cfg, s, n))
  {
  }

  lemma PhasesLeft(cfg: Services, s: State, t: State, n: Name)
    requires MainOk(cfg, s, n) && !Marked(s, n) && t.mains == s.mains && |s.attempts| <= |t.attempts|
    requires s.mains[n].Awaiting? ==>
               PhaseLeft(t.attempts[s.mains[n].attempt].phase) <= PhaseLeft(s.attempts[s.mains[n].attempt].phase)
    ensures Left(cfg, t, n) <= Left(cfg, s, n)
    ensures s.mains[n].Awaiting?
            && PhaseLeft(t.attempts[s.mains[n].attempt].phase) < PhaseLeft(s.attempts[s.mains[n].attempt].phase) ==>
              Left(cfg, t, n) < Left(cfg, s, n)
  {
  }

  lemma AttemptStepLeft(cfg: Services, s: State, t: State, i: nat, ev: AttemptEvent, n: Name)
    requires Inv(cfg, s) && MainOk(cfg, s, n) && !Marked(s, n) && !s.down.cancelled
    requires s.mains[n].Awaiting? && s.attempts[s.mains[n].attempt].phase == Live(Select) ==>
               s.attempts[s.mains[n].attempt].intent.NoIntent?
    requires AttemptEnabled(cfg, s, i, ev) && t == AttemptApply(cfg, s, i, ev)
    ensures Left(cfg, t, n) <= Left(cfg, s, n)
    ensures s.mains[n] == Awaiting(i) ==> Left(cfg, t, n) < Left(cfg, s, n)
  {
    hide Inv, Left, PhaseLeft;
    var a := s.attempts[i];
    AttemptEffect(cfg, s, i, ev);
    if s.mains[n] == Awaiting(i) {
      PhaseLowers(cfg[a.name], a, s.restarts.Of(a.name), ev);
    }
    PhasesLeft(cfg, s, t, n);
  }

  lemma QuietLeft(cfg: Services, s: State, t: State, step: Step, n: Name)
    requires MainOk(cfg, s, n) && !Marked(s, n) && Enabled(cfg, s, step) && t == Apply(cfg, s, step)
    requires !step.MainStep? && !step.AttemptStep?
    ensures Left(cfg, t, n) <= Left(cfg, s, n)
  {
    hide Left, PhaseLeft;
    PhasesLeft(cfg, s, t, n);
  }

  /** No step that follows the world gives an unmarked service more to do, and its own steps give it less. */
  lemma LeftNeverRises(cfg: Services, rank: map<Name, nat>, w: World, s: State, t: State, step: Step, n: Name)
    requires Followed(cfg, rank, w, s) && Enabled(cfg, s, step) && Follows(cfg, w, s, step) && t == Apply(cfg, s, step)
    requires n in cfg && !Marked(s, n) && !Marked(t, n)
    ensures Left(cfg, t, n) <= Left(cfg, s, n) && (Owns(s, n, step) ==> Left(cfg, t, n) < Left(cfg, s, n))
  {
    FollowedInv(cfg, rank, w, s);
    hide Inv, Followed, Left, PhaseLeft, Follows, MainOk;
    UnmarkedHasLeft(cfg, rank, w, s, n);
    match step {
      case MainStep(m, ev) => MainStepLeft(cfg, s, t, m, ev, n);
      case AttemptStep(i, ev) => AttemptStepLeft(cfg, s, t, i, ev, n);
      case HealthStep(_, _) => QuietLeft(cfg, s, t, step, n);
      case OperatorRestart(_) => QuietLeft(cfg, s, t, step, n);
      case SignalStep => QuietLeft(cfg, s, t, step, n);
      case OnceStep(_) => QuietLeft(cfg, s, t, step, n);
    }
  }

  lemma PendingNeverRises(cfg: Services, rank: map<Name, nat>, w: World, s: State, t: State, step: Step, n: Name)
    requires Followed(cfg, rank, w, s) && Enabled(cfg, s, step) && Follows(cfg, w, s, step) && t == Apply(cfg, s, step)
    requires n in cfg
    ensures PendingOf(cfg, t, n) <= PendingOf(cfg, s, n)
    ensures !Marked(s, n) && Owns(s, n, step) ==> PendingOf(cfg, t, n) < PendingOf(cfg, s, n)
  {
    hide Followed, Left;
    StepKeepsMarks(cfg, s, step);
    if !Marked(s, n) {
      UnmarkedHasLeft(cfg, rank, w, s, n);
      if !Marked(t, n) {
        LeftNeverRises(cfg, rank, w, s, t, step, n);
      }
    }
  }

  /** The step belongs to a service without a mark. */
  ghost predicate OwnStep(cfg: Services, s: State, step: Step) {
    exists n :: n in cfg && !Marked(s, n) && Owns(s, n, step)
  }

  /**
   Before a shutdown, whatever else crashes, restarts, is unhealthy or is asked to restart: no step that
   follows the world adds to what the unmarked services have left to do, and each step of theirs takes from it.
   */
  lemma StartupProgresses(cfg: Services, rank: map<Name, nat>, w: World, s: State, t: State, step: Step)
    requires Followed(cfg, rank, w, s) && Enabled(cfg, s, step) && Follows(cfg, w, s, step) && t == Apply(cfg, s, step)
    ensures Pending(cfg, t) <= Pending(cfg, s) && (OwnStep(cfg, s, step) ==> Pending(cfg, t) < Pending(cfg, s))
  {
    hide Followed, PendingOf, Owns, Apply, Follows, Enabled;
    forall n | n in cfg ensures PendingOf(cfg, t, n) <= PendingOf(cfg, s, n) {
      PendingNeverRises(cfg, rank, w, s, t, step, n);
    }
    if n :| n in cfg && !Marked(s, n) && Owns(s, n, step) {
      PendingNeverRises(cfg, rank, w, s, t, step, n);
      MapLess(Pendings(cfg, t), Pendings(cfg, s), cfg.Keys, Amount, n);
    } else {
      MapLess(Pendings(cfg, t), Pendings(cfg, s), cfg.Keys, Amount, "");
    }
  }

  /** How many steps of the run belong to services that have no mark at that point. */
  ghost function OwnSteps(cfg: Services, s: State, steps: seq<Step>): nat
    requires Runs(cfg, s, steps)
    decreases |steps|
  {
    if steps == [] then 0
    else (if OwnStep(cfg, s, steps[0]) then 1 else 0) + OwnSteps(cfg, Apply(cfg, s, steps[0]), steps[1..])
  }

  lemma {:induction false} OwnStepsBounded(cfg: Services, rank: map<Name, nat>, w: World, s: State, steps: seq<Step>)
    requires Followed(cfg, rank, w, s) && Runs(cfg, s, steps) && RunFollows(cfg, w, s, steps)
    ensures OwnSteps(cfg, s, steps) + Pending(cfg, Exec(cfg, s, steps)) <= Pending(cfg, s)
    ensures Followed(cfg, rank, w, Exec(cfg, s, steps))
    decreases |steps|
  {
    hide Followed, Pending, OwnStep;
    if steps != [] {
      var t := Apply(cfg, s, steps[0]);
      FollowedStep(cfg, rank, w, s, steps[0]);
      StartupProgresses(cfg, rank, w, s, t, steps[0]);
      OwnStepsBounded(cfg, rank, w, t, steps[1..]);
    }
  }

  /** Some unmarked service has a step of its own that it can take calmly. */
  ghost predicate OwnStepReady(cfg: Services, w: World, s: State) {
    exists step :: Enabled(cfg, s, step) && CalmStep(cfg, w, s, step) && OwnStep(cfg, s, step)
  }

  lemma UnsettledHasOwnStep(cfg: Services, rank: map<Name, nat>, w: World, s: State)
    requires InStartup(cfg, rank, w, s) && !Settled(cfg, s)
    ensures OwnStepReady(cfg, w, s)
  {
    assert Closed(cfg) && Ranked(cfg, rank);
    hide InStartup, Left, LeavesOthers, Apply, Enabled, CalmStep, NextStep, Owns;
    var n :| n in cfg && !Marked(s, n);
    var d := SomeoneIsDue(cfg, rank, s, n);
    NextHelps(cfg, rank, w, s, d);
    NextIsOwn(cfg, w, s, d);
  }

  lemma NextIsOwn(cfg: Services, w: World, s: State, n: Name)
    requires n in cfg && n in s.mains
    ensures Owns(s, n, NextStep(cfg, w, s, n))
  {
  }

  /**
   In every run from the start that follows a world in which no required service fails by itself, whatever
   goes on beside, the unmarked services take a bounded number of steps themselves; and as long as one has
   no mark, one of them can take such a step. So no fair run of this kind goes on without settling.
   */
  lemma EveryFairRunSettles(cfg: Services, w: World, steps: seq<Step>)
    requires WellFormed(cfg) && Harmless(cfg, w)
    requires Runs(cfg, Init(cfg), steps) && RunFollows(cfg, w, Init(cfg), steps)
    ensures OwnSteps(cfg, Init(cfg), steps) + Pending(cfg, Exec(cfg, Init(cfg), steps)) <= Pending(cfg, Init(cfg))
    ensures Settled(cfg, Exec(cfg, Init(cfg), steps)) || OwnStepReady(cfg, w, Exec(cfg, Init(cfg), steps))
  {
    var rank :| Ranked(cfg, rank);
    var t := Exec(cfg, Init(cfg), steps);
    InitFollowed(cfg, rank, w);
    OwnStepsBounded(cfg, rank, w, Init(cfg), steps);
    hide Inv, Fits, WellFormed, Ranked, Harmless, OwnStepReady, Settled;
    if !Settled(cfg, t) {
      UnsettledHasOwnStep(cfg, rank, w, t);
    }
  }

  lemma InitFollowed(cfg: Services, rank: map<Name, nat>, w: World)
    requires WellFormed(cfg) && Ranked(cfg, rank)
    ensures Followed(cfg, rank, w, Init(cfg))
  {
    InitInv(cfg);
    InitFits(cfg, rank, w);
  }
}
