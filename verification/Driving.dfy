/** Runs in which one service is taken from start to start while nothing else interferes. */
module Driving {
  import opened Config
  import opened Supervisor
  import opened Invariant
  import opened Outcomes
  import opened Startup
  import opened Settling
  import opened ExitStatus
  import Budget

  /** A permitted run leads from `r` to `s`. */
  ghost predicate LeadsPermitted(cfg: Services, allow: Allowed, r: State, s: State) {
    exists steps :: Runs(cfg, r, steps) && RunPermitted(cfg, allow, r, steps) && Exec(cfg, r, steps) == s
  }

  lemma PermittedHere(cfg: Services, allow: Allowed, s: State)
    ensures LeadsPermitted(cfg, allow, s, s)
  {
    assert Runs(cfg, s, []) && RunPermitted(cfg, allow, s, []) && Exec(cfg, s, []) == s;
  }

  lemma PermittedFirst(cfg: Services, allow: Allowed, s: State, step: Step, t: State)
    requires Enabled(cfg, s, step) && Permitted(cfg, allow, s, step)
    requires LeadsPermitted(cfg, allow, Apply(cfg, s, step), t)
    ensures LeadsPermitted(cfg, allow, s, t)
  {
    var u := Apply(cfg, s, step);
    var rest :| Runs(cfg, u, rest) && RunPermitted(cfg, allow, u, rest) && Exec(cfg, u, rest) == t;
    var steps := [step] + rest;
    assert steps[1..] == rest;
    assert Runs(cfg, s, steps) && RunPermitted(cfg, allow, s, steps) && Exec(cfg, s, steps) == t;
  }

  /** Runs compose, and whoever may do more may do less. */
  lemma {:induction false} PermittedPrepend(cfg: Services, allow: Allowed, s: State, steps: seq<Step>, t: State)
    requires Runs(cfg, s, steps) && LeadsPermitted(cfg, allow, Exec(cfg, s, steps), t)
    requires RunPermitted(cfg, NOTHING, s, steps) || RunPermitted(cfg, allow, s, steps)
    ensures LeadsPermitted(cfg, allow, s, t)
    decreases |steps|
  {
    if steps != [] {
      PermittedPrepend(cfg, allow, Apply(cfg, s, steps[0]), steps[1..], t);
      PermittedFirst(cfg, allow, s, steps[0], t);
    }
  }

  lemma PermittedOn(cfg: Services, allow: Allowed, r: State, s: State, t: State)
    requires LeadsPermitted(cfg, NOTHING, r, s) && LeadsPermitted(cfg, allow, s, t)
    ensures LeadsPermitted(cfg, allow, r, t)
  {
    var steps :| Runs(cfg, r, steps) && RunPermitted(cfg, NOTHING, r, steps) && Exec(cfg, r, steps) == s;
    PermittedPrepend(cfg, allow, r, steps, t);
  }

  lemma PermittedStep(cfg: Services, r: State, s: State, step: Step)
    requires LeadsPermitted(cfg, NOTHING, r, s) && Enabled(cfg, s, step) && Permitted(cfg, NOTHING, s, step)
    ensures LeadsPermitted(cfg, NOTHING, r, Apply(cfg, s, step))
  {
    PermittedHere(cfg, NOTHING, Apply(cfg, s, step));
    PermittedFirst(cfg, NOTHING, s, step, Apply(cfg, s, step));
    PermittedOn(cfg, NOTHING, r, s, Apply(cfg, s, step));
  }

  lemma {:induction false} CalmIsPermitted(cfg: Services, w: World, s: State, steps: seq<Step>)
    requires Runs(cfg, s, steps) && RunCalm(cfg, w, s, steps)
    ensures RunPermitted(cfg, NOTHING, s, steps)
    decreases |steps|
  {
    if steps != [] {
      CalmIsPermitted(cfg, w, Apply(cfg, s, steps[0]), steps[1..]);
    }
  }

  lemma CalmLeadsPermitted(cfg: Services, w: World, s: State, t: State)
    requires CalmLeads(cfg, w, s, t)
    ensures LeadsPermitted(cfg, NOTHING, s, t)
  {
    var steps :| Runs(cfg, s, steps) && RunCalm(cfg, w, s, steps) && Exec(cfg, s, steps) == t;
    CalmIsPermitted(cfg, w, s, steps);
  }

  // ----- a service that has come as far as its launch -----

  lemma InitStarts(cfg: Services, rank: map<Name, nat>, w: World)
    requires WellFormed(cfg) && Ranked(cfg, rank) && Harmless(cfg, w)
    ensures InStartup(cfg, rank, w, Init(cfg))
  {
    InitInv(cfg);
    InitFits(cfg, rank, w);
  }

  lemma NothingAnnounced(cfg: Services, rank: map<Name, nat>, w: World, t: State)
    requires InStartup(cfg, rank, w, t) && t.down.exitCode == 0
    ensures !Announced(cfg, t)
  {
    forall m | m in t.mains && m in cfg && cfg[m].required ensures !t.mains[m].ErrTrigger? {
      assert MainFits(cfg, rank, w, t, m);
    }
  }

  /** Nothing goes wrong. */
  ghost predicate AllWell(w: World) {
    forall m :: w.preScriptOk(m) && w.launches(m) && w.exitsCleanly(m)
  }

  lemma {:induction false} EverythingComesUp(cfg: Services, rank: map<Name, nat>, w: World, n: Name)
    requires Closed(cfg) && Ranked(cfg, rank) && n in cfg
    requires AllWell(w)
    ensures ComesUp(cfg, rank, w, n)
    decreases rank[n]
  {
    forall d | d in cfg[n].dependsOn ensures ComesUp(cfg, rank, w, d) {
      EverythingComesUp(cfg, rank, w, d);
    }
  }

  /** The first start of `n` stands at `p`, untouched. */
  predicate FirstAt(s: State, n: Name, p: Phase) {
    n in s.mains && s.mains[n].Awaiting? && s.mains[n].attempt < |s.attempts| &&
    var a := s.attempts[s.mains[n].attempt];
    a.name == n && a.first && a.intent.NoIntent? && a.phase == p
  }

  predicate NotLaunched(s: State, n: Name) {
    (n in s.mains && s.mains[n].Before?) || FirstAt(s, n, Pre(Check)) || FirstAt(s, n, Pre(Launch))
  }

  lemma NotLaunchedIsUnmarked(cfg: Services, s: State, n: Name)
    requires Inv(cfg, s) && n in cfg && NotLaunched(s, n)
    ensures !Marked(s, n)
  {
    assert MainOk(cfg, s, n);
  }

  /** The next step leads on towards the launch. */
  lemma NextTowards(cfg: Services, rank: map<Name, nat>, w: World, s: State, n: Name)
    requires Closed(cfg) && Ranked(cfg, rank) && AllWell(w) && !s.down.cancelled && n in cfg && NotLaunched(s, n)
    requires MainFits(cfg, rank, w, s, n) && ComesUp(cfg, rank, w, n)
    requires forall d :: d in cfg[n].dependsOn ==> d in s.deps.ready
    requires !FirstAt(s, n, Pre(Launch)) && Enabled(cfg, s, NextStep(cfg, w, s, n))
    ensures NotLaunched(Apply(cfg, s, NextStep(cfg, w, s, n)), n)
    ensures Apply(cfg, s, NextStep(cfg, w, s, n)).restarts == s.restarts
  {
    if s.mains[n].Before? && s.mains[n].stage.Waiting? && s.mains[n].stage.dep < |cfg[n].dependsOn| {
      assert cfg[n].dependsOn[s.mains[n].stage.dep] in cfg[n].dependsOn;
    }
  }

  lemma OnToLaunch(cfg: Services, rank: map<Name, nat>, w: World, s: State, n: Name)
    requires InStartup(cfg, rank, w, s) && AllWell(w) && Due(cfg, s, n) && NotLaunched(s, n)
    requires !FirstAt(s, n, Pre(Launch)) && Enabled(cfg, s, NextStep(cfg, w, s, n))
    ensures NotLaunched(Apply(cfg, s, NextStep(cfg, w, s, n)), n)
    ensures Apply(cfg, s, NextStep(cfg, w, s, n)).restarts == s.restarts
  {
    assert MainFits(cfg, rank, w, s, n);
    hide Inv, Fits, Harmless, MainFits, Enabled, Apply, NextStep;
    EverythingComesUp(cfg, rank, w, n);
    forall d | d in cfg[n].dependsOn ensures d in s.deps.ready { DependencyIsReady(cfg, rank, w, s, n, d); }
    NextTowards(cfg, rank, w, s, n);
  }

  lemma DependencyIsReady(cfg: Services, rank: map<Name, nat>, w: World, s: State, n: Name, d: Name)
    requires InStartup(cfg, rank, w, s) && AllWell(w) && Due(cfg, s, n) && d in cfg[n].dependsOn
    ensures d in s.deps.ready
  {
    assert Marked(s, d);
    EverythingComesUp(cfg, rank, w, d);
  }

  lemma {:induction false} ToLaunch(cfg: Services, rank: map<Name, nat>, w: World, s: State, n: Name)
    returns (t: State)
    requires InStartup(cfg, rank, w, s) && AllWell(w) && n in cfg && NotLaunched(s, n)
    requires forall d :: d in cfg[n].dependsOn ==> Marked(s, d)
    ensures Onward(cfg, rank, w, s, t) && FirstAt(t, n, Pre(Launch)) && t.restarts == s.restarts
    decreases Left(cfg, s, n)
  {
    assert Inv(cfg, s);
    hide Inv, InStartup, Marked, NotLaunched, FirstAt, LeavesOthers;
    if FirstAt(s, n, Pre(Launch)) {
      CalmHere(cfg, w, s);
      return s;
    }
    NotLaunchedIsUnmarked(cfg, s, n);
    NextHelps(cfg, rank, w, s, n);
    var step := NextStep(cfg, w, s, n);
    var u := Apply(cfg, s, step);
    OnToLaunch(cfg, rank, w, s, n);
    StartingStep(cfg, rank, w, s, step);
    StartingInv(cfg, rank, w, u);
    NotLaunchedIsUnmarked(cfg, u, n);
    CalmHere(cfg, w, u);
    CalmFirst(cfg, w, s, step, u);
    MarksStay(cfg, w, s, u);
    t := ToLaunch(cfg, rank, w, u, n);
    CalmFirst(cfg, w, s, step, t);
  }

  lemma StartingInv(cfg: Services, rank: map<Name, nat>, w: World, s: State)
    requires InStartup(cfg, rank, w, s)
    ensures Inv(cfg, s) && !s.down.cancelled
  {
  }

  /** The newest attempt of `n` stands at `p` with this intent, and nothing has been announced. */
  ghost predicate Stands(cfg: Services, r: State, s: State, n: Name, i: nat, p: Phase, intent: Intent) {
    && LeadsPermitted(cfg, NOTHING, r, s) && Inv(cfg, s) && !s.down.cancelled && !Announced(cfg, s)
    && n in cfg && Last(s, i) && s.attempts[i].name == n && s.attempts[i].phase == p && s.attempts[i].intent == intent
  }

  /** An ordinary run takes any service to its first launch, with nothing announced and no restart counted. */
  lemma ReachLaunch(cfg: Services, n: Name) returns (s: State, i: nat)
    requires WellFormed(cfg) && n in cfg
    ensures Stands(cfg, Init(cfg), s, n, i, Pre(Launch), NoIntent) && s.attempts[i].first && s.restarts.Of(n) == 0
    ensures s.mains.Keys == cfg.Keys && s.mains[n] == Awaiting(i) && s.down == Init(cfg).down
    ensures s.restarts.Honoured(n) == 0 && Budget.AttemptsOf(s, n) == {i}
  {
    var rank :| Ranked(cfg, rank);
    var w := World(_ => true, _ => true, _ => true);
    InitStarts(cfg, rank, w);
    var u := MarkDependencies(cfg, rank, w, Init(cfg), n, |cfg[n].dependsOn|);
    assert Same(Init(cfg), u, n);
    s := ToLaunch(cfg, rank, w, u, n);
    OnwardOn(cfg, rank, w, Init(cfg), u, s);
    CalmLeadsPermitted(cfg, w, Init(cfg), s);
    NothingAnnounced(cfg, rank, w, s);
    StartingInv(cfg, rank, w, s);
    i := s.mains[n].attempt;
    FirstStands(cfg, s, n, i);
  }

  lemma FirstStands(cfg: Services, s: State, n: Name, i: nat)
    requires Inv(cfg, s) && FirstAt(s, n, Pre(Launch)) && i == s.mains[n].attempt
    ensures Last(s, i) && s.mains.Keys == cfg.Keys && Budget.AttemptsOf(s, n) == {i}
  {
    InvLineage(cfg, s);
  }

  // ----- one attempt moves on -----

  lemma Moved(cfg: Services, s: State, t: State, n: Name, i: nat, b: Attempt)
    requires Last(s, i) && s.attempts[i].name == n && t.attempts == s.attempts[i := b] && b.name == n
    requires t.mains == s.mains && t.down == s.down && !Announced(cfg, s)
    ensures Last(t, i) && !Announced(cfg, t)
  {
    forall j | i < j < |t.attempts| ensures t.attempts[j].name != n { assert s.attempts[j].name != n; }
  }

  /** One step of the attempt, which neither schedules a restart nor fails the supervisor. */
  lemma Go(cfg: Services, r: State, s: State, n: Name, i: nat, p: Phase, intent: Intent, ev: AttemptEvent, q: Phase)
    returns (t: State)
    requires Stands(cfg, r, s, n, i, p, intent) && AttemptEnabled(cfg, s, i, ev)
    requires p.Post? ==> p.post.Decide? || p.post.Count? || p.post.Reset?
    requires p == Live(Request) ==> !intent.NoIntent?
    requires AttemptNext(cfg[n], false, s.restarts.Of(n), s.attempts[i], ev).phase == q
    ensures Stands(cfg, r, t, n, i, q, intent)
    ensures t.restarts == RestartsAfter(p, s.restarts, n) && Budget.AttemptsOf(t, n) == Budget.AttemptsOf(s, n)
    ensures t.attempts[i].first == s.attempts[i].first && t.mains == s.mains
  {
    hide Inv, Announced, LeadsPermitted, Last;
    t := AttemptApply(cfg, s, i, ev);
    var b := AttemptNext(cfg[n], false, s.restarts.Of(n), s.attempts[i], ev);
    assert t == Apply(cfg, s, AttemptStep(i, ev));
    PermittedStep(cfg, r, s, AttemptStep(i, ev));
    StepKeepsInv(cfg, s, AttemptStep(i, ev));
    AttemptEffect(cfg, s, i, ev);
    AttemptDown(cfg, s, i, ev);
    AttemptRestarts(cfg, s, i, ev);
    Budget.AttemptsPut(s, t, i, b, n);
    assert t.attempts == s.attempts[i := b];
    Moved(cfg, s, t, n, i, b);
  }

  /** What a step of an attempt at `p` does to the restart counters. */
  function RestartsAfter(p: Phase, restarts: Restarts, n: Name): Restarts {
    match p
    case Post(Count, _) => restarts.Increment(n)
    case Post(Reset, _) => restarts.Reset(n)
    case _ => restarts
  }

  lemma AttemptRestarts(cfg: Services, s: State, i: nat, ev: AttemptEvent)
    requires AttemptEnabled(cfg, s, i, ev)
    ensures AttemptApply(cfg, s, i, ev).restarts ==
            RestartsAfter(s.attempts[i].phase, s.restarts, s.attempts[i].name)
  {
  }

  lemma LaunchToSelect(cfg: Services, r: State, s: State, n: Name, i: nat) returns (t: State)
    requires Stands(cfg, r, s, n, i, Pre(Launch), NoIntent)
    ensures Stands(cfg, r, t, n, i, Live(Select), NoIntent) && t.restarts == s.restarts
    ensures Budget.AttemptsOf(t, n) == Budget.AttemptsOf(s, n)
  {
    hide Inv, Announced, LeadsPermitted;
    var s1 := Go(cfg, r, s, n, i, Pre(Launch), NoIntent, Started(true), Register);
    var s2 := Go(cfg, r, s1, n, i, Register, NoIntent, Next, Live(Announce));
    var s3 := Go(cfg, r, s2, n, i, Live(Announce), NoIntent, Next, Live(Monitor));
    var s4 := Go(cfg, r, s3, n, i, Live(Monitor), NoIntent, Next, Live(Publish));
    t := Go(cfg, r, s4, n, i, Live(Publish), NoIntent, Next, Live(Select));
  }

  /** `scheduleRestart`: the attempt returns, and a new one is armed. */
  lemma Rearm(cfg: Services, r: State, s: State, n: Name, i: nat, e: Exit, intent: Intent) returns (t: State, j: nat)
    requires Stands(cfg, r, s, n, i, Post(Schedule, e), intent)
    ensures Stands(cfg, r, t, n, j, Pre(Timer), NoIntent) && !t.attempts[j].first
    ensures t.restarts == s.restarts && |Budget.AttemptsOf(t, n)| == |Budget.AttemptsOf(s, n)| + 1
  {
    hide Inv, Announced, LeadsPermitted;
    t := AttemptApply(cfg, s, i, Next);
    j := |s.attempts|;
    assert t == Apply(cfg, s, AttemptStep(i, Next));
    PermittedStep(cfg, r, s, AttemptStep(i, Next));
    StepKeepsInv(cfg, s, AttemptStep(i, Next));
    AttemptEffect(cfg, s, i, Next);
    AttemptDown(cfg, s, i, Next);
    AttemptRestarts(cfg, s, i, Next);
    StillUnannounced(cfg, s, t);
    OneMoreAttempt(cfg, s, t, n, i, AttemptNext(cfg[n], false, s.restarts.Of(n), s.attempts[i], Next));
  }

  lemma OneMoreAttempt(cfg: Services, s: State, t: State, n: Name, i: nat, b: Attempt)
    requires i < |s.attempts| && s.attempts[i].name == n && b.name == n
    requires t.attempts == s.attempts[i := b] + [NewAttempt(n, false)]
    ensures |Budget.AttemptsOf(t, n)| == |Budget.AttemptsOf(s, n)| + 1
  {
    var mid := s.(attempts := s.attempts[i := b]);
    Budget.AttemptsPut(s, mid, i, b, n);
    Budget.AttemptsAppend(mid, t, NewAttempt(n, false), n);
  }

  lemma StillUnannounced(cfg: Services, s: State, t: State)
    requires !Announced(cfg, s) && t.mains == s.mains && t.down == s.down
    ensures !Announced(cfg, t)
  {
  }

  // ----- ways to end a process -----

  lemma Crash(cfg: Services, r: State, s: State, n: Name, i: nat) returns (t: State)
    requires Stands(cfg, r, s, n, i, Live(Select), NoIntent)
    ensures Stands(cfg, r, t, n, i, Post(Decide, CRASHED), NoIntent) && t.restarts == s.restarts
    ensures Budget.AttemptsOf(t, n) == Budget.AttemptsOf(s, n)
  {
    hide Inv, Announced, LeadsPermitted;
    var s1 := Go(cfg, r, s, n, i, Live(Select), NoIntent, ProcessExit(true), Live(Finish(true)));
    var s2 := Go(cfg, r, s1, n, i, Live(Finish(true)), NoIntent, Next, Live(Record));
    var s3 := Go(cfg, r, s2, n, i, Live(Record), NoIntent, Next, Live(Remove(CRASHED)));
    t := Go(cfg, r, s3, n, i, Live(Remove(CRASHED)), NoIntent, Next, Post(Decide, CRASHED));
  }

  lemma DecideRestart(cfg: Services, r: State, s: State, n: Name, i: nat) returns (t: State)
    requires Stands(cfg, r, s, n, i, Post(Decide, CRASHED), NoIntent)
    requires cfg[n].RestartsOnFailure() && (cfg[n].maxRestarts > 0 ==> s.restarts.Of(n) < cfg[n].maxRestarts)
    ensures Stands(cfg, r, t, n, i, Post(Schedule, CRASHED), NoIntent)
    ensures t.restarts == s.restarts.Increment(n) && Budget.AttemptsOf(t, n) == Budget.AttemptsOf(s, n)
  {
    hide Inv, Announced, LeadsPermitted;
    var s1 := Go(cfg, r, s, n, i, Post(Decide, CRASHED), NoIntent, Next, Post(Count, CRASHED));
    t := Go(cfg, r, s1, n, i, Post(Count, CRASHED), NoIntent, Next, Post(Schedule, CRASHED));
  }

  lemma Requested(cfg: Services, r: State, s: State, n: Name, i: nat) returns (t: State)
    requires Stands(cfg, r, s, n, i, Live(Select), NoIntent)
    ensures OperatorEnabled(cfg, s, i) && t == Apply(cfg, s, OperatorRestart(i))
    ensures Stands(cfg, t, t, n, i, Live(Select), OperatorIntent)
    ensures t.restarts == s.restarts && Budget.AttemptsOf(t, n) == Budget.AttemptsOf(s, n)
  {
    hide Inv, Announced, LeadsPermitted;
    t := Apply(cfg, s, OperatorRestart(i));
    StepKeepsInv(cfg, s, OperatorRestart(i));
    PermittedHere(cfg, NOTHING, t);
    Moved(cfg, s, t, n, i, t.attempts[i]);
    Budget.AttemptsPut(s, t, i, t.attempts[i], n);
  }

  lemma StopForOperator(cfg: Services, r: State, s: State, n: Name, i: nat) returns (t: State)
    requires Stands(cfg, r, s, n, i, Live(Select), OperatorIntent)
    ensures Stands(cfg, r, t, n, i, Live(Finish(true)), OperatorIntent)
    ensures t.restarts == s.restarts && Budget.AttemptsOf(t, n) == Budget.AttemptsOf(s, n)
  {
    hide Inv, Announced, LeadsPermitted;
    var s1 := Go(cfg, r, s, n, i, Live(Select), OperatorIntent, ContextDone, Live(Request));
    var s2 := Go(cfg, r, s1, n, i, Live(Request), OperatorIntent, Next, Live(Stop));
    var s3 := Go(cfg, r, s2, n, i, Live(Stop), OperatorIntent, Next, Live(Reap));
    t := Go(cfg, r, s3, n, i, Live(Reap), OperatorIntent, ProcessExit(true), Live(Finish(true)));
  }

  lemma FinishForOperator(cfg: Services, r: State, s: State, n: Name, i: nat) returns (t: State)
    requires Stands(cfg, r, s, n, i, Live(Finish(true)), OperatorIntent)
    ensures Stands(cfg, r, t, n, i, Post(Schedule, KILLED), OperatorIntent)
    ensures t.restarts == s.restarts.Reset(n) && Budget.AttemptsOf(t, n) == Budget.AttemptsOf(s, n)
  {
    hide Inv, Announced, LeadsPermitted;
    var s1 := Go(cfg, r, s, n, i, Live(Finish(true)), OperatorIntent, Next, Live(Remove(KILLED)));
    var s2 := Go(cfg, r, s1, n, i, Live(Remove(KILLED)), OperatorIntent, Next, Post(Reset, KILLED));
    t := Go(cfg, r, s2, n, i, Post(Reset, KILLED), OperatorIntent, Next, Post(Schedule, KILLED));
  }

  /** An armed restart comes to its launch. */
  lemma TimerToLaunch(cfg: Services, r: State, s: State, n: Name, j: nat) returns (t: State)
    requires Stands(cfg, r, s, n, j, Pre(Timer), NoIntent)
    ensures Stands(cfg, r, t, n, j, Pre(Launch), NoIntent) && t.attempts[j].first == s.attempts[j].first
    ensures t.restarts == s.restarts && Budget.AttemptsOf(t, n) == Budget.AttemptsOf(s, n)
  {
    hide Inv, Announced, LeadsPermitted;
    var s1 := Go(cfg, r, s, n, j, Pre(Timer), NoIntent, Next, Pre(Fired));
    var s2 := Go(cfg, r, s1, n, j, Pre(Fired), NoIntent, Next, Pre(Check));
    t := Go(cfg, r, s2, n, j, Pre(Check), NoIntent, Next, Pre(Launch));
  }
}
