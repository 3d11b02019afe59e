/** Which attempts are followed by a restart. */
module Succession {
  import opened Config
  import opened Supervisor
  import opened Invariant
  import opened Lifecycle

  /** A restart was armed after the attempt. */
  ghost predicate HasSuccessor(s: State, i: nat) {
    i < |s.attempts| && exists k :: i < k < |s.attempts| && s.attempts[k].name == s.attempts[i].name
  }

  /** The step in which `handleServiceExit` decides for a restart, from the exit and the count it reads. */
  predicate DecidesRestart(cfg: Services, s: State, step: Step, i: nat) {
    step == AttemptStep(i, Next) && i < |s.attempts| && s.attempts[i].name in cfg
    && match s.attempts[i].phase
       case Post(Decide, e) =>
         ExitDecision(cfg[s.attempts[i].name], s.restarts.Of(s.attempts[i].name), ExitErr(e)).Restart?
       case _ => false
  }

  /** Some step of the run decides for a restart after attempt `i`. */
  predicate RestartDecided(cfg: Services, s: State, steps: seq<Step>, i: nat)
    requires Runs(cfg, s, steps)
    decreases |steps|
  {
    steps != [] && (DecidesRestart(cfg, s, steps[0], i) || RestartDecided(cfg, Apply(cfg, s, steps[0]), steps[1..], i))
  }

  /** How far an attempt with this phase has got towards a successor. */
  predicate Tracks(p: Phase, decided: bool, succeeded: bool) {
    match p
    case Post(Reset, e) => !succeeded && !decided && e.intent.OperatorIntent?
    case Post(Count, e) => !succeeded && decided && Unasked(e)
    case Post(Schedule, e) => !succeeded && (decided <==> !e.intent.OperatorIntent?)
    case Post(_, e) => !succeeded && !decided && Unasked(e)
    case Returned(Ended(e)) => succeeded <==> decided || e.intent.OperatorIntent?
    case _ => !succeeded && !decided
  }

  ghost predicate Tracked(s: State, i: nat, decided: bool) {
    if i < |s.attempts| then Tracks(s.attempts[i].phase, decided, HasSuccessor(s, i)) else !decided
  }

  lemma LiveTracks(svc: Service, a: Attempt, p: LivePhase, ev: AttemptEvent)
    ensures Tracks(LiveNext(svc, a, p, ev).phase, false, false)
  {
  }

  lemma PostTracks(svc: Service, count: int, p: PostPhase, e: Exit, decided: bool)
    requires Tracks(Post(p, e), decided, false)
    ensures Tracks(PostNext(svc, count, p, e), decided || (p.Decide? && ExitDecision(svc, count, ExitErr(e)).Restart?),
                   p.Schedule?)
  {
  }

  lemma NextTracks(svc: Service, cancelled: bool, count: int, a: Attempt, ev: AttemptEvent, decided: bool)
    requires Tracks(a.phase, decided, false) && !a.phase.Returned?
    ensures var decides := a.phase.Post? && a.phase.post.Decide?
                           && ExitDecision(svc, count, ExitErr(a.phase.exit)).Restart?;
            Tracks(AttemptNext(svc, cancelled, count, a, ev).phase, decided || decides, Schedules(a.phase))
  {
    match a.phase {
      case Pre(_) =>
      case Register =>
      case Live(p) => LiveTracks(svc, a, p, ev);
      case Post(p, e) => PostTracks(svc, count, p, e, decided);
    }
  }

  lemma NewestHasNone(s: State, i: nat)
    requires Lineage(s) && i < |s.attempts| && !s.attempts[i].phase.Returned?
    ensures !HasSuccessor(s, i)
  {
  }

  /** The step of the attempt itself. */
  lemma OwnStepTracks(cfg: Services, s: State, t: State, i: nat, ev: AttemptEvent, decided: bool)
    requires Inv(cfg, s) && AttemptEnabled(cfg, s, i, ev) && t == AttemptApply(cfg, s, i, ev) && Tracked(s, i, decided)
    ensures Tracked(t, i, decided || DecidesRestart(cfg, s, AttemptStep(i, ev), i))
  {
    hide Inv, Lineage, HasSuccessor, Tracks;
    var a := s.attempts[i];
    var svc, count := cfg[a.name], s.restarts.Of(a.name);
    InvLineage(cfg, s);
    NewestHasNone(s, i);
    AttemptEffect(cfg, s, i, ev);
    NextTracks(svc, s.down.cancelled, count, a, ev, decided);
    OwnSuccessor(s, t, i, AttemptNext(svc, s.down.cancelled, count, a, ev), Schedules(a.phase));
  }

  lemma OwnSuccessor(s: State, t: State, i: nat, b: Attempt, schedules: bool)
    requires i < |s.attempts| && !HasSuccessor(s, i) && b.name == s.attempts[i].name
    requires t.attempts == s.attempts[i := b] + if schedules then [NewAttempt(b.name, false)] else []
    ensures HasSuccessor(t, i) <==> schedules
  {
    if schedules {
      assert t.attempts[|s.attempts|].name == t.attempts[i].name;
    } else {
      forall k | i < k < |t.attempts| ensures t.attempts[k].name != t.attempts[i].name {
        assert t.attempts[k].name == s.attempts[k].name;
      }
    }
  }

  /** A step of anyone else: whoever appends an attempt of the same service is a later attempt already. */
  lemma OtherTracks(s: State, t: State, i: nat, j: nat, b: Attempt, appended: seq<Attempt>, decided: bool)
    requires Lineage(s) && Tracked(s, i, decided) && i != j && j < |s.attempts| && b.name == s.attempts[j].name
    requires t.attempts == s.attempts[j := b] + appended
    requires appended != [] ==> appended == [NewAttempt(b.name, false)] && !s.attempts[j].phase.Returned?
    ensures Tracked(t, i, decided)
  {
    if i < |s.attempts| {
      SameSuccessor(s, t, i, j, b, appended);
    } else if i < |t.attempts| {
      assert t.attempts[i] == appended[i - |s.attempts|];
    }
  }

  lemma SameSuccessor(s: State, t: State, i: nat, j: nat, b: Attempt, appended: seq<Attempt>)
    requires Lineage(s) && i < |s.attempts| && i != j && j < |s.attempts| && b.name == s.attempts[j].name
    requires t.attempts == s.attempts[j := b] + appended
    requires appended != [] ==> appended == [NewAttempt(b.name, false)] && !s.attempts[j].phase.Returned?
    ensures HasSuccessor(t, i) <==> HasSuccessor(s, i)
  {
    if k :| i < k < |s.attempts| && s.attempts[k].name == s.attempts[i].name {
      assert t.attempts[k].name == t.attempts[i].name;
    }
    if k :| i < k < |t.attempts| && t.attempts[k].name == t.attempts[i].name {
      if k < |s.attempts| {
        assert s.attempts[k].name == s.attempts[i].name;
      } else {
        assert s.attempts[j].name == s.attempts[i].name && i < j;
      }
    }
  }

  lemma PhaseTracks(s: State, t: State, i: nat, decided: bool)
    requires Tracked(s, i, decided) && |t.attempts| == |s.attempts|
    requires forall k :: 0 <= k < |s.attempts| ==>
               t.attempts[k].name == s.attempts[k].name && t.attempts[k].phase == s.attempts[k].phase
    ensures Tracked(t, i, decided)
  {
    if i < |s.attempts| {
      if k :| i < k < |s.attempts| && s.attempts[k].name == s.attempts[i].name {
        assert t.attempts[k].name == t.attempts[i].name;
      }
      if k :| i < k < |t.attempts| && t.attempts[k].name == t.attempts[i].name {
        assert s.attempts[k].name == s.attempts[i].name;
      }
    }
  }

  lemma StartTracks(s: State, t: State, n: Name, i: nat, decided: bool)
    requires Tracked(s, i, decided) && NoAttempts(s, n) && t.attempts == s.attempts + [NewAttempt(n, true)]
    ensures Tracked(t, i, decided)
  {
    if i < |s.attempts| {
      if k :| i < k < |s.attempts| && s.attempts[k].name == s.attempts[i].name {
        assert t.attempts[k].name == t.attempts[i].name;
      }
      if k :| i < k < |t.attempts| && t.attempts[k].name == t.attempts[i].name {
        assert k < |s.attempts| && s.attempts[k].name == s.attempts[i].name;
      }
    }
  }

  lemma AttemptTracks(cfg: Services, s: State, t: State, j: nat, ev: AttemptEvent, i: nat, decided: bool)
    requires Inv(cfg, s) && AttemptEnabled(cfg, s, j, ev) && t == AttemptApply(cfg, s, j, ev) && Tracked(s, i, decided)
    ensures Tracked(t, i, decided || DecidesRestart(cfg, s, AttemptStep(j, ev), i))
  {
    hide Inv, Tracked;
    InvLineage(cfg, s);
    if i == j {
      OwnStepTracks(cfg, s, t, i, ev, decided);
    } else {
      var a := s.attempts[j];
      AttemptEffect(cfg, s, j, ev);
      OtherTracks(s, t, i, j, AttemptNext(cfg[a.name], s.down.cancelled, s.restarts.Of(a.name), a, ev),
                  if Schedules(a.phase) then [NewAttempt(a.name, false)] else [], decided);
    }
  }

  lemma MainTracks(cfg: Services, s: State, t: State, n: Name, ev: MainEvent, i: nat, decided: bool)
    requires MainOk(cfg, s, n) && MainEnabled(cfg, s, n, ev) && t == MainApply(cfg, s, n, ev) && Tracked(s, i, decided)
    ensures Tracked(t, i, decided)
  {
    if t.attempts == s.attempts {
      PhaseTracks(s, t, i, decided);
    } else {
      StartTracks(s, t, n, i, decided);
    }
  }

  lemma StepTracks(cfg: Services, s: State, t: State, step: Step, i: nat, decided: bool)
    requires Inv(cfg, s) && Enabled(cfg, s, step) && t == Apply(cfg, s, step) && Tracked(s, i, decided)
    ensures Tracked(t, i, decided || DecidesRestart(cfg, s, step, i))
  {
    hide Tracked, Inv;
    match step {
      case AttemptStep(j, ev) => AttemptTracks(cfg, s, t, j, ev, i, decided);
      case MainStep(n, ev) =>
        InvMain(cfg, s, n);
        MainTracks(cfg, s, t, n, ev, i, decided);
      case HealthStep(_, _) => PhaseTracks(s, t, i, decided);
      case OperatorRestart(_) => PhaseTracks(s, t, i, decided);
      case SignalStep => PhaseTracks(s, t, i, decided);
      case OnceStep(_) => PhaseTracks(s, t, i, decided);
    }
  }

  lemma {:induction false} RunTracks(cfg: Services, s: State, steps: seq<Step>, i: nat, decided: bool)
    requires Inv(cfg, s) && Runs(cfg, s, steps) && Tracked(s, i, decided)
    ensures Tracked(Exec(cfg, s, steps), i, decided || RestartDecided(cfg, s, steps, i))
    decreases |steps|
  {
    if steps != [] {
      var t := Apply(cfg, s, steps[0]);
      StepKeepsInv(cfg, s, steps[0]);
      StepTracks(cfg, s, t, steps[0], i, decided);
      RunTracks(cfg, t, steps[1..], i, decided || DecidesRestart(cfg, s, steps[0], i));
    }
  }

  /**
   A finished attempt is followed by a restart exactly when the intent that `finishService` read was
   the operator's, or `handleServiceExit` decided for a restart from the exit and the count it read. An
   attempt that started no process is never followed by one.
   */
  lemma SuccessorExactly(cfg: Services, steps: seq<Step>, i: nat)
    requires Runs(cfg, Init(cfg), steps)
    ensures var t := Exec(cfg, Init(cfg), steps);
            i < |t.attempts| && t.attempts[i].phase.Returned? ==>
              (HasSuccessor(t, i) <==>
                 t.attempts[i].phase.outcome.Ended?
                 && (t.attempts[i].phase.outcome.exit.intent.OperatorIntent?
                     || RestartDecided(cfg, Init(cfg), steps, i)))
  {
    InitInv(cfg);
    RunTracks(cfg, Init(cfg), steps, i, false);
  }

  /** The operator's request is in time: `finishService` has not read the intent. */
  predicate InTime(s: State, i: nat) { i < |s.attempts| && BeforeRead(s.attempts[i].phase) }

  /**
   An operator request accepted in time is answered, once the attempt has returned, by an armed
   restart, and only a shutdown can keep that restart from being tried.
   */
  lemma OperatorRestartHappens(cfg: Services, s: State, t: State, i: nat)
    requires Reachable(cfg, s) && OperatorEnabled(cfg, s, i) && InTime(s, i)
    requires Leads(cfg, Apply(cfg, s, OperatorRestart(i)), t)
    requires i < |t.attempts| && t.attempts[i].phase.Returned?
    ensures exists k :: i < k < |t.attempts| && t.attempts[k].name == s.attempts[i].name && !t.attempts[k].first
                        && (t.attempts[k].phase == Returned(Skipped) ==> t.down.cancelled)
  {
    var s1 := Apply(cfg, s, OperatorRestart(i));
    LeadsByStep(cfg, s, OperatorRestart(i));
    LeadsOn(cfg, Init(cfg), s, s1);
    LeadsOn(cfg, Init(cfg), s1, t);
    WinningRequest(cfg, s1, t, i);
    LeadsForward(cfg, s1, t);
    assert Forward(s1.attempts[i], t.attempts[i]);
    var steps :| Runs(cfg, Init(cfg), steps) && Exec(cfg, Init(cfg), steps) == t;
    SuccessorExactly(cfg, steps, i);
    var k :| i < k < |t.attempts| && t.attempts[k].name == t.attempts[i].name;
    ReachableAttempt(cfg, t, k);
    LaterIsRestart(cfg, t, i, k);
  }

  lemma LaterIsRestart(cfg: Services, t: State, i: nat, k: nat)
    requires Reachable(cfg, t) && i < k < |t.attempts| && t.attempts[k].name == t.attempts[i].name
    ensures !t.attempts[k].first
  {
    ReachableInv(cfg, t);
  }
}
