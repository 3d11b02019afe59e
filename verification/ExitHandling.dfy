/** How an attempt ended, who restarts it, and what becomes of an unhealthy one, over whole runs. */
module ExitHandling {
  import opened Config
  import opened Supervisor
  import opened Invariant
  import opened Lifecycle
  import opened Succession

  // ----- the restart policy -----

  /** The policy asks for a restart after an exit that nobody else requested. */
  predicate Wants(svc: Service, e: Exit) {
    svc.restart.Always? || (svc.restart.OnFailure? && (e.failed || e.intent.PolicyIntent?))
  }

  predicate AtCap(svc: Service, count: int) { 0 < svc.maxRestarts <= count }

  /** What is known about the exit of an attempt with this phase, from the decision on. */
  predicate Decided(svc: Service, count: int, succeeded: bool, p: Phase) {
    match p
    case Post(Count, e) => Wants(svc, e)
    case Post(Schedule, e) => e.intent.OperatorIntent? || (Unasked(e) && Wants(svc, e))
    case Post(Trigger, e) => if Wants(svc, e) then AtCap(svc, count) else ExitErr(e)
    case Post(InOnce, e) => if Wants(svc, e) then AtCap(svc, count) else ExitErr(e)
    case Returned(Ended(e)) =>
      && (e.intent.ShutdownIntent? ==> !succeeded)
      && (e.intent.OperatorIntent? ==> succeeded)
      && (Unasked(e) ==> if succeeded then Wants(svc, e) else Wants(svc, e) ==> AtCap(svc, count))
    case _ => true
  }

  ghost predicate DecidedAt(cfg: Services, s: State, i: nat) {
    i < |s.attempts| ==>
      var a := s.attempts[i];
      a.name in cfg && Decided(cfg[a.name], s.restarts.Of(a.name), HasSuccessor(s, i), a.phase)
  }

  predicate Recounts(p: Phase) { p.Post? && (p.post.Reset? || p.post.Count?) }

  lemma PostDecided(svc: Service, count: int, count': int, a: Attempt, p: PostPhase, e: Exit)
    requires PostOk(svc, a, p, e) && Decided(svc, count, false, Post(p, e))
    requires Recounts(Post(p, e)) || count' == count
    ensures Decided(svc, count', p.Schedule?, PostNext(svc, count, p, e))
  {
  }

  lemma NextDecided(svc: Service, cancelled: bool, count: int, count': int, a: Attempt, ev: AttemptEvent)
    requires AttemptOk(svc, cancelled, a) && !a.phase.Returned? && Decided(svc, count, false, a.phase)
    requires Recounts(a.phase) || count' == count
    ensures Decided(svc, count', Schedules(a.phase), AttemptNext(svc, cancelled, count, a, ev).phase)
  {
    hide IntentOk, LiveOk, PostOk, Untouched, ExitOk, ExitDecision, Wants, AtCap;
    match a.phase {
      case Pre(_) =>
      case Register =>
      case Live(_) =>
      case Post(p, e) => PostDecided(svc, count, count', a, p, e);
    }
  }

  lemma SameCount(cfg: Services, s: State, i: nat, ev: AttemptEvent, n: Name)
    requires AttemptEnabled(cfg, s, i, ev)
    requires n != s.attempts[i].name || !Recounts(s.attempts[i].phase)
    ensures AttemptApply(cfg, s, i, ev).restarts.Of(n) == s.restarts.Of(n)
  {
  }

  lemma OwnDecided(cfg: Services, s: State, t: State, i: nat, ev: AttemptEvent)
    requires Inv(cfg, s) && AttemptEnabled(cfg, s, i, ev) && t == AttemptApply(cfg, s, i, ev) && DecidedAt(cfg, s, i)
    ensures DecidedAt(cfg, t, i)
  {
    hide Lineage, HasSuccessor, Decided, AttemptOk;
    var a := s.attempts[i];
    var svc, count := cfg[a.name], s.restarts.Of(a.name);
    NewestHasNone(s, i);
    AttemptEffect(cfg, s, i, ev);
    var b := AttemptNext(svc, s.down.cancelled, count, a, ev);
    if !Recounts(a.phase) {
      SameCount(cfg, s, i, ev, a.name);
    }
    NextDecided(svc, s.down.cancelled, count, t.restarts.Of(a.name), a, ev);
    OwnSuccessor(s, t, i, b, Schedules(a.phase));
  }

  lemma OtherName(s: State, i: nat, j: nat)
    requires Lineage(s) && i < |s.attempts| && j < |s.attempts| && i != j
    requires !s.attempts[j].phase.Returned? && !HasSuccessor(s, i)
    ensures s.attempts[j].name != s.attempts[i].name
  {
  }

  lemma SucceededAnyCount(svc: Service, count: int, count': int, p: Phase)
    requires Decided(svc, count, true, p) && p.Returned?
    ensures Decided(svc, count', true, p)
  {
  }

  lemma OtherDecided(cfg: Services, s: State, t: State, i: nat, j: nat, ev: AttemptEvent)
    requires Inv(cfg, s) && AttemptEnabled(cfg, s, j, ev) && t == AttemptApply(cfg, s, j, ev) && i != j
    requires DecidedAt(cfg, s, i)
    ensures DecidedAt(cfg, t, i)
  {
    hide Inv, Lineage, HasSuccessor, Decided;
    InvLineage(cfg, s);
    var b := s.attempts[j];
    var next := AttemptNext(cfg[b.name], s.down.cancelled, s.restarts.Of(b.name), b, ev);
    AttemptEffect(cfg, s, j, ev);
    if i < |s.attempts| {
      var a := s.attempts[i];
      SameSuccessor(s, t, i, j, next, if Schedules(b.phase) then [NewAttempt(b.name, false)] else []);
      if HasSuccessor(s, i) {
        SuccessorReturned(s, i);
        SucceededAnyCount(cfg[a.name], s.restarts.Of(a.name), t.restarts.Of(a.name), a.phase);
      } else {
        OtherName(s, i, j);
        SameCount(cfg, s, j, ev, a.name);
      }
    } else if i < |t.attempts| {
      NewDecided(cfg, t, i, b.name, false);
    }
  }

  lemma SuccessorReturned(s: State, i: nat)
    requires Lineage(s) && HasSuccessor(s, i)
    ensures s.attempts[i].phase.Returned?
  {
  }

  lemma NewDecided(cfg: Services, t: State, i: nat, n: Name, first: bool)
    requires i < |t.attempts| && t.attempts[i] == NewAttempt(n, first) && n in cfg
    ensures DecidedAt(cfg, t, i)
  {
  }

  /** A step that leaves names, phases and counters alone, or starts a service for the first time. */
  lemma SameDecided(cfg: Services, s: State, t: State, i: nat)
    requires DecidedAt(cfg, s, i) && |t.attempts| == |s.attempts| && t.restarts == s.restarts
    requires forall k :: 0 <= k < |s.attempts| ==>
               t.attempts[k].name == s.attempts[k].name && t.attempts[k].phase == s.attempts[k].phase
    ensures DecidedAt(cfg, t, i)
  {
    hide Decided;
    if i < |s.attempts| {
      if k :| i < k < |s.attempts| && s.attempts[k].name == s.attempts[i].name {
        assert t.attempts[k].name == t.attempts[i].name;
      }
      if k :| i < k < |t.attempts| && t.attempts[k].name == t.attempts[i].name {
        assert s.attempts[k].name == s.attempts[i].name;
      }
    }
  }

  lemma StartDecided(cfg: Services, s: State, t: State, n: Name, i: nat)
    requires DecidedAt(cfg, s, i) && NoAttempts(s, n) && t.attempts == s.attempts + [NewAttempt(n, true)] && n in cfg
    requires t.restarts == s.restarts
    ensures DecidedAt(cfg, t, i)
  {
    hide Decided;
    if i < |s.attempts| {
      if k :| i < k < |s.attempts| && s.attempts[k].name == s.attempts[i].name {
        assert t.attempts[k].name == t.attempts[i].name;
      }
      if k :| i < k < |t.attempts| && t.attempts[k].name == t.attempts[i].name {
        assert k < |s.attempts| && s.attempts[k].name == s.attempts[i].name;
      }
    } else if i < |t.attempts| {
      NewDecided(cfg, t, i, n, true);
    }
  }

  lemma MainDecided(cfg: Services, s: State, t: State, n: Name, ev: MainEvent, i: nat)
    requires MainOk(cfg, s, n) && MainEnabled(cfg, s, n, ev) && t == MainApply(cfg, s, n, ev) && DecidedAt(cfg, s, i)
    ensures DecidedAt(cfg, t, i)
  {
    hide DecidedAt;
    if t.attempts == s.attempts {
      SameDecided(cfg, s, t, i);
    } else {
      StartDecided(cfg, s, t, n, i);
    }
  }

  lemma StepDecided(cfg: Services, s: State, t: State, step: Step, i: nat)
    requires Inv(cfg, s) && Enabled(cfg, s, step) && t == Apply(cfg, s, step) && DecidedAt(cfg, s, i)
    ensures DecidedAt(cfg, t, i)
  {
    hide Inv, DecidedAt;
    match step {
      case AttemptStep(j, ev) => if i == j { OwnDecided(cfg, s, t, i, ev); } else { OtherDecided(cfg, s, t, i, j, ev); }
      case MainStep(n, ev) =>
        InvMain(cfg, s, n);
        MainDecided(cfg, s, t, n, ev, i);
      case HealthStep(_, _) => SameDecided(cfg, s, t, i);
      case OperatorRestart(_) => SameDecided(cfg, s, t, i);
      case SignalStep => SameDecided(cfg, s, t, i);
      case OnceStep(_) => SameDecided(cfg, s, t, i);
    }
  }

  lemma {:induction false} RunDecided(cfg: Services, s: State, steps: seq<Step>, i: nat)
    requires Inv(cfg, s) && Runs(cfg, s, steps) && DecidedAt(cfg, s, i)
    ensures DecidedAt(cfg, Exec(cfg, s, steps), i)
    decreases |steps|
  {
    if steps != [] {
      StepKeepsInv(cfg, s, steps[0]);
      StepDecided(cfg, s, Apply(cfg, s, steps[0]), steps[0], i);
      RunDecided(cfg, Apply(cfg, s, steps[0]), steps[1..], i);
    }
  }

  /**
   Which finished attempts are followed by a restart, in every reachable state: after an operator request
   always, after a shutdown request never. Otherwise only if the policy is `always`, or it is `on-failure`
   and the exit failed or was forced by the health monitor; and then unless the service has a limit and
   its restart counter has reached it.
   */
  lemma RestartExactly(cfg: Services, s: State, i: nat)
    requires Reachable(cfg, s) && i < |s.attempts| && s.attempts[i].phase.Returned?
    requires s.attempts[i].phase.outcome.Ended?
    ensures s.attempts[i].name in cfg
    ensures var svc, e := cfg[s.attempts[i].name], s.attempts[i].phase.outcome.exit;
            var count := s.restarts.Of(s.attempts[i].name);
            match e.intent
            case OperatorIntent => HasSuccessor(s, i)
            case ShutdownIntent => !HasSuccessor(s, i)
            case _ =>
              && (svc.restart.Unset? || svc.restart.Never? || svc.restart.Unknown? ==> !HasSuccessor(s, i))
              && (svc.restart.OnFailure? && e == Exit(NoIntent, false) ==> !HasSuccessor(s, i))
              && (svc.restart.OnFailure? && e != Exit(NoIntent, false) && !HasSuccessor(s, i) ==>
                    0 < svc.maxRestarts <= count)
              && (svc.restart.Always? && !HasSuccessor(s, i) ==> 0 < svc.maxRestarts <= count)
  {
    hide HasSuccessor;
    InitInv(cfg);
    var steps :| Runs(cfg, Init(cfg), steps) && Exec(cfg, Init(cfg), steps) == s;
    RunDecided(cfg, Init(cfg), steps, i);
  }

  /**
   An exit brings the supervisor down only for a required service and only for cause: the exit failed or was
   forced by the health monitor, or the policy is `always`; and if the policy asks for a restart, the service
   has a limit and its restart counter has reached it.
   */
  lemma FailureForCause(cfg: Services, s: State, i: nat, e: Exit)
    requires Reachable(cfg, s) && i < |s.attempts| && s.attempts[i].phase == Post(Trigger, e)
    ensures s.attempts[i].name in cfg
    ensures var svc := cfg[s.attempts[i].name];
            var failure := e.failed || e.intent.PolicyIntent?;
            && svc.required && !e.intent.OperatorIntent? && !e.intent.ShutdownIntent?
            && (failure || svc.restart.Always?)
            && (svc.restart.Always? || (svc.restart.OnFailure? && failure) ==>
                  0 < svc.maxRestarts <= s.restarts.Of(s.attempts[i].name))
  {
    hide HasSuccessor;
    ReachableAttempt(cfg, s, i);
    InitInv(cfg);
    var steps :| Runs(cfg, Init(cfg), steps) && Exec(cfg, Init(cfg), steps) == s;
    RunDecided(cfg, Init(cfg), steps, i);
  }

  // ----- the exit status -----

  /** The process has ended, with this status, and `finishService` has it or has acted on it. */
  predicate EndedWith(p: Phase, failed: bool) {
    p == Live(Finish(failed)) || (ExitRead(p).Some? && ExitRead(p).value.failed == failed)
  }

  ghost predicate EndedAt(s: State, i: nat, failed: bool) {
    i < |s.attempts| && EndedWith(s.attempts[i].phase, failed)
  }

  lemma NextEnded(svc: Service, cancelled: bool, count: int, a: Attempt, ev: AttemptEvent, failed: bool)
    requires EndedWith(a.phase, failed)
    ensures EndedWith(AttemptNext(svc, cancelled, count, a, ev).phase, failed)
  {
  }

  lemma AttemptEnded(cfg: Services, s: State, t: State, j: nat, ev: AttemptEvent, i: nat, failed: bool)
    requires Inv(cfg, s) && AttemptEnabled(cfg, s, j, ev) && t == AttemptApply(cfg, s, j, ev) && EndedAt(s, i, failed)
    ensures EndedAt(t, i, failed)
  {
    hide Inv, EndedWith;
    var a := s.attempts[j];
    AttemptEffect(cfg, s, j, ev);
    if i == j {
      NextEnded(cfg[a.name], s.down.cancelled, s.restarts.Of(a.name), a, ev, failed);
    }
  }

  lemma StepEnded(cfg: Services, s: State, t: State, step: Step, i: nat, failed: bool)
    requires Inv(cfg, s) && Enabled(cfg, s, step) && t == Apply(cfg, s, step) && EndedAt(s, i, failed)
    ensures EndedAt(t, i, failed)
  {
    hide Inv, EndedWith;
    match step {
      case AttemptStep(j, ev) => AttemptEnded(cfg, s, t, j, ev, i, failed);
      case MainStep(n, ev) => MainGrows(cfg, s, n, ev);
      case _ =>
    }
  }

  lemma {:induction false} RunEnded(cfg: Services, s: State, steps: seq<Step>, i: nat, failed: bool)
    requires Inv(cfg, s) && Runs(cfg, s, steps) && EndedAt(s, i, failed)
    ensures EndedAt(Exec(cfg, s, steps), i, failed)
    decreases |steps|
  {
    if steps != [] {
      StepKeepsInv(cfg, s, steps[0]);
      StepEnded(cfg, s, Apply(cfg, s, steps[0]), steps[0], i, failed);
      RunEnded(cfg, Apply(cfg, s, steps[0]), steps[1..], i, failed);
    }
  }

  lemma ExitEnds(cfg: Services, s: State, i: nat, failed: bool)
    requires AttemptEnabled(cfg, s, i, ProcessExit(failed))
    ensures EndedAt(AttemptApply(cfg, s, i, ProcessExit(failed)), i, failed)
    ensures var b := AttemptApply(cfg, s, i, ProcessExit(failed)).attempts[i];
            BeforeRead(b.phase) && b.intent == s.attempts[i].intent
  {
  }

  lemma EndedResult(cfg: Services, t: State, i: nat, failed: bool)
    requires Reachable(cfg, t) && EndedAt(t, i, failed)
    ensures var a := t.attempts[i];
            a.phase.Returned? ==>
              && a.phase.outcome.Ended? && a.phase.outcome.exit.failed == failed
              && a.phase.outcome.exit.intent in {NoIntent, a.intent}
  {
    ReachableAttempt(cfg, t, i);
  }

  /**
   Whatever else goes on, the attempt whose process ended with a status returns with that status, and with
   the intent that is written in it when it gets there, if any was read.
   */
  lemma ExitStatusKept(cfg: Services, s: State, t: State, i: nat, failed: bool)
    requires Reachable(cfg, s) && AttemptEnabled(cfg, s, i, ProcessExit(failed))
    requires Leads(cfg, AttemptApply(cfg, s, i, ProcessExit(failed)), t)
    ensures i < |t.attempts|
    ensures var a := t.attempts[i];
            a.phase.Returned? ==>
              && a.phase.outcome.Ended? && a.phase.outcome.exit.failed == failed
              && a.phase.outcome.exit.intent in {NoIntent, a.intent}
              && (!s.attempts[i].intent.NoIntent? ==> a.phase.outcome.exit.intent == s.attempts[i].intent)
  {
    hide EndedWith;
    var step := AttemptStep(i, ProcessExit(failed));
    ExitEnds(cfg, s, i, failed);
    var s1 := Apply(cfg, s, step);
    LeadsByStep(cfg, s, step);
    LeadsOn(cfg, Init(cfg), s, s1);
    LeadsOn(cfg, Init(cfg), s1, t);
    ReachableInv(cfg, s1);
    var steps :| Runs(cfg, s1, steps) && Exec(cfg, s1, steps) == t;
    RunEnded(cfg, s1, steps, i, failed);
    EndedResult(cfg, t, i, failed);
    if !s.attempts[i].intent.NoIntent? {
      WinningRequest(cfg, s1, t, i);
    }
  }
}
