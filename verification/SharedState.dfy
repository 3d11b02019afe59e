/**
 The mutable objects behind the step machine: each operation is the atomic update that the steps of
 module Supervisor apply to their value of the same object.
 */
module SharedState {
  import opened Config
  import opened Supervisor

  // ----- dependencyTracker -----

  datatype Kind = ReadyKind | FailedKind {
    function Text(): string { if ReadyKind? then "ready" else "failed" }
  }

  /** A channel that is only ever closed, with the mark it stands for. Closing it twice is a run-time panic. */
  class Channel {
    ghost const kind: Kind
    ghost const name: Name
    var closed: bool

    constructor (ghost kind: Kind, ghost name: Name)
      ensures !closed && this.kind == kind && this.name == name
    {
      this.kind, this.name, closed := kind, name, false;
    }

    method Close()
      requires !closed
      modifies this
      ensures closed
    {
      closed := true;
    }
  }

  function Key(kind: Kind, n: Name): string { kind.Text() + ":" + n }

  /** The keys of different marks never collide, whatever the names contain. */
  lemma KeyInjective(k: Kind, n: Name, l: Kind, m: Name)
    requires Key(k, n) == Key(l, m)
    ensures k == l && n == m
  {
    assert Key(k, n)[0] == Key(l, m)[0];
    if k.ReadyKind? {
      assert n == Key(k, n)[6..] && m == Key(l, m)[6..];
    } else {
      assert n == Key(k, n)[7..] && m == Key(l, m)[7..];
    }
  }

  predicate MarkedIn(closed: map<string, bool>, kind: Kind, n: Name) {
    Key(kind, n) in closed && closed[Key(kind, n)]
  }

  lemma MarkedAfter(closed: map<string, bool>, kind: Kind, n: Name)
    ensures forall l, m :: MarkedIn(closed[Key(kind, n) := true], l, m) <==>
                           MarkedIn(closed, l, m) || (l == kind && m == n)
  {
    forall l, m
      ensures MarkedIn(closed[Key(kind, n) := true], l, m) <==> MarkedIn(closed, l, m) || (l == kind && m == n)
    {
      if Key(l, m) == Key(kind, n) { KeyInjective(l, m, kind, n); }
    }
  }

  /** One of the two channel maps of the tracker. */
  class ChannelStore {
    const kind: Kind
    var channels: map<Name, Channel>

    constructor (kind: Kind)
      ensures this.kind == kind && channels == map[]
    {
      this.kind, channels := kind, map[];
    }

    /** Exactly the marked names have a closed channel. */
    ghost predicate Valid(closed: map<string, bool>)
      reads this, channels.Values
    {
      && (forall n :: n in channels ==> channels[n].kind == kind && channels[n].name == n
                                        && (channels[n].closed <==> MarkedIn(closed, kind, n)))
      && (forall n :: MarkedIn(closed, kind, n) ==> n in channels)
    }

    ghost function Closed(): set<Name>
      reads this, channels.Values
    {
      set n | n in channels && channels[n].closed
    }

    /** `channel`: the channel of a name, created open on first use. */
    method ChannelOf(n: Name, ghost closed: map<string, bool>) returns (c: Channel)
      requires Valid(closed)
      modifies this
      ensures Valid(closed) && Closed() == old(Closed())
      ensures n in channels && channels[n] == c && (c.closed <==> MarkedIn(closed, kind, n))
      ensures c in old(channels.Values) || fresh(c)
      ensures channels.Values <= old(channels.Values) + {c}
    {
      if n in channels {
        c := channels[n];
      } else {
        c := new Channel(kind, n);
        channels := channels[n := c];
      }
    }

    /** `close(d.channel(store, name))` for a name whose key is being set. */
    method CloseChannel(n: Name, ghost closed: map<string, bool>)
      requires Valid(closed) && !MarkedIn(closed, kind, n)
      modifies this, channels.Values
      ensures Valid(closed[Key(kind, n) := true]) && Closed() == old(Closed()) + {n}
    {
      hide Key;
      var c := ChannelOf(n, closed);
      c.Close();
      MarkedAfter(closed, kind, n);
    }
  }

  lemma StoresAreDisjoint(a: ChannelStore, b: ChannelStore, closed: map<string, bool>)
    requires a.Valid(closed) && b.Valid(closed) && a.kind != b.kind
    ensures a.channels.Values !! b.channels.Values
  {
  }

  lemma MarkedIsClosed(store: ChannelStore, closed: map<string, bool>, n: Name)
    requires store.Valid(closed) && MarkedIn(closed, store.kind, n)
    ensures store.Closed() == store.Closed() + {n}
  {
  }

  lemma OtherStillValid(store: ChannelStore, closed: map<string, bool>, n: Name)
    requires store.Valid(closed)
    ensures store.Valid(closed[Key(if store.kind.ReadyKind? then FailedKind else ReadyKind, n) := true])
  {
    MarkedAfter(closed, if store.kind.ReadyKind? then FailedKind else ReadyKind, n);
  }

  class DependencyTracker {
    const ready: ChannelStore
    const failed: ChannelStore
    var closed: map<string, bool>

    ghost predicate Valid()
      reads this, ready, failed, ready.channels.Values, failed.channels.Values
    {
      ready.kind.ReadyKind? && failed.kind.FailedKind? && ready.Valid(closed) && failed.Valid(closed)
    }

    /** The marks as the step machine sees them: the names whose channel is closed. */
    ghost function View(): Tracker
      reads this, ready, failed, ready.channels.Values, failed.channels.Values
    {
      Tracker(ready.Closed(), failed.Closed())
    }

    constructor ()
      ensures Valid() && View() == Tracker({}, {})
    {
      ready := new ChannelStore(ReadyKind);
      failed := new ChannelStore(FailedKind);
      closed := map[];
    }

    /** `mark`: closes the channel once; a repeated mark changes nothing, so `close` never panics. */
    method Mark(store: ChannelStore, n: Name)
      requires Valid() && (store == ready || store == failed)
      modifies this, store, store.channels.Values
      ensures Valid()
      ensures View() == if store.kind.ReadyKind? then old(View()).MarkReady(n) else old(View()).MarkFailed(n)
    {
      hide Key, MarkedIn;
      if MarkedIn(closed, store.kind, n) {
        MarkedIsClosed(store, closed, n);
        return;
      }
      ghost var other := if store == ready then failed else ready;
      CloseIn(store, other, n);
    }

    /** The part of `mark` after its check: closes the channel in one store and leaves the other alone. */
    method CloseIn(store: ChannelStore, ghost other: ChannelStore, n: Name)
      requires Valid() && (store == ready || store == failed) && !MarkedIn(closed, store.kind, n)
      requires other == if store == ready then failed else ready
      modifies this, store, store.channels.Values
      ensures Valid() && store.Closed() == old(store.Closed()) + {n} && other.Closed() == old(other.Closed())
    {
      hide Key, MarkedIn, ChannelStore.Valid, ChannelStore.Closed;
      StoresAreDisjoint(store, other, closed);
      store.CloseChannel(n, closed);
      assert other.Valid(closed) && other.Closed() == old(other.Closed());
      OtherStillValid(other, closed, n);
      closed := closed[Key(store.kind, n) := true];
    }

    /** `IsReady` and `IsFailed`: a non-blocking receive succeeds exactly on a closed channel. */
    method IsClosed(store: ChannelStore, n: Name) returns (r: bool)
      requires Valid() && (store == ready || store == failed)
      modifies store
      ensures Valid() && View() == old(View())
      ensures r <==> n in if store.kind.ReadyKind? then View().ready else View().failed
    {
      var c := store.ChannelOf(n, closed);
      r := c.closed;
    }
  }

  // ----- ServiceProcess -----

  class ServiceProcess {
    const id: nat
    const name: Name
    var state: ServiceState
    var lastError: bool
    var intent: Intent
    var contextDone: bool

    constructor (id: nat, name: Name)
      ensures this.id == id && this.name == name
      ensures state == Pending && !lastError && intent == NoIntent && !contextDone
    {
      this.id, this.name, state, lastError, intent, contextDone := id, name, Pending, false, NoIntent, false;
    }

    method SetState(s: ServiceState)
      modifies this`state
      ensures state == s
    {
      state := s;
    }

    method SetError(err: bool)
      modifies this`state, this`lastError
      ensures lastError == err
      ensures state == if err then Failed else old(state)
    {
      lastError := err;
      if err { state := Failed; }
    }

    /** Only the first request is accepted; it alone cancels the service context. */
    method RequestStop(wanted: Intent) returns (accepted: bool)
      requires !wanted.NoIntent?
      modifies this`intent, this`contextDone
      ensures accepted <==> old(intent).NoIntent?
      ensures intent == CasIntent(old(intent), wanted)
      ensures contextDone == (accepted || old(contextDone))
    {
      if !intent.NoIntent? { return false; }
      intent := wanted;
      contextDone := true;
      return true;
    }
  }

  // ----- activeServices, shutdownWg, restartCounts and the timers they lead to -----

  class Supervision {
    var active: map<Name, ServiceProcess>
    var wg: int
    var restartCounts: map<Name, int>
    var scheduled: seq<(Name, int)>  // restart timers armed so far, with their delay in seconds
    var exitCode: int
    var shutdownRequests: nat        // calls of gracefulShutdown

    constructor ()
      ensures active == map[] && wg == 0 && restartCounts == map[] && scheduled == [] && exitCode == 0
      ensures shutdownRequests == 0
    {
      active, wg, restartCounts, scheduled, exitCode, shutdownRequests := map[], 0, map[], [], 0, 0;
    }

    /** The registry as the step machine sees it. */
    function View(): Registry
      reads this, active.Values
    {
      Registry(map n | n in active :: active[n].id, wg)
    }

    method AddActiveService(n: Name, p: ServiceProcess)
      modifies this`active, this`wg, p`state
      ensures View() == old(View()).Add(n, p.id) && p.state == Starting
      ensures active == old(active)[n := p]
    {
      p.SetState(Starting);
      active := active[n := p];
      wg := wg + 1;
    }

    method RemoveActiveService(n: Name)
      modifies this`active, this`wg, active.Values`state
      ensures View() == old(View()).Drop(n)
      ensures active == old(active) - {n}
      ensures n in old(active) ==> old(active)[n].state == Stopped
      ensures forall p :: p in old(active.Values) && !(n in old(active) && p == old(active)[n]) ==>
                p.state == old(p.state)
    {
      if n in active {
        active[n].SetState(Stopped);
        active := active - {n};
        wg := wg - 1;
      }
    }

    // ----- restart.go -----

    method RestartCount(n: Name) returns (c: int)
      ensures c == Restarts(restartCounts, map[]).Of(n)
    {
      c := if n in restartCounts then restartCounts[n] else 0;
    }

    method IncrementRestartCount(n: Name) returns (c: int)
      modifies this`restartCounts
      ensures restartCounts == Restarts(old(restartCounts), map[]).Increment(n).counts
      ensures c == restartCounts[n]
    {
      restartCounts := restartCounts[n := (if n in restartCounts then restartCounts[n] else 0) + 1];
      c := restartCounts[n];
    }

    method ResetRestartCount(n: Name)
      modifies this`restartCounts
      ensures restartCounts == Restarts(old(restartCounts), map[]).Reset(n).counts
    {
      restartCounts := restartCounts - {n};
    }

    method ScheduleRestart(n: Name, delaySeconds: int)
      modifies this`scheduled
      ensures scheduled == old(scheduled) + [(n, if delaySeconds < 0 then 0 else delaySeconds)]
    {
      scheduled := scheduled + [(n, if delaySeconds < 0 then 0 else delaySeconds)];
    }

    method TriggerServiceFailureShutdown()
      modifies this`exitCode, this`shutdownRequests
      ensures exitCode == (if old(exitCode) == 0 then 1 else old(exitCode))
      ensures shutdownRequests == old(shutdownRequests) + 1
    {
      if exitCode == 0 { exitCode := 1; }
      shutdownRequests := shutdownRequests + 1;
    }

    /** No restart is immediate, so a crashing service never spins. */
    predicate Paced()
      reads this`scheduled
    {
      forall k :: 0 <= k < |scheduled| ==> scheduled[k].1 >= 1
    }

    /** What one exit does to the counters, the timers and the exit code. */
    twostate predicate Acted(svc: Service, action: ExitAction)
      reads this
    {
      && restartCounts == (if action.Restart? then Restarts(old(restartCounts), map[]).Increment(svc.name).counts
                           else old(restartCounts))
      && scheduled == old(scheduled)
         + (if action.Restart? then [(svc.name, if svc.restartDelay <= 0 then 1 else svc.restartDelay)] else [])
      && exitCode == (if action.FailSupervisor? && old(exitCode) == 0 then 1 else old(exitCode))
      && shutdownRequests == old(shutdownRequests) + (if action.FailSupervisor? then 1 else 0)
    }

    method HandleServiceExit(svc: Service, exitErr: bool)
      modifies this`restartCounts, this`scheduled, this`exitCode, this`shutdownRequests
      ensures Acted(svc, ExitDecision(svc, Restarts(old(restartCounts), map[]).Of(svc.name), exitErr))
      ensures var wanted := svc.restart.Always? || (svc.restart.OnFailure? && exitErr);
              var count := if svc.name in old(restartCounts) then old(restartCounts)[svc.name] else 0;
              var capped := svc.maxRestarts > 0 && count >= svc.maxRestarts;
              && (if wanted && !capped then
                    && scheduled == old(scheduled) + [(svc.name, if svc.restartDelay > 0 then svc.restartDelay else 1)]
                    && restartCounts == old(restartCounts)[svc.name := count + 1]
                  else scheduled == old(scheduled) && restartCounts == old(restartCounts))
              && (if svc.required && (if wanted then capped else exitErr) then
                    && exitCode == (if old(exitCode) == 0 then 1 else old(exitCode))
                    && shutdownRequests == old(shutdownRequests) + 1
                  else exitCode == old(exitCode) && shutdownRequests == old(shutdownRequests))
      ensures old(Paced()) ==> Paced()
    {
      var shouldRestart := match svc.restart
                           case Always => true
                           case OnFailure => exitErr
                           case _ => false;
      if shouldRestart && svc.maxRestarts > 0 {
        var count := RestartCount(svc.name);
        if count >= svc.maxRestarts {
          if svc.required { TriggerServiceFailureShutdown(); }
          return;
        }
      }
      if shouldRestart {
        var attempt := IncrementRestartCount(svc.name);
        var delay := svc.restartDelay;
        if delay <= 0 { delay := 1; }
        ScheduleRestart(svc.name, delay);
        return;
      }
      if svc.required && exitErr {
        TriggerServiceFailureShutdown();
      }
    }

    /** `finishService`, run without interruption: what the caller gets back and what is left behind. */
    method FinishService(svc: Service, p: ServiceProcess, exitErr: bool) returns (err: bool)
      requires p.name == svc.name && p.name in active && active[p.name] == p
      modifies this, active.Values`state, p`lastError
      ensures err == Ended(Exit(p.intent, exitErr)).IsError()
      ensures err <==> p.intent.NoIntent? && exitErr
      ensures p.state == Stopped && p.lastError == (old(p.lastError) || (p.intent.NoIntent? && exitErr))
      ensures active == old(active) - {p.name} && wg == old(wg) - 1
      ensures old(Paced()) ==> Paced()
      ensures match p.intent
              case ShutdownIntent =>
                && restartCounts == old(restartCounts) && scheduled == old(scheduled)
                && exitCode == old(exitCode) && shutdownRequests == old(shutdownRequests)
              case OperatorIntent =>
                && restartCounts == old(restartCounts) - {svc.name}
                && scheduled == old(scheduled) + [(svc.name, 1)]
                && exitCode == old(exitCode) && shutdownRequests == old(shutdownRequests)
              case _ => Acted(svc, ExitDecision(svc, Restarts(old(restartCounts), map[]).Of(svc.name),
                                                ExitErr(Exit(p.intent, exitErr))))
      ensures p.intent.NoIntent? && !exitErr && !svc.restart.Always? ==>
                scheduled == old(scheduled) && exitCode == old(exitCode) && shutdownRequests == old(shutdownRequests)
      ensures p.intent.PolicyIntent? && (svc.restart.Always? || svc.restart.OnFailure?) && svc.maxRestarts == 0 ==>
                scheduled == old(scheduled) + [(svc.name, if svc.restartDelay > 0 then svc.restartDelay else 1)]
    {
      hide ExitDecision, ExitErr;
      var intent := p.intent;
      if intent.NoIntent? && exitErr {
        p.SetError(true);
      }
      RemoveActiveService(p.name);
      err := ActOn(svc, intent, exitErr);
    }

    /** The switch of `finishService` over the intent it has read. */
    method ActOn(svc: Service, intent: Intent, exitErr: bool) returns (err: bool)
      modifies this`restartCounts, this`scheduled, this`exitCode, this`shutdownRequests
      ensures err == Ended(Exit(intent, exitErr)).IsError()
      ensures intent.NoIntent? && !exitErr && !svc.restart.Always? ==>
                scheduled == old(scheduled) && exitCode == old(exitCode) && shutdownRequests == old(shutdownRequests)
      ensures intent.PolicyIntent? && (svc.restart.Always? || svc.restart.OnFailure?) && svc.maxRestarts == 0 ==>
                scheduled == old(scheduled) + [(svc.name, if svc.restartDelay > 0 then svc.restartDelay else 1)]
      ensures old(Paced()) ==> Paced()
      ensures match intent
              case ShutdownIntent =>
                && restartCounts == old(restartCounts) && scheduled == old(scheduled)
                && exitCode == old(exitCode) && shutdownRequests == old(shutdownRequests)
              case OperatorIntent =>
                && restartCounts == old(restartCounts) - {svc.name}
                && scheduled == old(scheduled) + [(svc.name, 1)]
                && exitCode == old(exitCode) && shutdownRequests == old(shutdownRequests)
              case _ => Acted(svc, ExitDecision(svc, Restarts(old(restartCounts), map[]).Of(svc.name),
                                                ExitErr(Exit(intent, exitErr))))
    {
      match intent {
        case ShutdownIntent => err := false;
        case OperatorIntent =>
          ResetRestartCount(svc.name);
          ScheduleRestart(svc.name, 1);
          err := false;
        case PolicyIntent =>
          HandleServiceExit(svc, true);
          err := false;
        case NoIntent =>
          HandleServiceExit(svc, exitErr);
          err := exitErr;
      }
    }

    /** The operator restart: it only requests the stop, and leaves the registry to the incarnation itself. */
    method HandleRestartService(n: Name) returns (response: RestartResponse)
      modifies active.Values`intent, active.Values`contextDone
      ensures n !in active ==> response == NotFound
      ensures n in active ==> response == if old(active[n].intent).NoIntent? then Initiated else AlreadyStopping
      ensures n in active ==> active[n].intent == CasIntent(old(active[n].intent), OperatorIntent)
      ensures n in active ==> active[n].contextDone == (response.Initiated? || old(active[n].contextDone))
      ensures forall p :: p in active.Values && !(n in active && p == active[n]) ==>
                p.intent == old(p.intent) && p.contextDone == old(p.contextDone)
    {
      if n !in active { return NotFound; }
      var accepted := active[n].RequestStop(OperatorIntent);
      response := if accepted then Initiated else AlreadyStopping;
    }
  }

  datatype RestartResponse = NotFound | AlreadyStopping | Initiated
}
