/** The configuration values the supervisor works on, and its effective defaults. */
module Config {

  datatype Option<+T> = None | Some(value: T)

  type Name = string

  /** A field that is zero when the file does not set it. */
  function Default(value: int, default: int): int { if value == 0 then default else value }

  /** `restart` in the file. `Unset` is the empty string; `Unknown` is any text that is no policy. */
  datatype RestartPolicy = Unset | Never | OnFailure | Always | Unknown(text: string)

  /** `wait_after`: one number for every dependency, or one number per dependency name. */
  datatype WaitAfterField = WaitAfterField(perDep: map<Name, int>, global: int, isPerDep: bool) {

    function GetWaitTime(dep: Name): int {
      if isPerDep then (if dep in perDep then perDep[dep] else 0) else global
    }
  }

  datatype HealthCheckConfig = HealthCheckConfig(interval: int, retries: int, timeout: int, startDelay: int)

  datatype Service = Service(
    name: Name,
    dependsOn: seq<Name>,
    waitAfter: Option<WaitAfterField>,
    enabled: Option<bool>,
    preScript: string,
    healthCheck: Option<HealthCheckConfig>,
    restart: RestartPolicy,
    restartDelay: int,
    maxRestarts: int,
    required: bool,
    oneshot: bool)
  {
    predicate IsEnabled() { enabled.None? || enabled.value }

    /** The policies under which an unhealthy service is restarted, not reported. */
    predicate RestartsOnFailure() { restart.Always? || restart.OnFailure? }

    function WaitFor(dep: Name): int {
      if waitAfter.None? then 0 else waitAfter.value.GetWaitTime(dep)
    }
  }

  /** Enabled services by name. */
  type Services = map<Name, Service>

  /** `rank` proves that no service depends on itself, directly or through others. */
  ghost predicate Ranked(g: Services, rank: map<Name, nat>) {
    forall n :: n in g ==>
      && n in rank
      && (forall d :: d in g[n].dependsOn ==> d in rank && rank[d] < rank[n])
  }

  ghost predicate Acyclic(g: Services) { exists rank :: Ranked(g, rank) }

  /** A walk along `depends_on`: every name but the last is a service that lists the next one. */
  ghost predicate Walk(g: Services, p: seq<Name>) {
    && p != []
    && forall k :: 0 <= k < |p| - 1 ==> p[k] in g && p[k + 1] in g[p[k]].dependsOn
  }

  ghost predicate Reaches(g: Services, a: Name, b: Name) {
    exists p :: Walk(g, p) && p[0] == a && p[|p| - 1] == b
  }

  lemma ReachesItself(g: Services, a: Name)
    ensures Reaches(g, a, a)
  {
    assert Walk(g, [a]);
  }

  lemma ReachesOn(g: Services, a: Name, b: Name, c: Name)
    requires Reaches(g, a, b) && b in g && c in g[b].dependsOn
    ensures Reaches(g, a, c)
  {
    var p :| Walk(g, p) && p[0] == a && p[|p| - 1] == b;
    assert Walk(g, p + [c]);
  }

  ghost predicate Closed(g: Services) {
    forall n :: n in g ==> forall d :: d in g[n].dependsOn ==> d in g
  }

  /** What validation establishes about the enabled services before any of them is started. */
  ghost predicate WellFormed(g: Services) {
    && Closed(g)
    && Acyclic(g)
    && (forall n :: n in g ==>
          && g[n].name == n
          && g[n].maxRestarts >= 0
          && !g[n].restart.Unknown?
          && (g[n].oneshot ==> !g[n].RestartsOnFailure()))
  }
}
