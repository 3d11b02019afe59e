/** Validation of the dependency graph and of the fields the supervisor relies on. */
module Validation {
  import opened Config
  import Supervisor

  // ----- what a depth-first search may find -----

  /** A cycle can be reached from `root`: `x` depends on `y`, and `y` leads back to `x`. */
  ghost predicate CycleFrom(g: Services, root: Name) {
    exists x, y :: x in g && y in g[x].dependsOn && Reaches(g, root, x) && Reaches(g, y, x)
  }

  /** Entry `i` of the `depends_on` of `x` names `m`, and `x` can be reached from `root`. */
  ghost predicate Mentions(g: Services, root: Name, x: Name, i: nat, m: Name) {
    x in g && i < |g[x].dependsOn| && g[x].dependsOn[i] == m && Reaches(g, root, x)
  }

  /** Two different entries reachable from `root` name the same unknown service. */
  ghost predicate MissingTwice(g: Services, root: Name) {
    exists m, x, i: nat, y, j: nat ::
      m !in g && Mentions(g, root, x, i, m) && Mentions(g, root, y, j, m) && (x, i) != (y, j)
  }

  lemma ClosedMissesNothing(g: Services, root: Name)
    requires Closed(g)
    ensures !MissingTwice(g, root)
  {
    forall m, x, i: nat | Mentions(g, root, x, i, m) ensures m in g {
      assert g[x].dependsOn[i] in g[x].dependsOn;
    }
  }

  ghost function Universe(g: Services): set<Name> {
    g.Keys + set n, d | n in g && d in g[n].dependsOn :: d
  }

  /** Names of the entries that are `true`: a missing key reads as `false`. */
  function Marked(m: map<Name, bool>): set<Name> {
    set n | n in m && m[n]
  }

  type Via = map<Name, (Name, nat)>
  type Progress = map<Name, nat>

  ghost function Of(progress: Progress, n: Name): nat { if n in progress then progress[n] else 0 }

  /** What the search has established so far. */
  datatype Trace = Trace(
    rank: map<Name, nat>,  // finished services, in finishing order
    clock: nat,
    via: Via,              // the one entry through which an unknown name was met
    progress: Progress)    // entries of a visited service that were followed

  /** A followed entry leads to a visited name, and is the only one that met it if the name is unknown. */
  ghost predicate EntryOk(g: Services, v: set<Name>, via: Via, n: Name, i: nat) {
    n in g && i < |g[n].dependsOn| &&
    var d := g[n].dependsOn[i];
    d in v && (d !in g ==> d in via && via[d] == (n, i))
  }

  ghost predicate MetOnce(g: Services, root: Name, via: Via, progress: Progress, m: Name) {
    m in via && Mentions(g, root, via[m].0, via[m].1, m) && via[m].1 < Of(progress, via[m].0)
  }

  ghost predicate Followed(g: Services, root: Name, v: set<Name>, via: Via, progress: Progress) {
    && (forall n, i: nat :: n in v && n in g && i < Of(progress, n) ==> EntryOk(g, v, via, n, i))
    && (forall m :: m in v && m !in g && m != root ==> MetOnce(g, root, via, progress, m))
    && (forall n :: n in progress && n !in v ==> progress[n] == 0)
  }

  /** Visited but no longer on the stack: the whole subtree was searched, and it is ranked below. */
  ghost predicate FinishedOk(g: Services, v: set<Name>, stack: set<Name>, t: Trace, n: Name) {
    && n in g && n in t.rank && t.rank[n] < t.clock && Of(t.progress, n) == |g[n].dependsOn|
    && forall d :: d in g[n].dependsOn && d in g ==>
         d in v && d !in stack && d in t.rank && t.rank[d] < t.rank[n]
  }

  ghost predicate Sound(g: Services, root: Name, v: set<Name>, stack: set<Name>, t: Trace) {
    && stack <= v
    && (forall n :: n in v ==> Reaches(g, root, n))
    && (root !in g && root in v ==> v == {root})
    && Followed(g, root, v, t.via, t.progress)
    && (forall n :: n in v && n !in stack ==> FinishedOk(g, v, stack, t, n))
  }

  /** What a call keeps for its caller: the known services on the stack and their progress. */
  ghost predicate StackKept(g: Services, stack: set<Name>, p: Progress, stack': set<Name>, p': Progress) {
    && stack' * g.Keys == stack * g.Keys
    && forall n :: n in stack && n in g ==> Of(p', n) == Of(p, n)
  }

  /** `progress` after one more entry of `n` was followed. */
  ghost function Advance(progress: Progress, n: Name): Progress { progress[n := Of(progress, n) + 1] }

  lemma FollowedFurther(g: Services, root: Name, v: set<Name>, via: Via, progress: Progress, n: Name, v': set<Name>,
                        via': Via)
    requires Followed(g, root, v, via, progress) && n in v && v <= v'
    requires forall m :: m in via && m in v ==> m in via' && via'[m] == via[m]
    requires EntryOk(g, v', via', n, Of(progress, n))
    requires forall m :: m in v' && m !in v && m !in g && m != root ==>
               m in via' && via'[m] == (n, Of(progress, n)) && Mentions(g, root, n, Of(progress, n), m)
    ensures Followed(g, root, v', via', Advance(progress, n))
  {
    var p := Advance(progress, n);
    forall x, i: nat | x in v' && x in g && i < Of(p, x) ensures EntryOk(g, v', via', x, i) {
      if x != n || i < Of(progress, n) {
        assert EntryOk(g, v, via, x, i);
      }
    }
    forall m | m in v' && m !in g && m != root ensures MetOnce(g, root, via', p, m) {
      if m in v {
        assert MetOnce(g, root, via, progress, m);
      }
    }
  }

  lemma FinishedStill(g: Services, v: set<Name>, stack: set<Name>, t: Trace, v': set<Name>, stack': set<Name>,
                      t': Trace, n: Name)
    requires FinishedOk(g, v, stack, t, n) && v <= v' && stack' * v <= stack
    requires t'.rank == t.rank && t'.clock == t.clock && Of(t'.progress, n) == Of(t.progress, n)
    ensures FinishedOk(g, v', stack', t', n)
  {
  }

  /** An entry not visited yet: the call on it starts from marks that are already accounted for. */
  lemma FollowUnvisited(g: Services, root: Name, v: set<Name>, stack: set<Name>, t: Trace, t': Trace, n: Name,
                        dep: Name)
    requires Sound(g, root, v, stack, t) && n in g && n in stack && root in v && dep !in v
    requires Of(t.progress, n) < |g[n].dependsOn| && g[n].dependsOn[Of(t.progress, n)] == dep
    requires t' == t.(progress := Advance(t.progress, n),
                      via := if dep in g then t.via else t.via[dep := (n, Of(t.progress, n))])
    ensures Sound(g, root, v + {dep}, stack + {dep}, t') && Reaches(g, root, dep)
  {
    ReachesOn(g, root, n, dep);
    assert root in g by { assert n in v; }
    FollowedFurther(g, root, v, t.via, t.progress, n, v + {dep}, t'.via);
    forall x | x in v + {dep} && x !in stack + {dep} ensures FinishedOk(g, v + {dep}, stack + {dep}, t', x) {
      FinishedStill(g, v, stack, t, v + {dep}, stack + {dep}, t', x);
    }
  }

  /** An entry whose subtree is finished is just counted. */
  lemma FollowFinished(g: Services, root: Name, v: set<Name>, stack: set<Name>, t: Trace, t': Trace, n: Name, dep: Name)
    requires Sound(g, root, v, stack, t) && n in g && n in stack && dep in v && dep !in stack
    requires Of(t.progress, n) < |g[n].dependsOn| && g[n].dependsOn[Of(t.progress, n)] == dep
    requires t' == t.(progress := Advance(t.progress, n))
    ensures Sound(g, root, v, stack, t')
  {
    assert FinishedOk(g, v, stack, t, dep);
    FollowedFurther(g, root, v, t.via, t.progress, n, v, t.via);
    forall x | x in v && x !in stack ensures FinishedOk(g, v, stack, t', x) {
      FinishedStill(g, v, stack, t, v, stack, t', x);
    }
  }

  /** All entries followed: the service gets the next rank and leaves the stack. */
  lemma FinishService(g: Services, root: Name, v: set<Name>, stack: set<Name>, t: Trace, t': Trace, n: Name)
    requires Sound(g, root, v, stack, t) && n in g && n in stack && Of(t.progress, n) == |g[n].dependsOn|
    requires forall d :: d in g[n].dependsOn && d in g ==> d in v && d !in stack
    requires t' == t.(rank := t.rank[n := t.clock], clock := t.clock + 1)
    ensures Sound(g, root, v, stack - {n}, t')
  {
    forall x | x in v && x !in stack - {n} ensures FinishedOk(g, v, stack - {n}, t', x) {
      if x != n {
        assert FinishedOk(g, v, stack, t, x);
      } else {
        forall d | d in g[n].dependsOn && d in g
          ensures d in v && d !in stack - {n} && d in t'.rank && t'.rank[d] < t'.rank[n]
        {
          assert FinishedOk(g, v, stack, t, d);
        }
      }
    }
  }

  lemma StackHit(g: Services, root: Name, v: set<Name>, stack: set<Name>, t: Trace, n: Name, dep: Name)
    requires Sound(g, root, v, stack, t) && n in g && n in v && root in v && dep in stack
    requires Of(t.progress, n) < |g[n].dependsOn| && g[n].dependsOn[Of(t.progress, n)] == dep
    requires dep in g ==> Reaches(g, dep, n)
    ensures CycleFrom(g, root) || MissingTwice(g, root)
  {
    if dep in g {
      assert CycleFrom(g, root);
    } else {
      assert Mentions(g, root, n, Of(t.progress, n), dep);
      assert MetOnce(g, root, t.via, t.progress, dep);
      var (x, j) := t.via[dep];
      assert (x, j) != (n, Of(t.progress, n));
    }
  }

  /** The loop of `hasCycles` over the entries of `name`, `i` of them done. */
  ghost predicate Halfway(g: Services, root: Name, name: Name, v0: set<Name>, stack0: set<Name>, p0: Progress,
                          v: set<Name>, stack: set<Name>, t: Trace, i: nat)
  {
    && Sound(g, root, v, stack, t) && root in v && name in g && i <= |g[name].dependsOn|
    && v0 + {name} <= v && name in stack && Of(t.progress, name) == i
    && StackKept(g, stack0 + {name}, p0[name := i], stack, t.progress)
    && (forall x :: x in stack && x in g ==> Reaches(g, x, name))
    && (forall k :: 0 <= k < i && g[name].dependsOn[k] in g ==>
          g[name].dependsOn[k] in v && g[name].dependsOn[k] !in stack)
  }

  lemma HalfwayCall(g: Services, root: Name, name: Name, v0: set<Name>, stack0: set<Name>, p0: Progress,
                    v: set<Name>, stack: set<Name>, t: Trace, i: nat, t': Trace)
    requires Halfway(g, root, name, v0, stack0, p0, v, stack, t, i) && i < |g[name].dependsOn|
    requires g[name].dependsOn[i] !in v
    requires var dep := g[name].dependsOn[i];
             t' == t.(progress := Advance(t.progress, name), via := if dep in g then t.via else t.via[dep := (name, i)])
    ensures var dep := g[name].dependsOn[i];
            && Sound(g, root, v + {dep}, stack + {dep}, t')
            && dep in Universe(g) && dep !in stack && root in v + {dep} && Of(t'.progress, dep) == 0
            && (forall x :: x in stack && x in g ==> Reaches(g, x, dep))
  {
    var dep := g[name].dependsOn[i];
    FollowUnvisited(g, root, v, stack, t, t', name, dep);
    forall x | x in stack && x in g ensures Reaches(g, x, dep) {
      ReachesOn(g, x, name, dep);
    }
  }

  lemma HalfwayReturn(g: Services, root: Name, name: Name, v0: set<Name>, stack0: set<Name>, p0: Progress,
                      v: set<Name>, stack: set<Name>, t: Trace, i: nat,
                      v': set<Name>, stack': set<Name>, t': Trace)
    requires Halfway(g, root, name, v0, stack0, p0, v, stack, t, i) && i < |g[name].dependsOn|
    requires Sound(g, root, v', stack', t') && v + {g[name].dependsOn[i]} <= v' && g[name].dependsOn[i] !in stack
    requires StackKept(g, stack, Advance(t.progress, name), stack', t'.progress)
    ensures Halfway(g, root, name, v0, stack0, p0, v', stack', t', i + 1)
  {
    assert stack' * g.Keys == stack * g.Keys;
    assert forall x :: x in g ==> (x in stack' <==> x in stack' * g.Keys);
    assert forall x :: x in g ==> (x in stack <==> x in stack * g.Keys);
    assert forall x :: x in g ==> (x in stack0 + {name} <==> x in (stack0 + {name}) * g.Keys);
  }

  /** An entry that leads back to the stack closes a cycle, or names an unknown service again. */
  lemma HalfwayHit(g: Services, root: Name, name: Name, v0: set<Name>, stack0: set<Name>, p0: Progress,
                   v: set<Name>, stack: set<Name>, t: Trace, i: nat)
    requires Halfway(g, root, name, v0, stack0, p0, v, stack, t, i) && i < |g[name].dependsOn|
    requires g[name].dependsOn[i] in stack
    ensures CycleFrom(g, root) || MissingTwice(g, root)
  {
    StackHit(g, root, v, stack, t, name, g[name].dependsOn[i]);
  }

  lemma HalfwaySkip(g: Services, root: Name, name: Name, v0: set<Name>, stack0: set<Name>, p0: Progress,
                    v: set<Name>, stack: set<Name>, t: Trace, i: nat)
    requires Halfway(g, root, name, v0, stack0, p0, v, stack, t, i) && i < |g[name].dependsOn|
    requires g[name].dependsOn[i] in v && g[name].dependsOn[i] !in stack
    ensures Halfway(g, root, name, v0, stack0, p0, v, stack, t.(progress := Advance(t.progress, name)), i + 1)
  {
    var t' := t.(progress := Advance(t.progress, name));
    FollowFinished(g, root, v, stack, t, t', name, g[name].dependsOn[i]);
    HalfwayReturn(g, root, name, v0, stack0, p0, v, stack, t, i, v, stack, t');
  }

  lemma UnknownName(g: Services, root: Name, stack: set<Name>, name: Name, t: Trace)
    requires name !in g
    ensures StackKept(g, stack, t.progress, stack + {name}, t.progress)
  {
    assert (stack + {name}) * g.Keys == stack * g.Keys;
  }

  lemma HalfwayStart(g: Services, root: Name, name: Name, v0: set<Name>, stack0: set<Name>, t: Trace)
    requires Sound(g, root, v0 + {name}, stack0 + {name}, t) && root in v0 + {name}
    requires name in g && Of(t.progress, name) == 0
    requires forall x :: x in stack0 && x in g ==> Reaches(g, x, name)
    ensures Halfway(g, root, name, v0, stack0, t.progress, v0 + {name}, stack0 + {name}, t, 0)
  {
    ReachesItself(g, name);
  }

  lemma HalfwayEnd(g: Services, root: Name, name: Name, v0: set<Name>, stack0: set<Name>, p0: Progress,
                   v: set<Name>, stack: set<Name>, t: Trace, t': Trace)
    requires name in g && Halfway(g, root, name, v0, stack0, p0, v, stack, t, |g[name].dependsOn|) && name !in stack0
    requires t' == t.(rank := t.rank[name := t.clock], clock := t.clock + 1)
    ensures Sound(g, root, v, stack - {name}, t') && v0 + {name} <= v
    ensures StackKept(g, stack0, p0, stack - {name}, t'.progress)
  {
    FinishService(g, root, v, stack, t, t', name);
    assert stack * g.Keys == (stack0 + {name}) * g.Keys;
    assert forall x :: x in g ==> (x in stack <==> x in stack * g.Keys);
    assert forall x :: x in g ==> (x in stack0 + {name} <==> x in (stack0 + {name}) * g.Keys);
    assert (stack - {name}) * g.Keys == stack0 * g.Keys;
  }

  /** The two maps `hasCycles` shares across its recursion. */
  class Search {
    var visited: map<Name, bool>
    var recursionStack: map<Name, bool>
    ghost var trace: Trace

    constructor ()
      ensures Marked(visited) == {} && Marked(recursionStack) == {}
      ensures trace == Trace(map[], 0, map[], map[])
    {
      visited, recursionStack, trace := map[], map[], Trace(map[], 0, map[], map[]);
    }

    method HasCycles(name: Name, g: Services, ghost root: Name) returns (cyclic: bool)
      requires name !in Marked(visited) && name !in Marked(recursionStack) && name in Universe(g) + {root}
      requires Sound(g, root, Marked(visited) + {name}, Marked(recursionStack) + {name}, trace)
      requires root in Marked(visited) + {name} && Of(trace.progress, name) == 0
      requires forall x :: x in Marked(recursionStack) && x in g ==> Reaches(g, x, name)
      modifies this
      ensures cyclic ==> CycleFrom(g, root) || MissingTwice(g, root)
      ensures !cyclic ==>
                && Sound(g, root, Marked(visited), Marked(recursionStack), trace)
                && old(Marked(visited)) + {name} <= Marked(visited)
                && StackKept(g, old(Marked(recursionStack)), old(trace.progress),
                             Marked(recursionStack), trace.progress)
      decreases Universe(g) + {root} - Marked(visited), 0
    {
      hide Halfway, Sound, StackKept, Reaches, Universe, CycleFrom, MissingTwice, Of, Advance;
      ghost var v0, stack0, p0 := Marked(visited), Marked(recursionStack), trace.progress;
      visited := visited[name := true];
      recursionStack := recursionStack[name := true];
      assert Marked(visited) == v0 + {name} && Marked(recursionStack) == stack0 + {name};

      if name !in g {
        UnknownName(g, root, stack0, name, trace);
        return false;
      }

      HalfwayStart(g, root, name, v0, stack0, trace);
      var dependsOn := g[name].dependsOn;
      for i := 0 to |dependsOn|
        invariant Halfway(g, root, name, v0, stack0, p0, Marked(visited), Marked(recursionStack), trace, i)
        invariant v0 + {name} <= Marked(visited)
      {
        var found := Follow(name, i, g, root, v0, stack0, p0);
        if found {
          return true;
        }
      }

      ghost var stack, t := Marked(recursionStack), trace;
      trace := t.(rank := t.rank[name := t.clock], clock := t.clock + 1);
      recursionStack := recursionStack[name := false];
      HalfwayEnd(g, root, name, v0, stack0, p0, Marked(visited), stack, t, trace);
      assert Marked(recursionStack) == stack - {name};
      return false;
    }

    /** One round of the loop of `hasCycles`: entry `i` of `name`. */
    method Follow(name: Name, i: nat, g: Services, ghost root: Name,
                  ghost v0: set<Name>, ghost stack0: set<Name>, ghost p0: Progress)
      returns (found: bool)
      requires name in g && i < |g[name].dependsOn|
      requires Halfway(g, root, name, v0, stack0, p0, Marked(visited), Marked(recursionStack), trace, i)
      modifies this
      ensures found ==> CycleFrom(g, root) || MissingTwice(g, root)
      ensures !found ==>
                && Halfway(g, root, name, v0, stack0, p0, Marked(visited), Marked(recursionStack), trace, i + 1)
                && old(Marked(visited)) <= Marked(visited)
      decreases Universe(g) + {root} - Marked(visited), 1
    {
      hide Halfway, Sound, StackKept, Reaches, Universe, CycleFrom, MissingTwice, Of, Advance;
      var dep := g[name].dependsOn[i];
      ghost var v, stack, t := Marked(visited), Marked(recursionStack), trace;
      if !(dep in visited && visited[dep]) {
        trace := t.(progress := Advance(t.progress, name),
                    via := if dep in g then t.via else t.via[dep := (name, i)]);
        HalfwayCall(g, root, name, v0, stack0, p0, v, stack, t, i, trace);
        found := HasCycles(dep, g, root);
        if !found {
          HalfwayReturn(g, root, name, v0, stack0, p0, v, stack, t, i,
                        Marked(visited), Marked(recursionStack), trace);
        }
      } else if dep in recursionStack && recursionStack[dep] {
        HalfwayHit(g, root, name, v0, stack0, p0, v, stack, t, i);
        found := true;
      } else {
        trace := t.(progress := Advance(t.progress, name));
        HalfwaySkip(g, root, name, v0, stack0, p0, v, stack, t, i);
        found := false;
      }
    }
  }

  // ----- exactness of one search with fresh maps -----

  /** `rank` orders the services of `names`, which depend on known services among `names` only. */
  ghost predicate RankedOn(g: Services, names: set<Name>, rank: map<Name, nat>) {
    forall n :: n in names && n in g ==>
      n in rank && forall d :: d in g[n].dependsOn && d in g ==> d in names && d in rank && rank[d] < rank[n]
  }

  lemma {:induction false} WalkDescends(g: Services, names: set<Name>, rank: map<Name, nat>, p: seq<Name>)
    requires RankedOn(g, names, rank) && Walk(g, p) && p[0] in names && p[0] in g && p[|p| - 1] in g
    ensures p[|p| - 1] in names && p[|p| - 1] in rank && rank[p[|p| - 1]] <= rank[p[0]]
    decreases |p|
  {
    if |p| > 1 {
      if |p| == 2 {
        assert p[1] in g[p[0]].dependsOn;
      } else {
        assert p[1] in g && p[1] in g[p[0]].dependsOn;
        WalkDescends(g, names, rank, p[1..]);
      }
    }
  }

  lemma RankedHasNoCycle(g: Services, names: set<Name>, rank: map<Name, nat>, root: Name)
    requires RankedOn(g, names, rank) && root in names
    ensures !CycleFrom(g, root)
  {
    if CycleFrom(g, root) {
      var x, y :| x in g && y in g[x].dependsOn && Reaches(g, root, x) && Reaches(g, y, x);
      var p :| Walk(g, p) && p[0] == root && p[|p| - 1] == x;
      var q :| Walk(g, q) && q[0] == y && q[|q| - 1] == x;
      assert root in g && y in g;
      WalkDescends(g, names, rank, p);
      WalkDescends(g, names, rank, q);
    }
  }

  /** A search that empties its stack has seen everything reachable, and found neither cycle nor repetition. */
  lemma EmptyStack(g: Services, root: Name, v: set<Name>, stack: set<Name>, t: Trace)
    requires Sound(g, root, v, stack, t) && root in v && stack * g.Keys == {}
    ensures RankedOn(g, v, t.rank)
    ensures !CycleFrom(g, root) && !MissingTwice(g, root)
  {
    forall n | n in v && n in g ensures FinishedOk(g, v, stack, t, n) {
      assert n !in stack * g.Keys;
    }
    RankedHasNoCycle(g, v, t.rank, root);
    forall m, x, i: nat | m !in g && Mentions(g, root, x, i, m) ensures m in t.via && t.via[m] == (x, i) {
      var p :| Walk(g, p) && p[0] == root && p[|p| - 1] == x;
      WalkDescends(g, v, t.rank, p);
      assert FinishedOk(g, v, stack, t, x);
      assert EntryOk(g, v, t.via, x, i);
    }
  }

  /** `hasCycles` on a fresh pair of maps, for any graph, closed or not. */
  method SearchFrom(root: Name, g: Services) returns (cyclic: bool, ghost names: set<Name>, ghost rank: map<Name, nat>)
    ensures cyclic <==> CycleFrom(g, root) || MissingTwice(g, root)
    ensures Closed(g) ==> (cyclic <==> CycleFrom(g, root))
    ensures !cyclic ==> root in names && RankedOn(g, names, rank)
  {
    var search := new Search();
    ReachesItself(g, root);
    FreshSound(g, root);
    cyclic := search.HasCycles(root, g, root);
    names, rank := Marked(search.visited), search.trace.rank;
    if Closed(g) {
      ClosedMissesNothing(g, root);
    }
    if !cyclic {
      EmptyStack(g, root, names, Marked(search.recursionStack), search.trace);
    }
  }

  lemma FreshSound(g: Services, root: Name)
    ensures Sound(g, root, {} + {root}, {} + {root}, Trace(map[], 0, map[], map[]))
  {
    ReachesItself(g, root);
  }

  // ----- validateDependencies -----

  datatype DependencyError =
    | NonExistent(service: Name, dep: Name)
    | Disabled(service: Name, dep: Name)
    | StrayWaitAfter(service: Name, dep: Name)
    | Circular(service: Name)

  /** `serviceMap`: for a repeated name the last service wins. */
  function ServiceMap(services: seq<Service>): Services {
    if services == [] then map[]
    else var s := services[|services| - 1]; ServiceMap(services[..|services| - 1])[s.name := s]
  }

  /** `enabledMap`: for a repeated name the last service decides. */
  function EnabledMap(services: seq<Service>): map<Name, bool> {
    if services == [] then map[]
    else var s := services[|services| - 1]; EnabledMap(services[..|services| - 1])[s.name := s.IsEnabled()]
  }

  /** `enabledServiceMap`: the last enabled service of each name. */
  function EnabledServices(services: seq<Service>): Services {
    if services == [] then map[]
    else
      var s := services[|services| - 1];
      var before := EnabledServices(services[..|services| - 1]);
      if s.IsEnabled() then before[s.name := s] else before
  }

  /** Position `i` holds the last service of that name. */
  predicate LastNamed(services: seq<Service>, i: nat, n: Name) {
    i < |services| && services[i].name == n && forall j :: i < j < |services| ==> services[j].name != n
  }

  /** The name belongs to a service, and the last service of that name is not switched off. */
  predicate RefOk(services: seq<Service>, dep: Name) {
    exists i :: 0 <= i < |services| && LastNamed(services, i, dep) && services[i].enabled != Some(false)
  }

  /** The name belongs to a service, but the last service of that name is switched off. */
  predicate SwitchedOff(services: seq<Service>, dep: Name) {
    exists i :: 0 <= i < |services| && LastNamed(services, i, dep) && services[i].enabled == Some(false)
  }

  predicate StrayWait(s: Service, dep: Name) {
    s.waitAfter.Some? && s.waitAfter.value.isPerDep && dep in s.waitAfter.value.perDep && dep !in s.dependsOn
  }

  /** Dependencies exist and are enabled, and per-dependency waits name dependencies. */
  ghost predicate RefsOk(services: seq<Service>, s: Service) {
    && (forall d :: d in s.dependsOn ==> RefOk(services, d))
    && (forall d :: !StrayWait(s, d))
  }

  ghost predicate DependenciesOk(services: seq<Service>) {
    && (forall i :: 0 <= i < |services| && services[i].enabled != Some(false) ==> RefsOk(services, services[i]))
    && Acyclic(EnabledServices(services))
  }

  /** The error names an entry of `s` that is unknown, or known but not enabled. */
  predicate RefErrorOk(s: Service, serviceMap: Services, enabledMap: map<Name, bool>, e: DependencyError) {
    match e
    case NonExistent(n, d) => n == s.name && d in s.dependsOn && d !in serviceMap
    case Disabled(n, d) => n == s.name && d in s.dependsOn && d in serviceMap && !(d in enabledMap && enabledMap[d])
    case _ => false
  }

  /** The error describes a defect that is really there. */
  ghost predicate Justified(services: seq<Service>, e: DependencyError) {
    match e
    case StrayWaitAfter(n, d) =>
      exists s :: s in services && s.IsEnabled() && s.name == n && StrayWait(s, d)
    case NonExistent(n, d) =>
      (exists s :: s in services && s.IsEnabled() && s.name == n && d in s.dependsOn)
      && forall i :: 0 <= i < |services| ==> services[i].name != d
    case Disabled(n, d) =>
      (exists s :: s in services && s.IsEnabled() && s.name == n && d in s.dependsOn)
      && SwitchedOff(services, d)
    case Circular(n) => n in EnabledServices(services) && CycleFrom(EnabledServices(services), n)
  }

  method ValidateDependencyRefs(s: Service, serviceMap: Services, enabledMap: map<Name, bool>)
    returns (error: Option<DependencyError>)
    ensures error.None? <==> forall d :: d in s.dependsOn ==> d in serviceMap && d in enabledMap && enabledMap[d]
    ensures error.Some? ==> RefErrorOk(s, serviceMap, enabledMap, error.value)
  {
    for k := 0 to |s.dependsOn|
      invariant forall j :: 0 <= j < k ==>
                  s.dependsOn[j] in serviceMap && s.dependsOn[j] in enabledMap && enabledMap[s.dependsOn[j]]
    {
      var dep := s.dependsOn[k];
      if dep !in serviceMap {
        return Some(NonExistent(s.name, dep));
      }
      if !(dep in enabledMap && enabledMap[dep]) {
        return Some(Disabled(s.name, dep));
      }
    }
    return None;
  }

  method ValidateWaitAfterRefs(s: Service) returns (error: Option<DependencyError>)
    ensures error.None? <==> (s.waitAfter.Some? && s.waitAfter.value.isPerDep ==>
                                forall d :: d in s.waitAfter.value.perDep ==> d in s.dependsOn)
    ensures error.Some? ==>
              error.value.StrayWaitAfter? && error.value.service == s.name && StrayWait(s, error.value.dep)
  {
    if s.waitAfter.None? || !s.waitAfter.value.isPerDep {
      return None;
    }
    var keys := s.waitAfter.value.perDep.Keys;
    while keys != {}
      invariant keys <= s.waitAfter.value.perDep.Keys
      invariant forall d :: d in s.waitAfter.value.perDep && d !in keys ==> d in s.dependsOn
    {
      var dep :| dep in keys;
      if dep !in s.dependsOn {
        assert StrayWait(s, dep);
        return Some(StrayWaitAfter(s.name, dep));
      }
      keys := keys - {dep};
    }
    return None;
  }

  lemma {:induction false} EnabledServicesFrom(services: seq<Service>, n: Name)
    ensures RefOk(services, n) ==> n in EnabledServices(services)
    ensures n in EnabledServices(services) ==>
              exists i :: 0 <= i < |services| && services[i].IsEnabled() && services[i] == EnabledServices(services)[n]
                          && services[i].name == n
  {
    if services != [] {
      var front := services[..|services| - 1];
      EnabledServicesFrom(front, n);
      var s := services[|services| - 1];
      if n in EnabledServices(services) && !(s.IsEnabled() && s.name == n) {
        var i :| 0 <= i < |front| && front[i].IsEnabled() && front[i] == EnabledServices(front)[n]
                 && front[i].name == n;
        assert services[i] == front[i];
      }
    }
  }

  lemma {:induction false} KnownNames(services: seq<Service>, n: Name)
    ensures n in ServiceMap(services) <==> exists i :: 0 <= i < |services| && services[i].name == n
    ensures n in EnabledMap(services) <==> n in ServiceMap(services)
  {
    if services != [] {
      KnownNames(services[..|services| - 1], n);
    }
  }

  /** What the two name maps of the reference checks hold, for every list, repeated names included. */
  lemma {:induction false} MapsMean(services: seq<Service>, n: Name)
    ensures n in ServiceMap(services) <==> exists i :: 0 <= i < |services| && services[i].name == n
    ensures n in EnabledMap(services) <==> n in ServiceMap(services)
    ensures n in EnabledMap(services) && EnabledMap(services)[n] <==> RefOk(services, n)
    ensures n in EnabledMap(services) && !EnabledMap(services)[n] <==> SwitchedOff(services, n)
  {
    hide ServiceMap, RefOk, SwitchedOff;
    KnownNames(services, n);
    if services == [] {
      NothingNamed(n);
    } else {
      var last := |services| - 1;
      MapsMean(services[..last], n);
      if services[last].name == n {
        LastDecides(services, n);
      } else {
        FrontDecides(services, n);
      }
    }
  }

  lemma NothingNamed(n: Name)
    ensures !RefOk([], n) && !SwitchedOff([], n)
  {
  }

  lemma LastDecides(services: seq<Service>, n: Name)
    requires services != [] && services[|services| - 1].name == n
    ensures RefOk(services, n) <==> services[|services| - 1].IsEnabled()
    ensures SwitchedOff(services, n) <==> !services[|services| - 1].IsEnabled()
  {
    var last := |services| - 1;
    assert LastNamed(services, last, n);
    assert forall i :: LastNamed(services, i, n) ==> i == last;
    assert services[last].IsEnabled() <==> services[last].enabled != Some(false);
  }

  lemma FrontDecides(services: seq<Service>, n: Name)
    requires services != [] && services[|services| - 1].name != n
    ensures RefOk(services, n) <==> RefOk(services[..|services| - 1], n)
    ensures SwitchedOff(services, n) <==> SwitchedOff(services[..|services| - 1], n)
  {
    var last := |services| - 1;
    var front := services[..last];
    forall i | 0 <= i < last ensures LastNamed(services, i, n) <==> LastNamed(front, i, n) {
      LastStays(services, i, n);
    }
    assert forall i :: 0 <= i < last ==> services[i] == front[i];
    assert !LastNamed(services, last, n);
  }

  lemma LastStays(services: seq<Service>, i: nat, n: Name)
    requires i < |services| - 1 && services[|services| - 1].name != n
    ensures LastNamed(services, i, n) <==> LastNamed(services[..|services| - 1], i, n)
  {
    var front := services[..|services| - 1];
    if LastNamed(front, i, n) {
      forall j | i < j < |services| ensures services[j].name != n {
        if j < |front| { assert front[j].name != n; }
      }
    }
  }

  /** Position `i` holds the last enabled service of that name. */
  predicate LastEnabled(services: seq<Service>, i: nat, n: Name) {
    && i < |services| && services[i].name == n && services[i].enabled != Some(false)
    && forall j :: i < j < |services| && services[j].name == n ==> services[j].enabled == Some(false)
  }

  /** The graph that is searched holds exactly the last enabled service of each name. */
  lemma {:induction false} EnabledServicesMean(services: seq<Service>, n: Name)
    ensures n in EnabledServices(services) <==> exists i :: 0 <= i < |services| && LastEnabled(services, i, n)
    ensures forall i :: 0 <= i < |services| && LastEnabled(services, i, n) ==>
              n in EnabledServices(services) && EnabledServices(services)[n] == services[i]
  {
    if services != [] {
      var last := |services| - 1;
      var front := services[..last];
      EnabledServicesMean(front, n);
      forall i | 0 <= i < last && !(services[last].name == n && services[last].enabled != Some(false))
        ensures LastEnabled(services, i, n) <==> LastEnabled(front, i, n)
      {
        if LastEnabled(front, i, n) {
          forall j | i < j < |services| && services[j].name == n ensures services[j].enabled == Some(false) {
            if j < last { assert front[j].name == n; }
          }
        }
      }
      if services[last].name == n && services[last].enabled != Some(false) {
        assert LastEnabled(services, last, n);
      }
    }
  }

  /** The reference checks establish what the search relies on. */
  lemma RefsOkCloses(services: seq<Service>)
    requires forall i :: 0 <= i < |services| && services[i].enabled != Some(false) ==> RefsOk(services, services[i])
    ensures Closed(EnabledServices(services))
  {
    var g := EnabledServices(services);
    forall n, d | n in g && d in g[n].dependsOn ensures d in g {
      EnabledServicesFrom(services, n);
      EnabledServicesFrom(services, d);
    }
  }

  /** Two rankings of closed parts of the graph combine. */
  lemma JoinRanks(g: Services, a: set<Name>, ra: map<Name, nat>, b: set<Name>, rb: map<Name, nat>)
    returns (r: map<Name, nat>)
    requires RankedOn(g, a, ra) && RankedOn(g, b, rb)
    ensures RankedOn(g, a + b, r)
  {
    var top := MaxRank(ra);
    r := map n | n in ra.Keys + rb.Keys :: if n in a && n in ra then ra[n] else if n in rb then rb[n] + top + 1 else 0;
  }

  ghost function MaxRank(r: map<Name, nat>): (top: nat)
    ensures forall n :: n in r ==> r[n] <= top
    decreases |r|
  {
    if r == map[] then 0
    else
      var n :| n in r;
      var rest := r - {n};
      var m := MaxRank(rest);
      assert forall k :: k in r && k != n ==> k in rest && rest[k] == r[k];
      if r[n] > m then r[n] else m
  }

  lemma AcyclicHasNoCycle(g: Services, root: Name)
    requires Acyclic(g) && root in g
    ensures !CycleFrom(g, root)
  {
    var rank :| Ranked(g, rank);
    RankedHasNoCycle(g, g.Keys + {root}, rank, root);
  }

  lemma RefErrorMeans(services: seq<Service>, s: Service, e: DependencyError)
    requires s in services && s.IsEnabled() && RefErrorOk(s, ServiceMap(services), EnabledMap(services), e)
    ensures Justified(services, e) && !RefsOk(services, s)
  {
    MapsMean(services, e.dep);
  }

  method ValidateDependencies(services: seq<Service>) returns (error: Option<DependencyError>)
    ensures error.None? <==> DependenciesOk(services)
    ensures error.Some? ==> Justified(services, error.value)
  {
    var serviceMap, enabledMap := BuildMaps(services);
    for i := 0 to |services|
      invariant forall k :: 0 <= k < i && services[k].enabled != Some(false) ==> RefsOk(services, services[k])
    {
      if services[i].IsEnabled() {
        var refs := ValidateDependencyRefs(services[i], serviceMap, enabledMap);
        forall d | d in services[i].dependsOn ensures RefOk(services, d) <==> d in enabledMap && enabledMap[d] {
          MapsMean(services, d);
        }
        if refs.Some? {
          RefErrorMeans(services, services[i], refs.value);
          return refs;
        }
        var waits := ValidateWaitAfterRefs(services[i]);
        if waits.Some? {
          assert !RefsOk(services, services[i]);
          return waits;
        }
      }
    }
    RefsOkCloses(services);
    var enabledServiceMap := BuildEnabled(services);
    error := SearchAll(enabledServiceMap);
  }

  method BuildMaps(services: seq<Service>) returns (serviceMap: Services, enabledMap: map<Name, bool>)
    ensures serviceMap == ServiceMap(services) && enabledMap == EnabledMap(services)
  {
    serviceMap, enabledMap := map[], map[];
    for i := 0 to |services|
      invariant serviceMap == ServiceMap(services[..i]) && enabledMap == EnabledMap(services[..i])
    {
      assert services[..i + 1][..i] == services[..i];
      serviceMap := serviceMap[services[i].name := services[i]];
      enabledMap := enabledMap[services[i].name := services[i].IsEnabled()];
    }
    assert services[..|services|] == services;
  }

  method BuildEnabled(services: seq<Service>) returns (g: Services)
    ensures g == EnabledServices(services)
  {
    g := map[];
    for i := 0 to |services|
      invariant g == EnabledServices(services[..i])
    {
      assert services[..i + 1][..i] == services[..i];
      if services[i].IsEnabled() {
        g := g[services[i].name := services[i]];
      }
    }
    assert services[..|services|] == services;
  }

  /** The search from every enabled service, in the unspecified order of the map. */
  method SearchAll(g: Services) returns (error: Option<DependencyError>)
    requires Closed(g)
    ensures error.None? <==> Acyclic(g)
    ensures error.Some? ==> error.value.Circular? && error.value.service in g && CycleFrom(g, error.value.service)
  {
    var names := g.Keys;
    ghost var covered: set<Name>, rank: map<Name, nat> := {}, map[];
    while names != {}
      invariant names <= g.Keys && g.Keys - names <= covered && RankedOn(g, covered, rank)
    {
      var name :| name in names;
      var cyclic, part, partRank := SearchFrom(name, g);
      if cyclic {
        if Acyclic(g) {
          AcyclicHasNoCycle(g, name);
        }
        return Some(Circular(name));
      }
      rank := JoinRanks(g, covered, rank, part, partRank);
      covered := covered + part;
      names := names - {name};
    }
    assert Ranked(g, rank);
    return None;
  }

  // ----- validateConfig -----

  datatype Timeouts = Timeouts(postScript: int, serviceShutdown: int, globalShutdown: int, dependencyWait: int)

  function WithDefaults(t: Timeouts): Timeouts {
    Timeouts(Default(t.postScript, 7), Default(t.serviceShutdown, 10), Default(t.globalShutdown, 30),
             Default(t.dependencyWait, 300))
  }

  /** A validation error by the field and the service it is reported for. */
  datatype ValidationError = ValidationError(field: string, service: Name)

  predicate OutOfRange(seconds: int) { seconds < 0 || seconds > 300 }

  function BadWaits(w: WaitAfterField): set<Name> { set d | d in w.perDep && OutOfRange(w.perDep[d]) }

  /** One error for each of `count` bad entries. */
  function Repeat(e: ValidationError, count: nat): seq<ValidationError> {
    if count == 0 then [] else Repeat(e, count - 1) + [e]
  }

  function WaitAfterErrors(s: Service): seq<ValidationError> {
    if s.waitAfter.None? then []
    else if s.waitAfter.value.isPerDep then Repeat(ValidationError("wait_after", s.name), |BadWaits(s.waitAfter.value)|)
    else if OutOfRange(s.waitAfter.value.global) then [ValidationError("wait_after", s.name)]
    else []
  }

  function RestartErrors(s: Service): seq<ValidationError> {
    (if s.restart.Unknown? then [ValidationError("restart", s.name)] else [])
    + (if s.restartDelay < 0 then [ValidationError("restart_delay", s.name)] else [])
    + (if s.maxRestarts < 0 then [ValidationError("max_restarts", s.name)] else [])
    + (if s.oneshot && s.RestartsOnFailure() then [ValidationError("restart", s.name)] else [])
  }

  /**
   What the validators that look at files, users or other fields report for the service at a position of
   the file: `always` has the required fields and the name, `first` command, scripts and log file, `middle`
   user and health check, `last` the env file. `flags` are the environment variables.
   */
  datatype Outside = Outside(
    flags: Flags,
    always: (nat, Service) -> seq<ValidationError>,
    first: (nat, Service) -> seq<ValidationError>,
    middle: (nat, Service) -> seq<ValidationError>,
    last: (nat, Service) -> seq<ValidationError>)

  /**
   The environment variables about enabled services, as read: whether there is a list of the only ones to
   run and which names it has, and the valid booleans given to enable or disable a name.
   */
  datatype Flags = Flags(onlyMode: bool, listed: Name -> bool, enable: Name -> Option<bool>,
                         disable: Name -> Option<bool>) {

    /** The variables leave the service on: disabling wins over enabling, that over the list, that over the file. */
    predicate LeaveOn(s: Service): (on: bool)
      ensures disable(s.name) == Some(true) ==> !on
      ensures disable(s.name) != Some(true) && enable(s.name).Some? ==> (on <==> enable(s.name) == Some(true))
      ensures disable(s.name) != Some(true) && enable(s.name).None? && onlyMode ==> (on <==> listed(s.name))
      ensures disable(s.name) != Some(true) && enable(s.name).None? && !onlyMode ==> (on <==> s.enabled != Some(false))
    {
      var preset := if onlyMode then listed(s.name) else s.IsEnabled();
      disable(s.name) != Some(true) && (if enable(s.name).Some? then enable(s.name).value else preset)
    }
  }

  function ServiceErrors(world: Outside, i: nat, s: Service): seq<ValidationError> {
    world.always(i, s) +
    if s.IsEnabled() then
      world.first(i, s) + WaitAfterErrors(s) + world.middle(i, s) + RestartErrors(s) + world.last(i, s)
    else []
  }

  function FieldErrors(world: Outside, services: seq<Service>): seq<ValidationError> {
    if services == [] then []
    else
      var i := |services| - 1;
      FieldErrors(world, services[..i]) + ServiceErrors(world, i, services[i])
  }

  function DuplicateErrors(services: seq<Service>): seq<ValidationError> {
    if services == [] then []
    else
      var s := services[|services| - 1];
      var front := services[..|services| - 1];
      DuplicateErrors(front)
      + if exists i :: 0 <= i < |front| && front[i].name == s.name then [ValidationError("name", s.name)] else []
  }

  lemma NoDuplicatesYet(services: seq<Service>)
    ensures DuplicateErrors(services[..0]) == []
  {
  }

  lemma DuplicatesStep(services: seq<Service>, i: nat)
    requires i < |services|
    ensures DuplicateErrors(services[..i + 1]) == DuplicateErrors(services[..i]) +
              if exists k :: 0 <= k < i && services[k].name == services[i].name
              then [ValidationError("name", services[i].name)] else []
  {
    var front := services[..i];
    assert services[..i + 1][..i] == front;
    if k :| 0 <= k < i && services[k].name == services[i].name {
      assert front[k].name == services[i].name;
    }
  }

  lemma NoFieldsNoErrors(world: Outside, services: seq<Service>)
    ensures FieldErrors(world, services[..0]) == []
  {
  }

  lemma FieldErrorsStep(world: Outside, services: seq<Service>, i: nat)
    requires i < |services|
    ensures FieldErrors(world, services[..i + 1]) ==
            FieldErrors(world, services[..i]) + ServiceErrors(world, i, services[i])
  {
    assert services[..i + 1][..i] == services[..i];
  }

  ghost function NamesOf(services: seq<Service>): set<Name> { set i | 0 <= i < |services| :: services[i].name }

  predicate RepeatedIn(services: seq<Service>, n: Name) {
    exists i, j :: 0 <= i < j < |services| && services[i].name == services[j].name == n
  }

  lemma RepeatedGrows(services: seq<Service>, n: Name)
    requires services != []
    ensures var last := |services| - 1;
            RepeatedIn(services, n) <==>
              RepeatedIn(services[..last], n) || (n == services[last].name && n in NamesOf(services[..last]))
  {
    var last := |services| - 1;
    var front := services[..last];
    if RepeatedIn(front, n) {
      var i, j :| 0 <= i < j < |front| && front[i].name == front[j].name == n;
      assert services[i].name == services[j].name == n;
    }
    if n == services[last].name && n in NamesOf(front) {
      var i :| 0 <= i < |front| && front[i].name == n;
      assert services[i].name == services[last].name == n;
    }
    if RepeatedIn(services, n) {
      var i, j :| 0 <= i < j < |services| && services[i].name == services[j].name == n;
      assert front[i].name == n && (j < last ==> front[j].name == n);
    }
  }

  /** The name errors are about exactly the names that occur again, one for each service beyond their first. */
  lemma {:induction false} DuplicateErrorsMean(services: seq<Service>, e: ValidationError)
    ensures e in DuplicateErrors(services) <==> e.field == "name" && RepeatedIn(services, e.service)
    ensures |DuplicateErrors(services)| == |services| - |NamesOf(services)|
  {
    if services != [] {
      var last := |services| - 1;
      DuplicateErrorsMean(services[..last], e);
      RepeatedGrows(services, e.service);
      NamesGrow(services);
      LastDuplicate(services, e);
    }
  }

  lemma LastDuplicate(services: seq<Service>, e: ValidationError)
    requires services != []
    ensures var last := |services| - 1;
            var again := services[last].name in NamesOf(services[..last]);
            DuplicateErrors(services) == DuplicateErrors(services[..last])
              + if again then [ValidationError("name", services[last].name)] else []
  {
  }

  lemma NamesGrow(services: seq<Service>)
    requires services != []
    ensures var last := |services| - 1;
            NamesOf(services) == NamesOf(services[..last]) + {services[last].name}
  {
    var last := |services| - 1;
    assert forall i :: 0 <= i < last ==> services[i] == services[..last][i];
  }

  lemma {:induction false} SameDuplicates(a: seq<Service>, b: seq<Service>)
    requires |a| == |b| && forall k :: 0 <= k < |a| ==> a[k].name == b[k].name
    ensures DuplicateErrors(a) == DuplicateErrors(b)
  {
    if a != [] {
      SameDuplicates(a[..|a| - 1], b[..|b| - 1]);
    }
  }

  /** The configuration object that `validateConfig` completes in place. */
  class ConfigFile {
    var services: seq<Service>
    var timeouts: Timeouts

    constructor (services: seq<Service>, timeouts: Timeouts)
      ensures this.services == services && this.timeouts == timeouts
    {
      this.services, this.timeouts := services, timeouts;
    }

    method ApplyTimeoutDefaults()
      modifies this`timeouts
      ensures timeouts == WithDefaults(old(timeouts))
    {
      if timeouts.postScript == 0 { timeouts := timeouts.(postScript := 7); }
      if timeouts.serviceShutdown == 0 { timeouts := timeouts.(serviceShutdown := 10); }
      if timeouts.globalShutdown == 0 { timeouts := timeouts.(globalShutdown := 30); }
      if timeouts.dependencyWait == 0 { timeouts := timeouts.(dependencyWait := 300); }
    }

    /** Reports repeated names and makes a missing `enabled` explicit. */
    method CheckNames() returns (errors: seq<ValidationError>)
      modifies this`services
      ensures |services| == |old(services)|
      ensures forall i :: 0 <= i < |services| ==>
                && services[i] == old(services)[i].(enabled := services[i].enabled)
                && (old(services)[i].enabled.None? ==> services[i].enabled == Some(true))
                && (old(services)[i].enabled.Some? ==> services[i].enabled == old(services)[i].enabled)
      ensures errors == DuplicateErrors(old(services))
    {
      hide DuplicateErrors;
      ghost var given := services;
      NoDuplicatesYet(given);
      var serviceNames: set<Name> := {};
      errors := [];
      for i := 0 to |services|
        invariant |services| == |given|
        invariant forall k :: 0 <= k < i ==>
                    && services[k] == given[k].(enabled := services[k].enabled)
                    && services[k].enabled == if given[k].enabled.None? then Some(true) else given[k].enabled
        invariant forall k :: i <= k < |given| ==> services[k] == given[k]
        invariant serviceNames == set k | 0 <= k < i :: given[k].name
        invariant errors == DuplicateErrors(given[..i])
      {
        var service := services[i];
        DuplicatesStep(given, i);
        if service.name in serviceNames {
          errors := errors + [ValidationError("name", service.name)];
        }
        serviceNames := serviceNames + {service.name};
        if service.enabled.None? {
          services := services[i := service.(enabled := Some(true))];
        }
      }
      assert given[..|given|] == given;
    }

    /** `applyServiceEnvOverrides` */
    method ApplyOverrides(flags: Flags)
      modifies this`services
      ensures |services| == |old(services)|
      ensures forall i :: 0 <= i < |services| ==>
                services[i] == old(services)[i].(enabled := Some(flags.LeaveOn(old(services)[i])))
    {
      ghost var given := services;
      for i := 0 to |services|
        invariant |services| == |given|
        invariant forall k :: 0 <= k < i ==> services[k] == given[k].(enabled := Some(flags.LeaveOn(given[k])))
        invariant forall k :: i <= k < |given| ==> services[k] == given[k]
      {
        var service := services[i];
        var enabled := service.IsEnabled();
        if flags.onlyMode {
          enabled := flags.listed(service.name);
        }
        if flags.enable(service.name).Some? {
          enabled := flags.enable(service.name).value;
        }
        if flags.disable(service.name).Some? {
          if flags.disable(service.name).value {
            enabled := false;
          }
        }
        services := services[i := service.(enabled := Some(enabled))];
      }
    }

    /** All errors in order; the configuration is accepted iff there is none, and is then well-formed. */
    method Validate(world: Outside) returns (errors: seq<ValidationError>)
      modifies this
      ensures |services| == |old(services)|
      ensures forall i :: 0 <= i < |services| ==>
                services[i] == old(services)[i].(enabled := Some(world.flags.LeaveOn(old(services)[i])))
      ensures timeouts == WithDefaults(old(timeouts))
      ensures errors == DuplicateErrors(services) + FieldErrors(world, services)
                        + if DependenciesOk(services) then [] else [ValidationError("dependencies", "")]
      ensures errors == [] ==> WellFormed(EnabledServices(services)) && UniqueNames(services)
    {
      hide FieldErrors, DuplicateErrors, ServiceErrors, DependenciesOk, WellFormed, UniqueNames;
      ApplyTimeoutDefaults();
      errors := CheckNames();
      ApplyOverrides(world.flags);
      SameDuplicates(old(services), services);
      NoFieldsNoErrors(world, services);
      ghost var before, all := errors, services;
      for i := 0 to |services|
        invariant services == all && timeouts == WithDefaults(old(timeouts))
        invariant errors == before + FieldErrors(world, all[..i])
      {
        FieldErrorsStep(world, all, i);
        var found := ValidateService(world, i, services[i]);
        errors := errors + found;
      }
      assert all[..|all|] == all;
      var graph := ValidateDependencies(services);
      if graph.Some? {
        errors := errors + [ValidationError("dependencies", "")];
      }
      if errors == [] {
        AcceptedIsWellFormed(world, services);
      }
    }
  }

  method ValidateService(world: Outside, i: nat, s: Service) returns (errors: seq<ValidationError>)
    ensures errors == ServiceErrors(world, i, s)
  {
    hide WaitAfterErrors, RestartErrors;
    errors := world.always(i, s);
    if !s.IsEnabled() {
      return;
    }
    var waits := ValidateWaitAfter(s);
    var restarts := ValidateRestartPolicy(s);
    errors := errors + (world.first(i, s) + waits + world.middle(i, s) + restarts + world.last(i, s));
  }

  lemma BadWaitsStep(w: WaitAfterField, keys: set<Name>, dep: Name)
    requires dep in keys && keys <= w.perDep.Keys
    ensures |BadWaits(w) - (keys - {dep})| == |BadWaits(w) - keys| + if OutOfRange(w.perDep[dep]) then 1 else 0
  {
    if OutOfRange(w.perDep[dep]) {
      assert BadWaits(w) - (keys - {dep}) == (BadWaits(w) - keys) + {dep};
    } else {
      assert BadWaits(w) - (keys - {dep}) == BadWaits(w) - keys;
    }
  }

  method ValidateWaitAfter(s: Service) returns (errors: seq<ValidationError>)
    ensures errors == WaitAfterErrors(s)
  {
    errors := [];
    if s.waitAfter.Some? && s.waitAfter.value.isPerDep {
      var w := s.waitAfter.value;
      var keys := w.perDep.Keys;
      while keys != {}
        invariant keys <= w.perDep.Keys
        invariant errors == Repeat(ValidationError("wait_after", s.name), |BadWaits(w) - keys|)
      {
        var dep :| dep in keys;
        BadWaitsStep(w, keys, dep);
        if w.perDep[dep] < 0 || w.perDep[dep] > 300 {
          errors := errors + [ValidationError("wait_after", s.name)];
        }
        keys := keys - {dep};
      }
      assert BadWaits(w) - {} == BadWaits(w);
    } else if s.waitAfter.Some? {
      if s.waitAfter.value.global < 0 || s.waitAfter.value.global > 300 {
        errors := [ValidationError("wait_after", s.name)];
      }
    }
  }

  method ValidateRestartPolicy(s: Service) returns (errors: seq<ValidationError>)
    ensures errors == RestartErrors(s)
  {
    errors := [];
    if !s.restart.Unset? && s.restart !in {Never, OnFailure, Always} {
      errors := errors + [ValidationError("restart", s.name)];
    }
    if s.restartDelay < 0 { errors := errors + [ValidationError("restart_delay", s.name)]; }
    if s.maxRestarts < 0 { errors := errors + [ValidationError("max_restarts", s.name)]; }
    if s.oneshot && (s.restart.Always? || s.restart.OnFailure?) {
      errors := errors + [ValidationError("restart", s.name)];
    }
  }

  // ----- what acceptance is worth to the supervisor -----

  /**
   No restart error means that the policy is known, delay and limit are not negative, and a one-shot
   has no restarting policy: whatever the exit and the count, it is then never restarted by policy.
   */
  lemma AcceptedRestartPolicy(s: Service)
    ensures RestartErrors(s) == [] <==>
            && !s.restart.Unknown? && s.restartDelay >= 0 && s.maxRestarts >= 0
            && (s.oneshot ==> forall count, failed :: !Supervisor.ExitDecision(s, count, failed).Restart?)
  {
    if s.oneshot && s.RestartsOnFailure() {
      assert Supervisor.ExitDecision(s, s.maxRestarts - 1, true).Restart?;
    }
  }

  /** No `wait_after` error means that every grace period the service can ask for is from 0 to 300 seconds. */
  lemma AcceptedWaits(s: Service)
    ensures WaitAfterErrors(s) == [] <==> forall d :: 0 <= s.WaitFor(d) <= 300
  {
    if s.waitAfter.Some? && s.waitAfter.value.isPerDep {
      var w := s.waitAfter.value;
      if d :| d in BadWaits(w) {
        assert OutOfRange(s.WaitFor(d));
      } else {
        assert forall d :: d in w.perDep ==> d !in BadWaits(w);
      }
    } else if s.waitAfter.Some? {
      assert s.WaitFor("") == s.waitAfter.value.global;
    }
  }

  predicate InRange(seconds: int) { 0 <= seconds <= 300 }

  /** Every wait error is about the service, and there is one for each wait out of range. */
  lemma WaitErrorsMean(s: Service)
    ensures forall e :: e in WaitAfterErrors(s) ==> e == ValidationError("wait_after", s.name)
    ensures s.waitAfter.None? ==> WaitAfterErrors(s) == []
    ensures s.waitAfter.Some? ==>
              var w := s.waitAfter.value;
              |WaitAfterErrors(s)| == if w.isPerDep then |set d | d in w.perDep && !InRange(w.perDep[d])|
                                      else if InRange(w.global) then 0 else 1
  {
    if s.waitAfter.Some? && s.waitAfter.value.isPerDep {
      var w := s.waitAfter.value;
      RepeatMeans(ValidationError("wait_after", s.name), |BadWaits(w)|);
      assert BadWaits(w) == set d | d in w.perDep && !InRange(w.perDep[d]);
    }
  }

  lemma {:induction false} RepeatMeans(e: ValidationError, count: nat)
    ensures |Repeat(e, count)| == count && forall x :: x in Repeat(e, count) ==> x == e
  {
    if count > 0 {
      RepeatMeans(e, count - 1);
    }
  }

  /** Which restart errors there are, by their fields, and that no field is reported twice. */
  lemma RestartErrorsMean(s: Service)
    ensures forall e :: e in RestartErrors(s) <==>
              && e.service == s.name
              && (|| (e.field == "restart"
                      && (s.restart.Unknown? || (s.oneshot && (s.restart.Always? || s.restart.OnFailure?))))
                  || (e.field == "restart_delay" && s.restartDelay < 0)
                  || (e.field == "max_restarts" && s.maxRestarts < 0))
    ensures forall i, j :: 0 <= i < j < |RestartErrors(s)| ==> RestartErrors(s)[i] != RestartErrors(s)[j]
  {
  }

  /** No validator outside objects; the checks of a disabled service stop after its required fields and name. */
  predicate Unobjected(world: Outside, i: nat, s: Service) {
    && world.always(i, s) == []
    && (s.IsEnabled() ==> world.first(i, s) == [] && world.middle(i, s) == [] && world.last(i, s) == [])
  }

  /**
   A service passes exactly when no validator outside objects and, if it is enabled, its grace periods are
   in range, its restart settings are legal, and no exit and no count makes its policy restart a one-shot.
   */
  lemma ServiceAccepted(world: Outside, i: nat, s: Service)
    ensures ServiceErrors(world, i, s) == [] <==>
            && Unobjected(world, i, s)
            && (s.IsEnabled() ==>
                  && (forall d :: 0 <= s.WaitFor(d) <= 300)
                  && !s.restart.Unknown? && s.restartDelay >= 0 && s.maxRestarts >= 0
                  && (s.oneshot ==> forall count, failed :: !Supervisor.ExitDecision(s, count, failed).Restart?))
  {
    hide WaitAfterErrors, RestartErrors;
    AcceptedWaits(s);
    AcceptedRestartPolicy(s);
  }

  ghost predicate UniqueNames(services: seq<Service>) {
    forall i, j :: 0 <= i < j < |services| ==> services[i].name != services[j].name
  }

  lemma {:induction false} NoDuplicateErrors(services: seq<Service>)
    ensures DuplicateErrors(services) == [] <==> UniqueNames(services)
  {
    if services != [] {
      NoDuplicateErrors(services[..|services| - 1]);
    }
  }

  /** The errors about fields are those of the services at every position, switched off or not. */
  lemma {:induction false} FieldErrorsMean(world: Outside, services: seq<Service>, e: ValidationError)
    ensures e in FieldErrors(world, services) <==>
            exists i :: 0 <= i < |services| && e in ServiceErrors(world, i, services[i])
  {
    hide ServiceErrors;
    if services != [] {
      var last := |services| - 1;
      FieldErrorsMean(world, services[..last], e);
      forall i | 0 <= i < last
        ensures ServiceErrors(world, i, services[..last][i]) == ServiceErrors(world, i, services[i]) {}
    }
  }

  lemma NoFieldErrors(world: Outside, services: seq<Service>, i: nat)
    requires FieldErrors(world, services) == [] && i < |services| && services[i].IsEnabled()
    ensures RestartErrors(services[i]) == [] && WaitAfterErrors(services[i]) == []
  {
    var found := ServiceErrors(world, i, services[i]);
    if found != [] {
      FieldErrorsMean(world, services, found[0]);
    }
  }

  /** An accepted configuration gives the supervisor a well-formed dependency graph with unique names. */
  lemma AcceptedIsWellFormed(world: Outside, services: seq<Service>)
    requires DuplicateErrors(services) == [] && FieldErrors(world, services) == [] && DependenciesOk(services)
    ensures WellFormed(EnabledServices(services)) && UniqueNames(services)
    ensures forall i :: 0 <= i < |services| && services[i].IsEnabled() ==>
              services[i].name in EnabledServices(services)
              && EnabledServices(services)[services[i].name] == services[i]
  {
    NoDuplicateErrors(services);
    RefsOkCloses(services);
    var g := EnabledServices(services);
    forall n | n in g
      ensures g[n].name == n && g[n].maxRestarts >= 0 && !g[n].restart.Unknown?
              && (g[n].oneshot ==> !g[n].RestartsOnFailure())
    {
      EnabledServicesFrom(services, n);
      var i :| 0 <= i < |services| && services[i].IsEnabled() && services[i] == g[n] && services[i].name == n;
      NoFieldErrors(world, services, i);
    }
    forall i | 0 <= i < |services| && services[i].IsEnabled()
      ensures services[i].name in g && g[services[i].name] == services[i]
    {
      UniqueIsKept(services, i);
    }
  }

  lemma {:induction false} UniqueIsKept(services: seq<Service>, i: nat)
    requires UniqueNames(services) && i < |services| && services[i].IsEnabled()
    ensures services[i].name in EnabledServices(services) && EnabledServices(services)[services[i].name] == services[i]
  {
    var last := |services| - 1;
    if i < last {
      UniqueIsKept(services[..last], i);
    }
  }
}
