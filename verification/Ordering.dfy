/**
  The order constraints of the policy document: the user's dependencies, and a constraint that runs
  each configuration script before its service. When do the two together go round in a circle?
 */
module Ordering {
  import opened Options
  import opened Deployables

  datatype Edge = Edge(first: string, next: string)

  /** A configuration script runs before its service. */
  function CfgEdges(us: seq<Unit>): seq<Edge> {
    if us == [] then []
    else (if us[0].cfg then [Edge(us[0].Id(), us[0].(cfg := false).Id())] else []) + CfgEdges(us[1..])
  }

  function DepEdges(deps: seq<Dependency>): seq<Edge> {
    seq(|deps|, i requires 0 <= i < |deps| => Edge(deps[i].first, deps[i].next))
  }

  function Orders(d: Deployable): seq<Edge> {
    CfgEdges(Units(d.assemblies)) + DepEdges(d.deps)
  }

  ghost predicate Path(edges: seq<Edge>, walk: seq<string>) {
    |walk| > 0 && forall i :: 0 <= i < |walk| - 1 ==> Edge(walk[i], walk[i + 1]) in edges
  }

  /** A closed walk along the edges. */
  ghost predicate Cycle(edges: seq<Edge>, walk: seq<string>) {
    Path(edges, walk) && |walk| > 1 && walk[0] == walk[|walk| - 1]
  }

  ghost predicate Acyclic(edges: seq<Edge>) {
    forall walk :: !Cycle(edges, walk)
  }

  predicate IsCfgId(name: string) {
    "cfg_" <= name
  }

  lemma {:induction false} CfgEdgeShape(us: seq<Unit>, e: Edge)
    requires e in CfgEdges(us)
    ensures IsCfgId(e.first) && !IsCfgId(e.next)
  {
    var u := us[0];
    if e in CfgEdges(us[1..]) {
      CfgEdgeShape(us[1..], e);
    } else {
      assert u.Id()[..4] == "cfg_" && u.(cfg := false).Id()[..4] == "rsc_";
    }
  }

  // ---- Waiting for a script is waiting to come before its service ----

  function After(e: Edge, cfgs: seq<Edge>): seq<Edge> {
    if cfgs == [] then []
    else (if e.next == cfgs[0].first then [Edge(e.first, cfgs[0].next)] else []) + After(e, cfgs[1..])
  }

  /** A dependency into a script, taken on to the script's service. */
  function Through(deps: seq<Edge>, cfgs: seq<Edge>): seq<Edge> {
    if deps == [] then [] else After(deps[0], cfgs) + Through(deps[1..], cfgs)
  }

  /** The user's dependencies as they bear on the services themselves. */
  function UserOrder(d: Deployable): seq<Edge> {
    DepEdges(d.deps) + Through(DepEdges(d.deps), CfgEdges(Units(d.assemblies)))
  }

  lemma {:induction false} InAfter(e: Edge, cfgs: seq<Edge>, x: Edge)
    ensures x in After(e, cfgs) <==> x.first == e.first && Edge(e.next, x.next) in cfgs
  {
    if cfgs != [] {
      InAfter(e, cfgs[1..], x);
      assert cfgs == [cfgs[0]] + cfgs[1..];
    }
  }

  ghost predicate ViaScript(deps: seq<Edge>, cfgs: seq<Edge>, x: Edge) {
    exists m :: Edge(x.first, m) in deps && Edge(m, x.next) in cfgs
  }

  lemma {:induction false} InThrough(deps: seq<Edge>, cfgs: seq<Edge>, x: Edge)
    ensures x in Through(deps, cfgs) <==> ViaScript(deps, cfgs, x)
  {
    if deps != [] {
      InAfter(deps[0], cfgs, x);
      InThrough(deps[1..], cfgs, x);
      assert deps == [deps[0]] + deps[1..];
      if x in After(deps[0], cfgs) {
        assert Edge(x.first, deps[0].next) in deps;
      }
    }
  }

  lemma PathStep(edges: seq<Edge>, walk: seq<string>, to: string)
    requires Path(edges, walk) && Edge(walk[|walk| - 1], to) in edges
    ensures Path(edges, walk + [to])
  {
    var longer := walk + [to];
    forall i | 0 <= i < |longer| - 1 ensures Edge(longer[i], longer[i + 1]) in edges {
      if i < |walk| - 1 {
        assert Edge(walk[i], walk[i + 1]) in edges;
      }
    }
  }

  /** A path that begins with a dependency, with every detour through a script cut short. */
  lemma {:induction false} Shorten(d: Deployable, walk: seq<string>) returns (short: seq<string>)
    requires Path(Orders(d), walk) && (|walk| > 1 ==> Edge(walk[0], walk[1]) in DepEdges(d.deps))
    ensures Path(UserOrder(d), short) && short[0] == walk[0] && short[|short| - 1] == walk[|walk| - 1]
    ensures |walk| > 1 ==> |short| > 1
    decreases |walk|
  {
    var n := |walk| - 1;
    if n == 0 {
      short := walk;
      return;
    }
    var deps, cfgs := DepEdges(d.deps), CfgEdges(Units(d.assemblies));
    var last := Edge(walk[n - 1], walk[n]);
    if last in deps {
      short := Shorten(d, walk[..n]);
      PathStep(UserOrder(d), short, walk[n]);
      short := short + [walk[n]];
    } else {
      CfgEdgeShape(Units(d.assemblies), last);
      var before := Edge(walk[n - 2], walk[n - 1]);
      if before in cfgs {
        CfgEdgeShape(Units(d.assemblies), before);
      }
      InThrough(deps, cfgs, Edge(walk[n - 2], walk[n]));
      short := Shorten(d, walk[..n - 1]);
      PathStep(UserOrder(d), short, walk[n]);
      short := short + [walk[n]];
    }
  }

  /** And back: every detour put in again. */
  lemma {:induction false} Expand(d: Deployable, walk: seq<string>) returns (long: seq<string>)
    requires Path(UserOrder(d), walk)
    ensures Path(Orders(d), long) && long[0] == walk[0] && long[|long| - 1] == walk[|walk| - 1] && |long| >= |walk|
    decreases |walk|
  {
    var n := |walk| - 1;
    if n == 0 {
      long := walk;
      return;
    }
    var deps, cfgs := DepEdges(d.deps), CfgEdges(Units(d.assemblies));
    var last := Edge(walk[n - 1], walk[n]);
    long := Expand(d, walk[..n]);
    if last !in deps {
      InThrough(deps, cfgs, last);
      var m :| Edge(last.first, m) in deps && Edge(m, last.next) in cfgs;
      PathStep(Orders(d), long, m);
      long := long + [m];
    }
    PathStep(Orders(d), long, walk[n]);
    long := long + [walk[n]];
  }

  /** A cycle can be entered at a dependency: from a script only its service follows, and from there a
      dependency. */
  lemma Rotate(d: Deployable, walk: seq<string>) returns (turned: seq<string>)
    requires Cycle(Orders(d), walk)
    ensures Cycle(Orders(d), turned) && Edge(turned[0], turned[1]) in DepEdges(d.deps)
  {
    var first := Edge(walk[0], walk[1]);
    if first in DepEdges(d.deps) {
      turned := walk;
    } else {
      var us := Units(d.assemblies);
      CfgEdgeShape(us, first);
      assert |walk| > 2;
      turned := walk[1..] + [walk[1]];
      PathStep(Orders(d), walk[1..], walk[1]);
      if Edge(turned[0], turned[1]) in CfgEdges(us) {
        CfgEdgeShape(us, Edge(turned[0], turned[1]));
      }
    }
  }

  lemma AcyclicAlike(d: Deployable)
    ensures Acyclic(Orders(d)) <==> Acyclic(UserOrder(d))
  {
    if walk :| Cycle(Orders(d), walk) {
      var turned := Rotate(d, walk);
      var short := Shorten(d, turned);
      assert Cycle(UserOrder(d), short);
    }
    if walk :| Cycle(UserOrder(d), walk) {
      var long := Expand(d, walk);
      assert Cycle(Orders(d), long);
    }
  }

  // ---- In terms of the configuration ----

  /** `x` is the configuration script of the service `y`. */
  ghost predicate ScriptOf(d: Deployable, x: string, y: string) {
    exists a, s :: a in d.assemblies && s in a.services && s.executable.Some?
                   && x == "cfg_" + a.name + "_" + s.name && y == "rsc_" + a.name + "_" + s.name
  }

  lemma {:induction false} InCfgEdges(us: seq<Unit>, x: string, y: string)
    ensures Edge(x, y) in CfgEdges(us) <==> exists u :: u in us && u.cfg && x == u.Id() && y == u.(cfg := false).Id()
  {
    if us != [] {
      InCfgEdges(us[1..], x, y);
      assert us == [us[0]] + us[1..];
    }
  }

  lemma CfgEdgeIsScript(d: Deployable, x: string, y: string)
    ensures Edge(x, y) in CfgEdges(Units(d.assemblies)) <==> ScriptOf(d, x, y)
  {
    var us := Units(d.assemblies);
    InCfgEdges(us, x, y);
    if Edge(x, y) in CfgEdges(us) {
      var u :| u in us && u.cfg && x == u.Id() && y == u.(cfg := false).Id();
      UnitOf(d.assemblies, u);
    }
    if ScriptOf(d, x, y) {
      var a, s :| a in d.assemblies && s in a.services && s.executable.Some?
                  && x == "cfg_" + a.name + "_" + s.name && y == "rsc_" + a.name + "_" + s.name;
      UnitOf(d.assemblies, Unit(a.name, s, true));
    }
  }

  lemma DepEdgeIsDependency(deps: seq<Dependency>, x: string, y: string)
    ensures Edge(x, y) in DepEdges(deps) <==> Dependency(x, y) in deps
  {
    if Edge(x, y) in DepEdges(deps) {
      var i :| 0 <= i < |deps| && DepEdges(deps)[i] == Edge(x, y);
      assert deps[i] == Dependency(x, y);
    }
    if Dependency(x, y) in deps {
      var i :| 0 <= i < |deps| && deps[i] == Dependency(x, y);
      assert DepEdges(deps)[i] == Edge(x, y);
    }
  }

  /** The generated constraints are the user's dependencies, and one from each configuration script to its
      service; no more and no fewer. */
  lemma OrdersExactly(d: Deployable, x: string, y: string)
    ensures Edge(x, y) in Orders(d) <==> Dependency(x, y) in d.deps || ScriptOf(d, x, y)
  {
    CfgEdgeIsScript(d, x, y);
    DepEdgeIsDependency(d.deps, x, y);
  }

  /** `y` has to wait for `x` by a dependency of the user's, directly or because its script has to. */
  ghost predicate WaitsFor(d: Deployable, x: string, y: string) {
    Dependency(x, y) in d.deps || exists m :: Dependency(x, m) in d.deps && ScriptOf(d, m, y)
  }

  lemma UserOrderIsWaiting(d: Deployable, x: string, y: string)
    ensures Edge(x, y) in UserOrder(d) <==> WaitsFor(d, x, y)
  {
    var deps, cfgs := DepEdges(d.deps), CfgEdges(Units(d.assemblies));
    DepEdgeIsDependency(d.deps, x, y);
    InThrough(deps, cfgs, Edge(x, y));
    forall m ensures (Edge(x, m) in deps <==> Dependency(x, m) in d.deps) && (Edge(m, y) in cfgs <==> ScriptOf(d, m, y)) {
      DepEdgeIsDependency(d.deps, x, m);
      CfgEdgeIsScript(d, m, y);
    }
  }

  /** A closed walk in which every step is one that waits for the one before it. */
  ghost predicate WaitingCycle(d: Deployable, walk: seq<string>) {
    && |walk| > 1 && walk[0] == walk[|walk| - 1]
    && forall i :: 0 <= i < |walk| - 1 ==> WaitsFor(d, walk[i], walk[i + 1])
  }

  lemma SameCycles(d: Deployable, walk: seq<string>)
    ensures WaitingCycle(d, walk) <==> Cycle(UserOrder(d), walk)
  {
    forall i | 0 <= i < |walk| - 1
      ensures Edge(walk[i], walk[i + 1]) in UserOrder(d) <==> WaitsFor(d, walk[i], walk[i + 1])
    {
      UserOrderIsWaiting(d, walk[i], walk[i + 1]);
    }
  }

  /** For every configuration: the generated order is acyclic if and only if the user's dependencies never
      go round in a circle, when one that makes a configuration script wait is read as making its
      service wait. */
  lemma OrderAcyclic(d: Deployable)
    ensures Acyclic(Orders(d)) <==> forall walk :: !WaitingCycle(d, walk)
  {
    AcyclicAlike(d);
    forall walk ensures WaitingCycle(d, walk) <==> Cycle(UserOrder(d), walk) {
      SameCycles(d, walk);
    }
  }

  /** No user dependency makes a configuration script wait. */
  ghost predicate NothingBeforeCfg(deps: seq<Dependency>) {
    forall i :: 0 <= i < |deps| ==> !IsCfgId(deps[i].next)
  }

  lemma NoDetour(d: Deployable, x: string, y: string)
    requires NothingBeforeCfg(d.deps)
    ensures WaitsFor(d, x, y) <==> Dependency(x, y) in d.deps
  {
    forall m | ScriptOf(d, m, y) ensures Dependency(x, m) !in d.deps {
      CfgEdgeIsScript(d, m, y);
      CfgEdgeShape(Units(d.assemblies), Edge(m, y));
    }
  }

  /** A closed walk along the user's dependencies. */
  ghost predicate DependencyCycle(deps: seq<Dependency>, walk: seq<string>) {
    && |walk| > 1 && walk[0] == walk[|walk| - 1]
    && forall i :: 0 <= i < |walk| - 1 ==> Dependency(walk[i], walk[i + 1]) in deps
  }

  /** So the added constraints never create a cycle when no dependency makes a script wait. */
  lemma OrderAcyclicForServices(d: Deployable)
    requires NothingBeforeCfg(d.deps)
    ensures Acyclic(Orders(d)) <==> forall walk :: !DependencyCycle(d.deps, walk)
  {
    OrderAcyclic(d);
    forall walk ensures WaitingCycle(d, walk) <==> DependencyCycle(d.deps, walk) {
      forall i | 0 <= i < |walk| - 1
        ensures WaitsFor(d, walk[i], walk[i + 1]) <==> Dependency(walk[i], walk[i + 1]) in d.deps
      {
        NoDetour(d, walk[i], walk[i + 1]);
      }
    }
  }

  /** And they do whenever a script waits for its own service. */
  lemma CfgDependencyCycles(d: Deployable, cfg: string, rsc: string)
    requires ScriptOf(d, cfg, rsc) && Dependency(rsc, cfg) in d.deps
    ensures !Acyclic(Orders(d))
  {
    var walk := [rsc, rsc];
    assert WaitsFor(d, rsc, rsc);
    assert WaitingCycle(d, walk);
    OrderAcyclic(d);
  }
}
