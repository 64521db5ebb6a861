/**
  One deployable configuration, translated twice: by the style sheet into the policy engine's
  document, and by the daemon into the resources it registers.
 */
module Deployables {
  import opened Options

  datatype Reference = Reference(assembly: string, parameter: string)

  datatype Param = Param(name: string, value: string, refs: seq<Reference>)

  datatype Service = Service(name: string, cls: string, kind: string, provider: string,
                             params: seq<Param>, executable: Option<string>)

  datatype Assembly = Assembly(name: string, uuid: string, services: seq<Service>)

  /** A service_dependancy: `then` starts after `first`. */
  datatype Dependency = Dependency(first: string, next: string)

  datatype Deployable = Deployable(assemblies: seq<Assembly>, deps: seq<Dependency>)

  function IdOf(cfg: bool, assembly: string, service: string): string {
    (if cfg then "cfg_" else "rsc_") + assembly + "_" + service
  }

  /** One resource to be: a service, or the script that configures it first. */
  datatype Unit = Unit(assembly: string, service: Service, cfg: bool) {
    function Id(): string {
      IdOf(cfg, assembly, service.name)
    }

    /** Which of the two, and where: enough to tell units apart. */
    function Tag(): (string, string, bool) {
      (assembly, service.name, cfg)
    }
  }

  function ServiceUnits(a: string, s: Service): seq<Unit> {
    [Unit(a, s, false)] + if s.executable.Some? then [Unit(a, s, true)] else []
  }

  function AssemblyUnits(a: string, services: seq<Service>): seq<Unit> {
    if services == [] then [] else ServiceUnits(a, services[0]) + AssemblyUnits(a, services[1..])
  }

  /** All units in the order of the style sheet's nested loops. */
  function Units(assemblies: seq<Assembly>): seq<Unit> {
    if assemblies == [] then []
    else AssemblyUnits(assemblies[0].name, assemblies[0].services) + Units(assemblies[1..])
  }

  ghost predicate DistinctServices(services: seq<Service>) {
    forall i, j :: 0 <= i < j < |services| ==> services[i].name != services[j].name
  }

  /** No assembly name followed by '_' begins another one followed by '_'. */
  ghost predicate PrefixFree(a: string, b: string) {
    !(a + "_" <= b + "_") && !(b + "_" <= a + "_")
  }

  ghost predicate WellNamed(assemblies: seq<Assembly>) {
    && (forall i :: 0 <= i < |assemblies| ==> DistinctServices(assemblies[i].services))
    && (forall i, j :: 0 <= i < j < |assemblies| ==> PrefixFree(assemblies[i].name, assemblies[j].name))
  }

  ghost predicate DistinctTags(us: seq<Unit>) {
    forall i, j :: 0 <= i < j < |us| ==> us[i].Tag() != us[j].Tag()
  }

  lemma DistinctJoin(us: seq<Unit>, vs: seq<Unit>)
    requires DistinctTags(us) && DistinctTags(vs)
    requires forall u, v :: u in us && v in vs ==> u.Tag() != v.Tag()
    ensures DistinctTags(us + vs)
  {
  }

  lemma {:induction false} UnitOfAssembly(a: string, services: seq<Service>, u: Unit)
    ensures u in AssemblyUnits(a, services) <==>
            u.assembly == a && u.service in services && (u.cfg ==> u.service.executable.Some?)
  {
    if services != [] {
      UnitOfAssembly(a, services[1..], u);
      assert services == [services[0]] + services[1..];
    }
  }

  /** A unit for every service of every assembly, and one more for every executable. */
  lemma {:induction false} UnitOf(assemblies: seq<Assembly>, u: Unit)
    ensures u in Units(assemblies) <==>
            (exists a :: a in assemblies && u.assembly == a.name && u.service in a.services)
            && (u.cfg ==> u.service.executable.Some?)
  {
    if assemblies != [] {
      var a := assemblies[0];
      UnitOfAssembly(a.name, a.services, u);
      UnitOf(assemblies[1..], u);
      assert assemblies == [a] + assemblies[1..];
    }
  }

  lemma {:induction false} AssemblyTags(a: string, services: seq<Service>)
    requires DistinctServices(services)
    ensures DistinctTags(AssemblyUnits(a, services))
  {
    if services != [] {
      AssemblyTags(a, services[1..]);
      forall u | u in AssemblyUnits(a, services[1..])
        ensures u.service.name != services[0].name
      {
        UnitOfAssembly(a, services[1..], u);
      }
      DistinctJoin(ServiceUnits(a, services[0]), AssemblyUnits(a, services[1..]));
    }
  }

  lemma {:induction false} AllTags(assemblies: seq<Assembly>)
    requires WellNamed(assemblies)
    ensures DistinctTags(Units(assemblies))
  {
    if assemblies != [] {
      var a, rest := assemblies[0], assemblies[1..];
      AllTags(rest);
      AssemblyTags(a.name, a.services);
      forall u, v | u in AssemblyUnits(a.name, a.services) && v in Units(rest)
        ensures u.Tag() != v.Tag()
      {
        UnitOfAssembly(a.name, a.services, u);
        UnitOf(rest, v);
        var b :| b in rest && v.assembly == b.name;
        assert PrefixFree(a.name, b.name);
      }
      DistinctJoin(AssemblyUnits(a.name, a.services), Units(rest));
    }
  }
}

/** The style sheet's output: primitives and their location constraints. */
module Cib {
  import opened Options
  import opened Deployables

  datatype NvPair = NvPair(name: string, value: string)

  datatype Primitive = Primitive(id: string, cls: string, kind: string, provider: string, attrs: Option<seq<NvPair>>)

  datatype Location = Location(rsc: string, node: string)

  function ParamPairs(params: seq<Param>): (pairs: seq<NvPair>)
    ensures |pairs| == |params|
    ensures forall i :: 0 <= i < |params| ==> pairs[i] == NvPair(params[i].name, params[i].value)
  {
    seq(|params|, i requires 0 <= i < |params| => NvPair(params[i].name, params[i].value))
  }

  function ToPrimitive(u: Unit): Primitive {
    var s := u.service;
    if u.cfg then
      var url := if s.executable.Some? then s.executable.value else "";
      Primitive(u.Id(), "ocf", "script_runner", "pacemaker-cloud",
                Some([NvPair("executable_url", url)] + ParamPairs(s.params)))
    else if s.cls == "ocf" then Primitive(u.Id(), s.cls, s.kind, s.provider, Some(ParamPairs(s.params)))
    else Primitive(u.Id(), s.cls, s.kind, "", None)
  }

  function Primitives(d: Deployable): (ps: seq<Primitive>)
    ensures |ps| == |Units(d.assemblies)|
    ensures forall i :: 0 <= i < |ps| ==> ps[i] == ToPrimitive(Units(d.assemblies)[i])
  {
    var us := Units(d.assemblies);
    seq(|us|, i requires 0 <= i < |us| => ToPrimitive(us[i]))
  }

  function Locations(d: Deployable): (ls: seq<Location>)
    ensures |ls| == |Units(d.assemblies)|
    ensures forall i :: 0 <= i < |ls| ==> ls[i] == Location(Units(d.assemblies)[i].Id(), Units(d.assemblies)[i].assembly)
  {
    var us := Units(d.assemblies);
    seq(|us|, i requires 0 <= i < |us| => Location(us[i].Id(), us[i].assembly))
  }

  // ---- In terms of the configuration ----

  /** The pairs hold the parameters, in order. */
  ghost predicate Holds(pairs: seq<NvPair>, params: seq<Param>) {
    |pairs| == |params| && forall i :: 0 <= i < |params| ==> pairs[i].name == params[i].name && pairs[i].value == params[i].value
  }

  ghost predicate IsService(p: Primitive, a: Assembly, s: Service) {
    && p.id == "rsc_" + a.name + "_" + s.name && p.cls == s.cls && p.kind == s.kind
    && (if s.cls == "ocf" then p.provider == s.provider && p.attrs.Some? && Holds(p.attrs.value, s.params)
        else p.provider == "" && p.attrs == None)
  }

  ghost predicate IsScript(p: Primitive, a: Assembly, s: Service) {
    && s.executable.Some? && p.id == "cfg_" + a.name + "_" + s.name
    && p.cls == "ocf" && p.kind == "script_runner" && p.provider == "pacemaker-cloud"
    && p.attrs.Some? && p.attrs.value != [] && p.attrs.value[0] == NvPair("executable_url", s.executable.value)
    && Holds(p.attrs.value[1..], s.params)
  }

  lemma SamePairs(pairs: seq<NvPair>, params: seq<Param>)
    ensures Holds(pairs, params) <==> pairs == ParamPairs(params)
  {
  }

  lemma ServicePrimitive(p: Primitive, a: Assembly, s: Service)
    ensures IsService(p, a, s) <==> p == ToPrimitive(Unit(a.name, s, false))
  {
    if p.attrs.Some? {
      SamePairs(p.attrs.value, s.params);
    }
  }

  lemma ScriptPrimitive(p: Primitive, a: Assembly, s: Service)
    requires s.executable.Some?
    ensures IsScript(p, a, s) <==> p == ToPrimitive(Unit(a.name, s, true))
  {
    var first := NvPair("executable_url", s.executable.value);
    if p.attrs.Some? && p.attrs.value != [] {
      SamePairs(p.attrs.value[1..], s.params);
      assert p.attrs.value == [p.attrs.value[0]] + p.attrs.value[1..];
    }
    assert ([first] + ParamPairs(s.params))[1..] == ParamPairs(s.params);
  }

  /** The document has a primitive for every service, with its parameters if it is an ocf one, and one for
      every configuration script, with its url and the parameters of its service; and no other. */
  lemma PrimitivesExactly(d: Deployable, p: Primitive)
    ensures p in Primitives(d) <==>
            exists a, s :: a in d.assemblies && s in a.services && (IsService(p, a, s) || IsScript(p, a, s))
  {
    var us := Units(d.assemblies);
    if p in Primitives(d) {
      var i :| 0 <= i < |us| && Primitives(d)[i] == p;
      UnitOf(d.assemblies, us[i]);
      var a :| a in d.assemblies && us[i].assembly == a.name && us[i].service in a.services;
      ServicePrimitive(p, a, us[i].service);
      if us[i].cfg {
        ScriptPrimitive(p, a, us[i].service);
      }
    }
    if a, s :| a in d.assemblies && s in a.services && (IsService(p, a, s) || IsScript(p, a, s)) {
      var u := Unit(a.name, s, !IsService(p, a, s));
      ServicePrimitive(p, a, s);
      if u.cfg {
        ScriptPrimitive(p, a, s);
      }
      UnitOf(d.assemblies, u);
      var i :| 0 <= i < |us| && us[i] == u;
      assert Primitives(d)[i] == p;
    }
  }

  /** And a location constraint for each, on the assembly of its service. */
  lemma LocationsExactly(d: Deployable, rsc: string, node: string)
    ensures Location(rsc, node) in Locations(d) <==>
            exists a, s :: a in d.assemblies && s in a.services && node == a.name
                           && (rsc == "rsc_" + a.name + "_" + s.name
                               || (s.executable.Some? && rsc == "cfg_" + a.name + "_" + s.name))
  {
    var us := Units(d.assemblies);
    if Location(rsc, node) in Locations(d) {
      var i :| 0 <= i < |us| && Locations(d)[i] == Location(rsc, node);
      UnitOf(d.assemblies, us[i]);
    }
    if a, s :| a in d.assemblies && s in a.services && node == a.name
               && (rsc == "rsc_" + a.name + "_" + s.name
                   || (s.executable.Some? && rsc == "cfg_" + a.name + "_" + s.name)) {
      var u := Unit(a.name, s, rsc != "rsc_" + a.name + "_" + s.name);
      UnitOf(d.assemblies, u);
      var i :| 0 <= i < |us| && us[i] == u;
      assert Locations(d)[i] == Location(rsc, node);
    }
  }

  lemma NamesSplit(a: string, s: string, b: string, t: string)
    requires a + "_" + s == b + "_" + t && (a == b || PrefixFree(a, b))
    ensures a == b && s == t
  {
    var x := a + "_" + s;
    assert x[..|a| + 1] == a + "_" && x[..|b| + 1] == b + "_";
    assert |a| <= |b| ==> (b + "_")[..|a| + 1] == x[..|a| + 1];
    assert |b| <= |a| ==> (a + "_")[..|b| + 1] == x[..|b| + 1];
    assert x[|a| + 1..] == s && x[|b| + 1..] == t;
  }

  lemma NamesApart(assemblies: seq<Assembly>, u: Unit, v: Unit)
    requires WellNamed(assemblies) && u in Units(assemblies) && v in Units(assemblies)
    ensures u.assembly == v.assembly || PrefixFree(u.assembly, v.assembly)
  {
    UnitOf(assemblies, u);
    UnitOf(assemblies, v);
    var a :| a in assemblies && u.assembly == a.name;
    var b :| b in assemblies && v.assembly == b.name;
    var i :| 0 <= i < |assemblies| && assemblies[i] == a;
    var j :| 0 <= j < |assemblies| && assemblies[j] == b;
    if i < j {
      assert PrefixFree(assemblies[i].name, assemblies[j].name);
    } else if j < i {
      assert PrefixFree(assemblies[j].name, assemblies[i].name);
    }
  }

  lemma IdParts(cfg: bool, a: string, name: string)
    ensures |IdOf(cfg, a, name)| >= 4 && IdOf(cfg, a, name)[0] == (if cfg then 'c' else 'r')
    ensures IdOf(cfg, a, name)[4..] == a + "_" + name
  {
  }

  lemma IdTellsTag(assemblies: seq<Assembly>, u: Unit, v: Unit)
    requires WellNamed(assemblies) && u in Units(assemblies) && v in Units(assemblies) && u.Id() == v.Id()
    ensures u.Tag() == v.Tag()
  {
    NamesApart(assemblies, u, v);
    IdParts(u.cfg, u.assembly, u.service.name);
    IdParts(v.cfg, v.assembly, v.service.name);
    NamesSplit(u.assembly, u.service.name, v.assembly, v.service.name);
  }

  /** Primitive ids are pairwise distinct. */
  lemma IdsDistinct(d: Deployable, i: nat, j: nat)
    requires WellNamed(d.assemblies) && i < |Primitives(d)| && j < |Primitives(d)|
    ensures Primitives(d)[i].id == Primitives(d)[j].id ==> i == j
  {
    var us := Units(d.assemblies);
    AllTags(d.assemblies);
    if us[i].Id() == us[j].Id() {
      IdTellsTag(d.assemblies, us[i], us[j]);
    }
  }

  /** Each primitive is pinned by exactly one location constraint, to the assembly it came from. */
  lemma PinnedToOwnAssembly(d: Deployable, i: nat, j: nat)
    requires WellNamed(d.assemblies) && i < |Primitives(d)| && j < |Locations(d)|
    ensures Locations(d)[j].rsc == Primitives(d)[i].id <==> j == i
    ensures Locations(d)[i].node == Units(d.assemblies)[i].assembly
  {
    IdsDistinct(d, i, j);
  }

  /** The condition on names is exact: two assemblies can have services with one id if and only if one
      name followed by '_' begins the other so followed. */
  lemma PrefixedNamesClash(cfg: bool, a: string, b: string)
    requires a != b
    ensures (exists s: string, t: string :: IdOf(cfg, a, s) == IdOf(cfg, b, t)) <==> !PrefixFree(a, b)
  {
    if a + "_" <= b + "_" {
      LongerName(cfg, a, b);
    } else if b + "_" <= a + "_" {
      LongerName(cfg, b, a);
    } else {
      forall s: string, t: string ensures IdOf(cfg, a, s) != IdOf(cfg, b, t) {
        if IdOf(cfg, a, s) == IdOf(cfg, b, t) {
          assert IdOf(cfg, a, s)[4..] == a + "_" + s && IdOf(cfg, b, t)[4..] == b + "_" + t;
          NamesSplit(a, s, b, t);
        }
      }
    }
  }

  lemma LongerName(cfg: bool, a: string, b: string)
    requires a + "_" <= b + "_"
    ensures IdOf(cfg, a, (b + "_")[|a| + 1..] + "httpd") == IdOf(cfg, b, "httpd")
  {
    var kind, rest := if cfg then "cfg_" else "rsc_", (b + "_")[|a| + 1..];
    assert IdOf(cfg, a, rest + "httpd") == kind + ((a + "_") + rest) + "httpd";
    assert (a + "_") + rest == b + "_";
    assert IdOf(cfg, b, "httpd") == kind + (b + "_") + "httpd";
  }
}

/** The resources the daemon registers from the same configuration, and how it finds the values
    in the document that refer to other assemblies. */
module ResourceCreation {
  import opened Options
  import opened Deployables
  import opened Cib

  /** sizeof resource_name minus the terminator: ASSEMBLY_NAME_MAX + RESOURCE_NAME_MAX + 5. */
  const NAME_MAX := 2053

  /** What snprintf leaves in the buffer. */
  function Name(u: Unit): string {
    if |u.Id()| <= NAME_MAX then u.Id() else u.Id()[..NAME_MAX]
  }

  /** Every entry is one of `units` under its name, and every one of them has an entry. */
  ghost predicate Registers(resources: map<string, Unit>, units: seq<Unit>) {
    && (forall name :: name in resources ==> Name(resources[name]) == name && resources[name] in units)
    && (forall u :: u in units ==> Name(u) in resources)
  }

  function WithService(resources: map<string, Unit>, a: string, s: Service): map<string, Unit> {
    var cfg, rsc := Unit(a, s, true), Unit(a, s, false);
    (if s.executable.Some? then resources[Name(cfg) := cfg] else resources)[Name(rsc) := rsc]
  }

  lemma RegisterService(before: map<string, Unit>, units: seq<Unit>, a: string, s: Service,
                        resources: map<string, Unit>, all: seq<Unit>)
    requires Registers(before, units)
    requires resources == WithService(before, a, s) && all == units + ServiceUnits(a, s)
    ensures Registers(resources, all)
  {
  }

  lemma {:induction false} OneMoreService(a: string, before: seq<Service>, s: Service)
    ensures AssemblyUnits(a, before + [s]) == AssemblyUnits(a, before) + ServiceUnits(a, s)
  {
    if before == [] {
      assert (before + [s])[1..] == [];
    } else {
      OneMoreService(a, before[1..], s);
      assert (before + [s])[1..] == before[1..] + [s];
    }
  }

  function Created(a: string, services: seq<Service>): map<string, Unit> {
    if services == [] then map[]
    else WithService(Created(a, services[..|services| - 1]), a, services[|services| - 1])
  }

  lemma {:induction false} CreatedRegisters(a: string, services: seq<Service>)
    ensures Registers(Created(a, services), AssemblyUnits(a, services))
  {
    if services != [] {
      var before, s := services[..|services| - 1], services[|services| - 1];
      assert services == before + [s];
      CreatedRegisters(a, before);
      OneMoreService(a, before, s);
      RegisterService(Created(a, before), AssemblyUnits(a, before), a, s, Created(a, services), AssemblyUnits(a, services));
    }
  }

  /** resources_create: the configuration resource of a service first, then the service itself. */
  method ResourcesCreate(a: string, services: seq<Service>) returns (resources: map<string, Unit>)
    ensures resources == Created(a, services)
    ensures Registers(resources, AssemblyUnits(a, services))
  {
    resources := map[];
    var i := 0;
    while i < |services|
      invariant i <= |services| && resources == Created(a, services[..i])
    {
      var s := services[i];
      assert services[..i + 1][..i] == services[..i];
      if s.executable.Some? {
        var cfg := Unit(a, s, true);
        resources := resources[Name(cfg) := cfg];
      }
      var rsc := Unit(a, s, false);
      resources := resources[Name(rsc) := rsc];
      i := i + 1;
    }
    assert services[..i] == services;
    CreatedRegisters(a, services);
  }

  /** All names fit the buffer. */
  ghost predicate NamesFit(d: Deployable) {
    forall u :: u in Units(d.assemblies) ==> |u.Id()| <= NAME_MAX
  }

  /** The two translations agree: the names the daemon's loop registers for an assembly are exactly the
      ids of the primitives pinned to it. */
  lemma SameResources(d: Deployable, a: Assembly, name: string)
    requires WellNamed(d.assemblies) && NamesFit(d) && a in d.assemblies
    ensures name in Created(a.name, a.services) <==> Pinned(d, a.name, name)
  {
    CreatedRegisters(a.name, a.services);
    if Registered(a, name) {
      var u :| u in AssemblyUnits(a.name, a.services) && Name(u) == name;
      RegisteredIsPinned(d, a, u);
    }
    if Pinned(d, a.name, name) {
      var i :| 0 <= i < |Primitives(d)| && Primitives(d)[i].id == name && Locations(d)[i].node == a.name;
      PinnedIsRegistered(d, a, i);
    }
  }

  ghost predicate Registered(a: Assembly, name: string) {
    exists u :: u in AssemblyUnits(a.name, a.services) && Name(u) == name
  }

  ghost predicate Pinned(d: Deployable, node: string, id: string) {
    exists i :: 0 <= i < |Primitives(d)| && Primitives(d)[i].id == id && Locations(d)[i].node == node
  }

  lemma RegisteredIsPinned(d: Deployable, a: Assembly, u: Unit)
    requires NamesFit(d) && a in d.assemblies && u in AssemblyUnits(a.name, a.services)
    ensures Pinned(d, a.name, Name(u))
  {
    UnitOfAssembly(a.name, a.services, u);
    UnitOf(d.assemblies, u);
    var us := Units(d.assemblies);
    var i :| 0 <= i < |us| && us[i] == u;
    assert Primitives(d)[i].id == Name(u) && Locations(d)[i].node == a.name;
  }

  lemma PinnedIsRegistered(d: Deployable, a: Assembly, i: nat)
    requires WellNamed(d.assemblies) && NamesFit(d) && a in d.assemblies
    requires i < |Primitives(d)| && Locations(d)[i].node == a.name
    ensures Registered(a, Primitives(d)[i].id)
  {
    var u := Units(d.assemblies)[i];
    UnitOf(d.assemblies, u);
    var b :| b in d.assemblies && u.assembly == b.name && u.service in b.services;
    SameName(d.assemblies, a, b);
    UnitOfAssembly(a.name, a.services, u);
    assert Name(u) == Primitives(d)[i].id;
  }

  lemma SameName(assemblies: seq<Assembly>, a: Assembly, b: Assembly)
    requires WellNamed(assemblies) && a in assemblies && b in assemblies && a.name == b.name
    ensures a == b
  {
  }

  // ---- Finding the value of a parameter in the document ----

  datatype Node = Node(primitive: nat, pair: nat)

  function FindPrimitive(ps: seq<Primitive>, id: string): (r: Option<nat>)
    ensures match r
            case Some(i) => i < |ps| && ps[i].id == id && forall j :: 0 <= j < i ==> ps[j].id != id
            case None => forall j :: 0 <= j < |ps| ==> ps[j].id != id
    decreases |ps|
  {
    if ps == [] then None
    else
      var n := |ps| - 1;
      var earlier := FindPrimitive(ps[..n], id);
      if earlier.Some? then earlier else if ps[n].id == id then Some(n) else None
  }

  function FindPair(pairs: seq<NvPair>, name: string): (r: Option<nat>)
    ensures match r
            case Some(i) => i < |pairs| && pairs[i].name == name && forall j :: 0 <= j < i ==> pairs[j].name != name
            case None => forall j :: 0 <= j < |pairs| ==> pairs[j].name != name
    decreases |pairs|
  {
    if pairs == [] then None
    else
      var n := |pairs| - 1;
      var earlier := FindPair(pairs[..n], name);
      if earlier.Some? then earlier else if pairs[n].name == name then Some(n) else None
  }

  function FindParameter(ps: seq<Primitive>, id: string, name: string): Option<Node> {
    var i := FindPrimitive(ps, id);
    if i.None? || ps[i.value].attrs.None? then None
    else
      var j := FindPair(ps[i.value].attrs.value, name);
      if j.None? then None else Some(Node(i.value, j.value))
  }

  /** find_pe_parameter: two walks over the children of the document. */
  method FindPeParameter(ps: seq<Primitive>, id: string, name: string) returns (node: Option<Node>)
    ensures node == FindParameter(ps, id, name)
  {
    var i := 0;
    while i < |ps| && ps[i].id != id
      invariant i <= |ps| && forall k :: 0 <= k < i ==> ps[k].id != id
    {
      i := i + 1;
    }
    if i == |ps| || ps[i].attrs.None? {
      return None;
    }
    var pairs, j := ps[i].attrs.value, 0;
    while j < |pairs| && pairs[j].name != name
      invariant j <= |pairs| && forall k :: 0 <= k < j ==> pairs[k].name != name
    {
      j := j + 1;
    }
    return if j == |pairs| then None else Some(Node(i, j));
  }

  /** The daemon looks for reference parameters of configuration scripts and of ocf services. */
  predicate TakesParams(u: Unit) {
    u.cfg || u.service.cls == "ocf"
  }

  /** The daemon looks a parameter up under the name it registered. It finds the value in the unit's own
      primitive, so that the assertion on it holds, if and only if that name was not cut off. */
  lemma ReferenceNodeFound(d: Deployable, i: nat, p: Param)
    requires WellNamed(d.assemblies) && i < |Units(d.assemblies)|
    requires var u := Units(d.assemblies)[i]; TakesParams(u) && p in u.service.params
    ensures var u := Units(d.assemblies)[i];
            var node := FindParameter(Primitives(d), Name(u), p.name);
            && (node.Some? && node.value.primitive == i <==> |u.Id()| <= NAME_MAX)
            && (|u.Id()| <= NAME_MAX ==>
                 && ToPrimitive(u).attrs.Some? && node.value.pair < |ToPrimitive(u).attrs.value|
                 && ToPrimitive(u).attrs.value[node.value.pair].name == p.name)
  {
    var u := Units(d.assemblies)[i];
    assert Primitives(d)[i].id == u.Id();
    if |u.Id()| <= NAME_MAX {
      var found := FindPrimitive(Primitives(d), u.Id());
      IdsDistinct(d, found.value, i);
      var k :| 0 <= k < |u.service.params| && u.service.params[k] == p;
      var pairs := ToPrimitive(u).attrs.value;
      assert pairs[if u.cfg then k + 1 else k].name == p.name;
    }
  }

  /** With a name that is too long, and no other resource, nothing is found and the assertion fails. */
  lemma LongNameNotFound(a: string, s: Service, parameter: string)
    requires |IdOf(false, a, s.name)| > NAME_MAX && s.executable.None?
    ensures var d := Deployable([Assembly(a, "", [s])], []);
            && Units(d.assemblies) == [Unit(a, s, false)]
            && FindParameter(Primitives(d), Name(Unit(a, s, false)), parameter) == None
  {
    var u, d := Unit(a, s, false), Deployable([Assembly(a, "", [s])], []);
    assert AssemblyUnits(a, [s]) == [u] + AssemblyUnits(a, []);
    assert Units(d.assemblies) == AssemblyUnits(a, [s]) + Units([]);
    assert Primitives(d)[0].id == u.Id() && |Name(u)| < |u.Id()|;
  }

  // ---- Which host's resource it is ----

  predicate OccursAt(text: string, part: string, i: nat) {
    i + |part| <= |text| && text[i..i + |part|] == part
  }

  /** strstr finds `part` in `text`. */
  ghost predicate Contains(text: string, part: string) {
    exists i: nat :: OccursAt(text, part, i)
  }

  /** A resource's name always mentions its own host, so an action there takes the branch for a
      resource that is there. */
  lemma OwnHostMentioned(u: Unit)
    requires |u.assembly| + 4 <= NAME_MAX
    ensures Contains(Name(u), u.assembly)
  {
    var rest := "_" + u.service.name;
    assert u.Id() == (if u.cfg then "cfg_" else "rsc_") + (u.assembly + rest);
    assert OccursAt(u.Id(), u.assembly, 4);
    assert OccursAt(Name(u), u.assembly, 4) by {
      if |u.Id()| > NAME_MAX {
        CutKeeps(u.Id(), NAME_MAX, 4, 4 + |u.assembly|);
      }
    }
  }

  lemma CutKeeps(text: string, n: nat, i: nat, j: nat)
    requires i <= j <= n <= |text|
    ensures text[..n][i..j] == text[i..j]
  {
  }

  /** But it may mention another host too: then a probe there takes that branch as well. */
  lemma NeighbourMentioned()
    ensures var u := Unit("web2", Service("httpd", "lsb", "", "", [], None), false);
            u.assembly != "web" && Contains(Name(u), "web")
  {
    var u := Unit("web2", Service("httpd", "lsb", "", "", [], None), false);
    assert u.Id() == "rsc_web2_httpd";
    assert OccursAt(Name(u), "web", 4);
  }
}
