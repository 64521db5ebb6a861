/**
  Values in the policy document that stand for another assembly's address or name, and why they
  are right whenever that assembly is RUNNING.
 */
module AddressRefs {
  import opened Options
  import opened RecoverStates
  import opened Deployables
  import opened Cib
  import opened ResourceCreation

  /** struct reference_param: where the value is, and what it refers to. */
  datatype RefParam = RefParam(node: Node, assembly: string, parameter: string)

  /** The references of a parameter are put into a map under its name, so the last one stays. */
  function LastRef(p: Param): Reference
    requires p.refs != []
  {
    p.refs[|p.refs| - 1]
  }

  /** The references of one resource's parameters, as resource_add_ref_params records them. */
  function ParamRefs(ps: seq<Primitive>, u: Unit, params: seq<Param>): seq<RefParam> {
    if params == [] then []
    else
      var p := params[0];
      var node := FindParameter(ps, Name(u), p.name);
      (if p.refs == [] || node.None? then [] else [RefParam(node.value, LastRef(p).assembly, LastRef(p).parameter)])
      + ParamRefs(ps, u, params[1..])
  }

  function UnitRefs(ps: seq<Primitive>, u: Unit): seq<RefParam> {
    if TakesParams(u) then ParamRefs(ps, u, u.service.params) else []
  }

  /** One list for each resource of the daemon. */
  function References(d: Deployable): (refs: seq<seq<RefParam>>)
    ensures |refs| == |Units(d.assemblies)|
    ensures forall i :: 0 <= i < |refs| ==> refs[i] == UnitRefs(Primitives(d), Units(d.assemblies)[i])
  {
    var us := Units(d.assemblies);
    seq(|us|, i requires 0 <= i < |us| => UnitRefs(Primitives(d), us[i]))
  }

  ghost predicate DistinctNodes(refs: seq<RefParam>) {
    forall i, j :: 0 <= i < j < |refs| ==> refs[i].node != refs[j].node
  }

  ghost predicate DistinctParams(params: seq<Param>) {
    forall i, j :: 0 <= i < j < |params| ==> params[i].name != params[j].name
  }

  lemma {:induction false} ParamRefOrigin(ps: seq<Primitive>, u: Unit, params: seq<Param>, r: RefParam)
    requires r in ParamRefs(ps, u, params)
    ensures exists p :: p in params && FindParameter(ps, Name(u), p.name) == Some(r.node)
  {
    if r in ParamRefs(ps, u, params[1..]) {
      ParamRefOrigin(ps, u, params[1..], r);
      var p :| p in params[1..] && FindParameter(ps, Name(u), p.name) == Some(r.node);
      assert p in params;
    } else {
      assert FindParameter(ps, Name(u), params[0].name) == Some(r.node);
    }
  }

  lemma {:induction false} ParamRefsDistinct(ps: seq<Primitive>, u: Unit, params: seq<Param>)
    requires DistinctParams(params)
    ensures DistinctNodes(ParamRefs(ps, u, params))
  {
    if params != [] {
      ParamRefsDistinct(ps, u, params[1..]);
      forall r | r in ParamRefs(ps, u, params[1..])
        ensures FindParameter(ps, Name(u), params[0].name) != Some(r.node)
      {
        ParamRefOrigin(ps, u, params[1..], r);
      }
    }
  }

  function Flat(refs: seq<seq<RefParam>>): seq<RefParam> {
    if refs == [] then [] else Flat(refs[..|refs| - 1]) + refs[|refs| - 1]
  }

  /** Every list is about its own primitive of the document. */
  ghost predicate OwnPrimitives(refs: seq<seq<RefParam>>) {
    forall i, r :: 0 <= i < |refs| && r in refs[i] ==> r.node.primitive == i
  }

  lemma {:induction false} FlatDistinct(refs: seq<seq<RefParam>>)
    requires OwnPrimitives(refs) && forall i :: 0 <= i < |refs| ==> DistinctNodes(refs[i])
    ensures DistinctNodes(Flat(refs)) && forall r :: r in Flat(refs) ==> r.node.primitive < |refs|
  {
    if refs != [] {
      FlatDistinct(refs[..|refs| - 1]);
    }
  }

  /** No two recorded references share a value of the document. */
  lemma ReferencesDistinct(d: Deployable)
    requires WellNamed(d.assemblies) && NamesFit(d)
    requires forall u :: u in Units(d.assemblies) ==> DistinctParams(u.service.params)
    ensures DistinctNodes(Flat(References(d)))
  {
    var us, refs := Units(d.assemblies), References(d);
    forall i, r: RefParam | 0 <= i < |refs| && r in refs[i]
      ensures r.node.primitive == i
    {
      ParamRefOrigin(Primitives(d), us[i], us[i].service.params, r);
      var p :| p in us[i].service.params && FindParameter(Primitives(d), Name(us[i]), p.name) == Some(r.node);
      assert us[i] in us;
      ReferenceNodeFound(d, i, p);
    }
    forall i | 0 <= i < |refs| ensures DistinctNodes(refs[i]) {
      assert us[i] in us;
      ParamRefsDistinct(Primitives(d), us[i], us[i].service.params);
    }
    FlatDistinct(refs);
  }

  /** The parameter's own pair in the primitive, which for a script comes after its url. */
  function OwnPair(u: Unit, k: nat): nat {
    if u.cfg then k + 1 else k
  }

  /** The `k`th parameter of the `i`th unit is a reference that the daemon looks for, and is not
      hidden by the url of a configuration script. */
  ghost predicate Refers(us: seq<Unit>, i: nat, k: nat) {
    && i < |us| && k < |us[i].service.params| && us[i].service.params[k].refs != []
    && TakesParams(us[i]) && (us[i].cfg ==> us[i].service.params[k].name != "executable_url")
  }

  /** A reference parameter is recorded, at the very value the style sheet generated for it. */
  lemma ReferenceRecorded(d: Deployable, i: nat, k: nat)
    requires WellNamed(d.assemblies) && NamesFit(d) && Refers(Units(d.assemblies), i, k)
    requires DistinctParams(Units(d.assemblies)[i].service.params)
    ensures var u := Units(d.assemblies)[i];
            var ref := LastRef(u.service.params[k]);
            RefParam(Node(i, OwnPair(u, k)), ref.assembly, ref.parameter) in Flat(References(d))
  {
    var u := Units(d.assemblies)[i];
    var p := u.service.params[k];
    assert u in Units(d.assemblies);
    ReferenceNodeFound(d, i, p);
    var node := FindParameter(Primitives(d), Name(u), p.name).value;
    var pairs := ToPrimitive(u).attrs.value;
    assert pairs[OwnPair(u, k)].name == p.name;
    assert node.pair == OwnPair(u, k);
    ParamRecorded(Primitives(d), u, u.service.params, k);
    InFlat(References(d), i, RefParam(node, LastRef(p).assembly, LastRef(p).parameter));
  }

  lemma {:induction false} ParamRecorded(ps: seq<Primitive>, u: Unit, params: seq<Param>, k: nat)
    requires k < |params| && params[k].refs != [] && FindParameter(ps, Name(u), params[k].name).Some?
    ensures RefParam(FindParameter(ps, Name(u), params[k].name).value, LastRef(params[k]).assembly,
                     LastRef(params[k]).parameter) in ParamRefs(ps, u, params)
  {
    if k > 0 {
      ParamRecorded(ps, u, params[1..], k - 1);
    }
  }

  lemma {:induction false} InFlat(refs: seq<seq<RefParam>>, i: nat, r: RefParam)
    requires i < |refs| && r in refs[i]
    ensures r in Flat(refs)
  {
    if i < |refs| - 1 {
      InFlat(refs[..|refs| - 1], i, r);
    }
  }

  // ---- Updating the values ----

  /** What a reference stands for. */
  function Meaning(parameter: string, name: string, address: string): string {
    if parameter == "hostname" then name else address
  }

  /** node_update_addr_info, reference by reference. */
  function Updated(values: map<Node, string>, refs: seq<RefParam>, name: string, address: string): map<Node, string> {
    if refs == [] then values
    else
      var r, before := refs[|refs| - 1], Updated(values, refs[..|refs| - 1], name, address);
      if r.assembly == name then before[r.node := Meaning(r.parameter, name, address)] else before
  }

  lemma {:induction false} UpdatedJoin(values: map<Node, string>, refs: seq<RefParam>, more: seq<RefParam>, name: string, address: string)
    ensures Updated(values, refs + more, name, address) == Updated(Updated(values, refs, name, address), more, name, address)
  {
    if more == [] {
      assert refs + more == refs;
    } else {
      var front := more[..|more| - 1];
      UpdatedJoin(values, refs, front, name, address);
      assert (refs + more)[..|refs + more| - 1] == refs + front;
    }
  }

  /** The two maps agree on one value. */
  predicate SameAt(v: map<Node, string>, w: map<Node, string>, n: Node) {
    (n in v <==> n in w) && (n in v ==> v[n] == w[n])
  }

  /** A value that nothing referring to the assembly stands at stays as it is. */
  lemma {:induction false} UpdateMisses(values: map<Node, string>, refs: seq<RefParam>, name: string, address: string, n: Node)
    requires forall r :: r in refs && r.node == n ==> r.assembly != name
    ensures SameAt(Updated(values, refs, name, address), values, n)
  {
    if refs != [] {
      assert refs[|refs| - 1] in refs;
      UpdateMisses(values, refs[..|refs| - 1], name, address, n);
    }
  }

  lemma {:induction false} UpdateHits(values: map<Node, string>, refs: seq<RefParam>, name: string, address: string, k: nat)
    requires DistinctNodes(refs) && k < |refs| && refs[k].assembly == name
    ensures var v := Updated(values, refs, name, address);
            refs[k].node in v && v[refs[k].node] == Meaning(refs[k].parameter, name, address)
  {
    if k < |refs| - 1 {
      UpdateHits(values, refs[..|refs| - 1], name, address, k);
    }
  }

  /** Exactly the values that refer to the assembly are set, each to what it stands for; nothing that
      refers to another assembly, or to none, changes. */
  lemma UpdateIsExact(values: map<Node, string>, refs: seq<RefParam>, name: string, address: string, n: Node)
    requires DistinctNodes(refs)
    ensures var v := Updated(values, refs, name, address);
            && (forall r :: r in refs && r.node == n && r.assembly == name ==>
                  n in v && v[n] == Meaning(r.parameter, name, address))
            && ((forall r :: r in refs && r.node == n ==> r.assembly != name) ==> SameAt(v, values, n))
  {
    var v := Updated(values, refs, name, address);
    forall r | r in refs && r.node == n && r.assembly == name
      ensures n in v && v[n] == Meaning(r.parameter, name, address)
    {
      var k :| 0 <= k < |refs| && refs[k] == r;
      UpdateHits(values, refs, name, address, k);
    }
    if forall r :: r in refs && r.node == n ==> r.assembly != name {
      UpdateMisses(values, refs, name, address, n);
    }
  }

  // ---- When addresses change ----

  /** `polls` counts the outstanding instance state polls. */
  datatype Asm = Asm(state: RecoverState, address: string, polls: nat)

  datatype Doc = Doc(values: map<Node, string>, asms: map<string, Asm>)

  datatype Event =
    | Pending(a: string)                   // the instance is not active yet: poll again
    | Active(a: string, address: string)   // the instance is active: note its address and connect
    | Reports(a: string)                   // the transport reports the assembly as RUNNING
    | Fails(a: string, restart: bool)      // a failure: restart polls for a new instance

  predicate Possible(s: Doc, e: Event) {
    && e.a in s.asms
    && match e
       case Pending(a) => s.asms[a].polls > 0
       case Active(a, _) => s.asms[a].polls > 0
       case Reports(_) => true
       case Fails(_, _) => true
  }

  /** recover_state_set of an assembly: becoming RUNNING updates the document first. */
  function SetState(s: Doc, refs: seq<RefParam>, a: string, to: RecoverState): Doc
    requires a in s.asms
  {
    if s.asms[a].state == to then s
    else Doc(if to == Running then Updated(s.values, refs, a, s.asms[a].address) else s.values,
             s.asms[a := s.asms[a].(state := to)])
  }

  function Step(s: Doc, refs: seq<RefParam>, e: Event): Doc
    requires Possible(s, e)
  {
    var asm := s.asms[e.a];
    match e
    case Pending(a) => SetState(s, refs, a, Unknown)
    case Active(a, address) => s.(asms := s.asms[a := asm.(address := address, polls := asm.polls - 1)])
    case Reports(a) => SetState(s, refs, a, Running)
    case Fails(a, restart) =>
      if asm.state == Failed then s
      else
        var failed := SetState(s, refs, a, Failed);
        if restart then failed.(asms := failed.asms[a := failed.asms[a].(polls := asm.polls + 1)]) else failed
  }

  /** What keeps the document right: the address of an assembly that is RUNNING does not change, unless
      only its name is referred to. */
  ghost predicate Contract(s: Doc, refs: seq<RefParam>, e: Event)
    requires Possible(s, e)
  {
    e.Active? && s.asms[e.a].state == Running && e.address != s.asms[e.a].address ==> OnlyName(refs, e.a)
  }

  ghost predicate OnlyName(refs: seq<RefParam>, a: string) {
    forall r :: r in refs && r.assembly == a ==> r.parameter == "hostname"
  }

  ghost predicate RightFor(s: Doc, r: RefParam) {
    r.assembly in s.asms && s.asms[r.assembly].state == Running ==>
      r.node in s.values && s.values[r.node] == Meaning(r.parameter, r.assembly, s.asms[r.assembly].address)
  }

  /** Whenever an assembly is RUNNING, every value that refers to it is its current address or name. */
  ghost predicate Coherent(s: Doc, refs: seq<RefParam>) {
    forall r :: r in refs ==> RightFor(s, r)
  }

  lemma SetStateKeeps(s: Doc, refs: seq<RefParam>, a: string, to: RecoverState)
    requires DistinctNodes(refs) && Coherent(s, refs) && a in s.asms
    ensures Coherent(SetState(s, refs, a, to), refs)
  {
    var s' := SetState(s, refs, a, to);
    forall r | r in refs ensures RightFor(s', r) {
      assert RightFor(s, r);
      UpdateIsExact(s.values, refs, a, s.asms[a].address, r.node);
      forall q | q in refs && q.node == r.node ensures q == r { SameNode(refs, q, r); }
    }
  }

  lemma SameNode(refs: seq<RefParam>, q: RefParam, r: RefParam)
    requires DistinctNodes(refs) && q in refs && r in refs && q.node == r.node
    ensures q == r
  {
  }

  lemma StepKeeps(s: Doc, refs: seq<RefParam>, e: Event)
    requires DistinctNodes(refs) && Coherent(s, refs) && Possible(s, e) && Contract(s, refs, e)
    ensures Coherent(Step(s, refs, e), refs)
  {
    match e
    case Pending(a) => SetStateKeeps(s, refs, a, Unknown);
    case Active(a, address) =>
      forall r | r in refs ensures RightFor(Step(s, refs, e), r) { assert RightFor(s, r); }
    case Reports(a) => SetStateKeeps(s, refs, a, Running);
    case Fails(a, restart) =>
      SetStateKeeps(s, refs, a, Failed);
      var failed := SetState(s, refs, a, Failed);
      forall r | r in refs ensures RightFor(Step(s, refs, e), r) { assert RightFor(failed, r); }
  }

  /** The contract is exact: an event leaves the document right if and only if it is kept. */
  lemma AddressChangesWhileRunning(s: Doc, refs: seq<RefParam>, e: Event)
    requires DistinctNodes(refs) && Coherent(s, refs) && Possible(s, e)
    ensures Coherent(Step(s, refs, e), refs) <==> Contract(s, refs, e)
  {
    if Contract(s, refs, e) {
      StepKeeps(s, refs, e);
    } else {
      var r :| r in refs && r.assembly == e.a && r.parameter != "hostname";
      assert RightFor(s, r) && !RightFor(Step(s, refs, e), r);
    }
  }

  predicate PossibleRun(s: Doc, refs: seq<RefParam>, run: seq<Event>)
    decreases |run|
  {
    run == [] || (Possible(s, run[0]) && PossibleRun(Step(s, refs, run[0]), refs, run[1..]))
  }

  function After(s: Doc, refs: seq<RefParam>, run: seq<Event>): Doc
    requires PossibleRun(s, refs, run)
    decreases |run|
  {
    if run == [] then s else After(Step(s, refs, run[0]), refs, run[1..])
  }

  ghost predicate ContractKept(s: Doc, refs: seq<RefParam>, run: seq<Event>)
    requires PossibleRun(s, refs, run)
    decreases |run|
  {
    run == [] || (Contract(s, refs, run[0]) && ContractKept(Step(s, refs, run[0]), refs, run[1..]))
  }

  lemma {:induction false} RunKeeps(s: Doc, refs: seq<RefParam>, run: seq<Event>)
    requires DistinctNodes(refs) && Coherent(s, refs) && PossibleRun(s, refs, run) && ContractKept(s, refs, run)
    ensures Coherent(After(s, refs, run), refs)
    decreases |run|
  {
    if run != [] {
      StepKeeps(s, refs, run[0]);
      RunKeeps(Step(s, refs, run[0]), refs, run[1..]);
    }
  }

  /** The daemon has created its assemblies and polls each of them. */
  ghost predicate Booted(s: Doc) {
    forall a :: a in s.asms ==> s.asms[a].state == Unknown && s.asms[a].polls == 1
  }

  ghost predicate CarefulRun(s: Doc, refs: seq<RefParam>, run: seq<Event>) {
    PossibleRun(s, refs, run) && ContractKept(s, refs, run)
  }

  /** For every configuration and every run: a reference parameter's value in the policy document is
      the current address, or the name, of the assembly it refers to whenever that one is RUNNING. */
  lemma AlwaysCoherent(d: Deployable, s0: Doc, run: seq<Event>, i: nat, k: nat)
    requires WellNamed(d.assemblies) && NamesFit(d) && Booted(s0)
    requires forall u :: u in Units(d.assemblies) ==> DistinctParams(u.service.params)
    requires CarefulRun(s0, Flat(References(d)), run)
    requires Refers(Units(d.assemblies), i, k)
    ensures var u, s := Units(d.assemblies)[i], After(s0, Flat(References(d)), run);
            var ref := LastRef(u.service.params[k]);
            ref.assembly in s.asms && s.asms[ref.assembly].state == Running ==>
              && Node(i, OwnPair(u, k)) in s.values
              && s.values[Node(i, OwnPair(u, k))] == Meaning(ref.parameter, ref.assembly, s.asms[ref.assembly].address)
  {
    var u := Units(d.assemblies)[i];
    assert u in Units(d.assemblies);
    ReferencesDistinct(d);
    ReferenceRecorded(d, i, k);
    RunKeeps(s0, Flat(References(d)), run);
    var ref := LastRef(u.service.params[k]);
    assert RightFor(After(s0, Flat(References(d)), run), RefParam(Node(i, OwnPair(u, k)), ref.assembly, ref.parameter));
  }

  // ---- Read off the run ----

  /** The address the assembly last became active with. */
  function LatestAddress(address: string, run: seq<Event>, a: string): string
    decreases |run|
  {
    if run == [] then address
    else LatestAddress(if run[0].Active? && run[0].a == a then run[0].address else address, run[1..], a)
  }

  /** What was last said about the assembly. */
  function LatestState(state: RecoverState, run: seq<Event>, a: string): RecoverState
    decreases |run|
  {
    if run == [] then state
    else
      var said := if run[0].a != a then state
                  else match run[0]
                       case Pending(_) => Unknown
                       case Reports(_) => Running
                       case Fails(_, _) => Failed
                       case Active(_, _) => state;
      LatestState(said, run[1..], a)
  }

  lemma {:induction false} AsmReadOffRun(s: Doc, refs: seq<RefParam>, run: seq<Event>, a: string)
    requires PossibleRun(s, refs, run) && a in s.asms
    ensures var t := After(s, refs, run);
            && t.asms.Keys == s.asms.Keys && t.asms[a].address == LatestAddress(s.asms[a].address, run, a)
            && t.asms[a].state == LatestState(s.asms[a].state, run, a)
    decreases |run|
  {
    if run != [] {
      assert Step(s, refs, run[0]).asms.Keys == s.asms.Keys;
      AsmReadOffRun(Step(s, refs, run[0]), refs, run[1..], a);
    }
  }

  /** By the events alone: when what was last said about an assembly is that it runs, the value generated for
      each parameter that refers to it is its name, or the address it last became active with. */
  lemma AlwaysCurrent(d: Deployable, s0: Doc, run: seq<Event>, i: nat, k: nat)
    requires WellNamed(d.assemblies) && NamesFit(d) && Booted(s0)
    requires forall u :: u in Units(d.assemblies) ==> DistinctParams(u.service.params)
    requires CarefulRun(s0, Flat(References(d)), run)
    requires Refers(Units(d.assemblies), i, k)
    ensures var u, s := Units(d.assemblies)[i], After(s0, Flat(References(d)), run);
            var ref := LastRef(u.service.params[k]);
            ref.assembly in s0.asms && LatestState(Unknown, run, ref.assembly) == Running ==>
              && Node(i, OwnPair(u, k)) in s.values
              && s.values[Node(i, OwnPair(u, k))]
                 == if ref.parameter == "hostname" then ref.assembly
                    else LatestAddress(s0.asms[ref.assembly].address, run, ref.assembly)
  {
    AlwaysCoherent(d, s0, run, i, k);
    var ref := LastRef(Units(d.assemblies)[i].service.params[k]);
    if ref.assembly in s0.asms {
      AsmReadOffRun(s0, Flat(References(d)), run, ref.assembly);
    }
  }

  /** How often a restart began to poll for an instance of the assembly, less how often one was found. A
      failure of an assembly that has failed already does nothing. */
  function Polls(state: RecoverState, run: seq<Event>, a: string): int
    decreases |run|
  {
    if run == [] then 0
    else
      var e := run[0];
      (if e == Fails(a, true) && state != Failed then 1 else if e.Active? && e.a == a then -1 else 0)
      + Polls(LatestState(state, [e], a), run[1..], a)
  }

  lemma {:induction false} PollsReadOffRun(s: Doc, refs: seq<RefParam>, run: seq<Event>, a: string)
    requires PossibleRun(s, refs, run) && a in s.asms
    ensures a in After(s, refs, run).asms
    ensures After(s, refs, run).asms[a].polls == s.asms[a].polls + Polls(s.asms[a].state, run, a)
    decreases |run|
  {
    if run != [] {
      var e, t := run[0], Step(s, refs, run[0]);
      AsmReadOffRun(s, refs, [e], a);
      assert [e][1..] == [] && After(s, refs, [e]) == t;
      PollsReadOffRun(t, refs, run[1..], a);
    }
  }

  lemma {:induction false} Extend(s0: Doc, refs: seq<RefParam>, run: seq<Event>, e: Event) returns (run': seq<Event>, s': Doc)
    requires PossibleRun(s0, refs, run) && Possible(After(s0, refs, run), e)
    ensures run' == run + [e] && PossibleRun(s0, refs, run')
    ensures s' == Step(After(s0, refs, run), refs, e) == After(s0, refs, run')
    decreases |run|
  {
    run', s' := run + [e], Step(After(s0, refs, run), refs, e);
    if run == [] {
      assert run'[1..] == [];
    } else {
      var r, t := Extend(Step(s0, refs, run[0]), refs, run[1..], e);
      assert run'[1..] == r;
    }
  }

  /** The Matahari transport outlives a restart and reports RUNNING as soon as its agents answer, even
      if the instance is still being polled for. Then the new address comes too late, for every
      assembly whose address is referred to. */
  lemma ReportsWhilePolled(s0: Doc, refs: seq<RefParam>, r: RefParam) returns (run: seq<Event>)
    requires Booted(s0) && r in refs && r.assembly in s0.asms && r.parameter != "hostname" && DistinctNodes(refs)
    ensures PossibleRun(s0, refs, run) && !Coherent(After(s0, refs, run), refs)
  {
    var a, s := r.assembly, s0;
    run, s := Extend(s0, refs, [], Active(a, "old"));
    run, s := Extend(s0, refs, run, Reports(a));
    run, s := Extend(s0, refs, run, Fails(a, true));
    UpdateIsExact(s.values, refs, a, "old", r.node);
    run, s := Extend(s0, refs, run, Reports(a));
    assert s.asms[a].polls == 1 && s.values[r.node] == "old";
    run, s := Extend(s0, refs, run, Active(a, "new"));
    assert !RightFor(s, r);
  }

  const SELF := Service("s", "ocf", "k", "p", [Param("ip", "", [Reference("a", "ipaddress")])], None)
  const EXAMPLE := Deployable([Assembly("a", "", [SELF])], [])

  lemma ExampleIsGood()
    ensures Units(EXAMPLE.assemblies) == [Unit("a", SELF, false)]
    ensures WellNamed(EXAMPLE.assemblies) && NamesFit(EXAMPLE) && Refers(Units(EXAMPLE.assemblies), 0, 0)
    ensures forall u :: u in Units(EXAMPLE.assemblies) ==> DistinctParams(u.service.params)
  {
    assert AssemblyUnits("a", [SELF]) == [Unit("a", SELF, false)] + AssemblyUnits("a", []);
    assert Units(EXAMPLE.assemblies) == AssemblyUnits("a", [SELF]) + Units([]);
    assert Unit("a", SELF, false).Id() == "rsc_a_s";
  }

  /** A service that is told its own assembly's address: once the instance is active and the assembly
      RUNNING, the address is in the document. */
  lemma ExampleRun(address: string) returns (s0: Doc, run: seq<Event>)
    ensures Booted(s0) && CarefulRun(s0, Flat(References(EXAMPLE)), run)
    ensures Node(0, 0) in After(s0, Flat(References(EXAMPLE)), run).values
    ensures After(s0, Flat(References(EXAMPLE)), run).values[Node(0, 0)] == address
  {
    ExampleIsGood();
    var refs := Flat(References(EXAMPLE));
    s0 := Doc(map[], map["a" := Asm(Unknown, "", 1)]);
    var s;
    run, s := Extend(s0, refs, [], Active("a", address));
    run, s := Extend(s0, refs, run, Reports("a"));
    assert run[1..] == [Reports("a")] && run[1..][1..] == [];
    assert s.asms["a"] == Asm(Running, address, 0);
    AlwaysCoherent(EXAMPLE, s0, run, 0, 0);
  }

  /** The document's values and the assemblies, updated in place. */
  class PolicyDocument {
    const refs: seq<seq<RefParam>>   // ref_params_map of every resource
    var values: map<Node, string>
    var asms: map<string, Asm>

    ghost function View(): Doc
      reads this
    {
      Doc(values, asms)
    }

    constructor (refs: seq<seq<RefParam>>, values: map<Node, string>, names: set<string>)
      ensures this.refs == refs && this.values == values && asms.Keys == names && Booted(View())
    {
      this.refs, this.values := refs, values;
      asms := map a | a in names :: Asm(Unknown, "", 1);
    }

    /** The parameters of one resource. */
    method UpdateResource(params: seq<RefParam>, name: string, address: string)
      modifies `values
      ensures values == Updated(old(values), params, name, address)
    {
      var j := 0;
      while j < |params|
        invariant j <= |params| && values == Updated(old(values), params[..j], name, address)
      {
        var p := params[j];
        assert params[..j + 1][..j] == params[..j];
        if p.assembly == name {
          if p.parameter == "hostname" {
            values := values[p.node := name];
          } else {
            values := values[p.node := address];
          }
        }
        j := j + 1;
      }
      assert params[..j] == params;
    }

    /** node_update_addr_info: walk every parameter of every resource. */
    method NodeUpdateAddrInfo(name: string, address: string)
      modifies `values
      ensures values == Updated(old(values), Flat(refs), name, address)
    {
      var i := 0;
      while i < |refs|
        invariant i <= |refs| && values == Updated(old(values), Flat(refs[..i]), name, address)
      {
        assert refs[..i + 1][..i] == refs[..i];
        UpdatedJoin(old(values), Flat(refs[..i]), refs[i], name, address);
        UpdateResource(refs[i], name, address);
        i := i + 1;
      }
      assert refs[..i] == refs;
    }

    method RecoverStateSet(a: string, to: RecoverState)
      requires a in asms
      modifies this
      ensures View() == SetState(old(View()), Flat(refs), a, to)
    {
      if asms[a].state == to {
        return;
      }
      if to == Running {
        NodeUpdateAddrInfo(a, asms[a].address);
      }
      asms := asms[a := asms[a].(state := to)];
    }

    /** instance_state_completion. */
    method InstanceStateCompletion(a: string, active: bool, address: string)
      requires a in asms && asms[a].polls > 0
      modifies this
      ensures View() == Step(old(View()), Flat(refs), if active then Active(a, address) else Pending(a))
    {
      if active {
        asms := asms[a := asms[a].(address := address, polls := asms[a].polls - 1)];
      } else {
        RecoverStateSet(a, Unknown);
      }
    }
  }
}
