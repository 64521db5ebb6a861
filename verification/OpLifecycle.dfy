/**
  Operations shared by the policy engine, the monitor timers and the transport: who holds a
  reference, which recurring monitor is active, and which graph actions are confirmed.
 */
module OpLifecycle {
  import opened Options
  import opened RecoverStates
  import opened PolicyLoop
  import HistoryKeys

  const OCF_OK := 0
  const OCF_UNKNOWN_ERROR := 1
  const OCF_NOT_RUNNING := 7
  const TWO_32 := 0x1_0000_0000

  type OpId = nat     // operations in order of creation
  type ResId = nat
  type HostId = nat

  datatype Method = Monitor | Start | Stop | Delete

  /** The fixed part of a pe_operation. `res` is the resource the host knows under the operation's
      name; there is none when another host's resource is probed. `mentionsHost` says whether the
      host's name occurs in the operation's, which is how the source tells the two apart. */
  datatype Info = Info(host: HostId, res: Option<ResId>, verb: Method, interval: HistoryKeys.Uint32, target: int, graph: nat,
                       mentionsHost: bool)
  {
    predicate Recurring() { interval > 0 }
  }

  datatype Op = Op(
    info: Info,
    refs: nat,        // refcount; the operation is freed when it reaches 0
    runs: nat,        // executions so far; times_executed is this modulo 2^32
    open: bool,       // its graph action is still unconfirmed
    armed: bool,      // a loop timer will execute it
    flying: bool)     // the transport holds it until its execution completes

  datatype Resource = Resource(
    host: HostId,
    monitorOp: Option<OpId>,
    timer: Option<OpId>,       // the operation of the timer that monitor_timer was last set to
    state: RecoverState)

  /** What can go wrong: freed memory touched; a resource used, or recorded in the history, that is
      not there; an action confirmed that is not an unconfirmed action of the live transition. */
  datatype Faults = Faults(freed: bool, missing: bool, stale: bool)

  datatype State = State(ops: seq<Op>, res: seq<Resource>, online: set<HostId>, pe: Pe, faults: Faults)

  function Touched(s: State, o: OpId): State
    requires o < |s.ops|
  {
    if s.ops[o].refs > 0 then s else s.(faults := s.faults.(freed := true))
  }

  /** pe_resource_ref. */
  function Ref(s: State, o: OpId): State
    requires o < |s.ops|
  {
    Touched(s, o).(ops := s.ops[o := s.ops[o].(refs := s.ops[o].refs + 1)])
  }

  /** pe_resource_unref. */
  function Unref(s: State, o: OpId): State
    requires o < |s.ops|
  {
    var refs := s.ops[o].refs;
    Touched(s, o).(ops := s.ops[o := s.ops[o].(refs := if refs > 0 then refs - 1 else 0)])
  }

  /** There is a live transition, but the action is not one of its own that still waits. */
  predicate StaleAction(s: State, o: OpId)
    requires o < |s.ops|
  {
    s.pe.live.Some? && !(s.ops[o].open && s.pe.live == Some(s.ops[o].info.graph))
  }

  /** pe_resource_completed: nothing without a transition, otherwise the action is confirmed. */
  function Confirm(s: State, o: OpId): State
    requires o < |s.ops|
  {
    var f := s.faults.(stale := s.faults.stale || StaleAction(s, o));
    s.(pe := Confirmed(s.pe), faults := f,
       ops := s.ops[o := s.ops[o].(open := s.ops[o].open && s.pe.live.None?)])
  }

  function Schedule(s: State): State {
    s.(pe := ScheduleProcessing(s.pe))
  }

  predicate TimerRunning(s: State, r: ResId)
    requires r < |s.res|
  {
    var t := s.res[r].timer;
    t.Some? && t.value < |s.ops| && s.ops[t.value].armed
  }

  /** qb_loop_timer_del of monitor_timer. */
  function TimerDel(s: State, r: ResId): State
    requires r < |s.res|
  {
    if !TimerRunning(s, r) then s
    else var o := s.res[r].timer.value; s.(ops := s.ops[o := s.ops[o].(armed := false)])
  }

  /** qb_loop_timer_add into monitor_timer. */
  function TimerAdd(s: State, r: ResId, o: OpId): State
    requires r < |s.res| && o < |s.ops|
  {
    s.(ops := s.ops[o := s.ops[o].(armed := true)], res := s.res[r := s.res[r].(timer := Some(o))])
  }

  predicate HardError(ec: int) { 2 <= ec <= 6 }

  /** resource_state_set: the state an exit code puts the resource in. */
  function StateAfter(i: Info, ec: int): Option<RecoverState> {
    match i.verb
    case Monitor =>
      if ec == OCF_OK then Some(Running) else if i.interval == 0 then Some(Stopped) else Some(Failed)
    case Start =>
      if ec == OCF_OK then Some(Running) else if HardError(ec) then Some(Unrecoverable) else Some(Unknown)
    case Stop =>
      if ec == OCF_OK then Some(Stopped) else if HardError(ec) then Some(Unrecoverable) else Some(Unknown)
    case Delete => None
  }

  /** recover_state_set of a resource: restarting and escalating both delete its monitor timer. */
  function SetResourceState(s: State, r: ResId, to: RecoverState): State
    requires r < |s.res|
  {
    if s.res[r].state == to then s
    else
      var s' := s.(res := s.res[r := s.res[r].(state := to)]);
      if to == Failed then TimerDel(s', r) else s'
  }

  predicate ResourceThere(s: State, i: Info) {
    i.res.Some? && i.res.value < |s.res|
  }

  /** One more execution is counted, and the first one confirms the graph action. */
  function Ran(s: State, o: OpId): State
    requires o < |s.ops|
  {
    var runs := s.ops[o].runs + 1;
    var ran := Touched(s, o).(ops := s.ops[o := s.ops[o].(runs := runs)]);
    if runs % TWO_32 <= 1 then Confirm(ran, o) else ran
  }

  /** The resource takes its new state, and an unexpected exit code asks for a new transition. */
  function Settle(s: State, i: Info, ec: int): State
    requires ResourceThere(s, i)
  {
    var to := StateAfter(i, ec);
    var settled := if to.Some? then SetResourceState(s, i.res.value, to.value) else s;
    if ec != i.target then Schedule(settled) else settled
  }

  /** resource_action_completed can do without the resource: nothing is recorded, no state is set and
      no timer is armed. */
  predicate NeedsNoResource(i: Info, ec: int) {
    i.verb == Delete && !i.mentionsHost && !(i.Recurring() && ec == i.target)
  }

  /** resource_action_completed. */
  function Completed(s: State, o: OpId, ec: int): State
    requires o < |s.ops|
  {
    var i, ran := s.ops[o].info, Ran(s, o);
    if !ResourceThere(s, i) then
      if NeedsNoResource(i, ec) then Unref(if ec != i.target then Schedule(ran) else ran, o)
      else ran.(faults := ran.faults.(missing := true))
    else
      var settled := Settle(ran, i, ec);
      if i.interval > 0 && ec == i.target then TimerAdd(settled, i.res.value, o) else Unref(settled, o)
  }

  /** transport_resource_action: the transport takes a reference. */
  function Launch(s: State, o: OpId): State
    requires o < |s.ops|
  {
    var s' := Ref(s, o);
    s'.(ops := s'.ops[o := s'.ops[o].(flying := true)])
  }

  /** resource_monitor_execute. */
  function MonitorExecute(s: State, o: OpId): State
    requires o < |s.ops|
  {
    if s.ops[o].info.host !in s.online then Completed(s, o, OCF_UNKNOWN_ERROR) else Launch(s, o)
  }

  function RecurringStart(s: State, r: ResId, o: OpId): State
    requires r < |s.res| && o < |s.ops|
  {
    if TimerRunning(s, r) then Unref(Confirm(s, o), o)
    else
      var s' := Ref(s, o);
      MonitorExecute(s'.(res := s'.res[r := s'.res[r].(monitorOp := Some(o))]), o)
  }

  function RecurringStop(s: State, r: ResId, m: OpId): State
    requires r < |s.res| && m < |s.ops|
  {
    var s' := if TimerRunning(s, r) then Unref(TimerDel(s, r), m) else s;
    Unref(s'.(res := s'.res[r := s'.res[r].(monitorOp := None)]), m)
  }

  /** What clearing a resource's history does to its recurring monitor. */
  function StopIfArmed(s: State, r: ResId): State
    requires r < |s.res|
  {
    var m := s.res[r].monitorOp;
    if TimerRunning(s, r) && m.Some? && m.value < |s.ops| then RecurringStop(s, r, m.value) else s
  }

  /** resource_execute_cb. `history` says whether the resource has operation history. */
  function Execute(s: State, o: OpId, history: bool): State
    requires o < |s.ops|
  {
    var i := s.ops[o].info;
    if i.host !in s.online then Completed(s, o, OCF_UNKNOWN_ERROR)
    else if i.verb == Monitor && !i.mentionsHost then Unref(Confirm(s, o), o)
    else if !ResourceThere(s, i) then
      match i.verb
      case Monitor => s.(faults := s.faults.(missing := true))
      case Start => Launch(s, o)
      case Stop => s.(faults := s.faults.(missing := true))
      case Delete => Unref(Confirm(s, o), o)
    else
      var r := i.res.value;
      match i.verb
      case Monitor => if i.interval > 0 then RecurringStart(s, r, o) else MonitorExecute(s, o)
      case Start => Launch(s, o)
      case Stop =>
        var m := s.res[r].monitorOp;
        Launch(if m.Some? && m.value < |s.ops| then RecurringStop(s, r, m.value) else s, o)
      case Delete => Unref(Confirm(if history then StopIfArmed(s, r) else s, o), o)
  }

  datatype Event =
    | Dispatch(info: Info, history: bool)   // run_graph executes a resource action
    | Pseudo                                // run_graph confirms an action that needs no operation
    | NextJob
    | PassEnds(active: bool)
    | ProcessJobRuns
    | FlightDone(op: OpId, ec: int)         // resource_action_completion
    | FlightLost(op: OpId)                  // the transport drops it: timeout, flush or disconnect
    | TimerFires(op: OpId)
    | HistoryCleared(res: ResId)            // for each of its resources when a node restarts
    | NodeUp(host: HostId)
    | NodeDown(host: HostId)

  predicate Possible(s: State, e: Event) {
    match e
    case Dispatch(i, _) => s.pe.inPass && s.pe.live == Some(i.graph)
    case Pseudo => s.pe.inPass
    case PassEnds(_) => s.pe.inPass
    case NextJob => !s.pe.inPass && s.pe.nextJobs != []
    case ProcessJobRuns => !s.pe.inPass && s.pe.processJobs > 0
    case FlightDone(o, _) => !s.pe.inPass && o < |s.ops| && s.ops[o].flying
    case FlightLost(o) => !s.pe.inPass && o < |s.ops| && s.ops[o].flying
    case TimerFires(o) => !s.pe.inPass && o < |s.ops| && s.ops[o].armed
    case HistoryCleared(r) => !s.pe.inPass && r < |s.res|
    case NodeUp(_) => !s.pe.inPass
    case NodeDown(_) => !s.pe.inPass
  }

  /** exec_rsc_action allocates the operation with one reference. */
  function WithNew(s: State, i: Info): State {
    s.(ops := s.ops + [Op(i, 1, 0, true, false, false)])
  }

  function Step(s: State, e: Event): State
    requires Possible(s, e)
  {
    match e
    case Dispatch(i, history) =>
      Execute(WithNew(s, i), |s.ops|, history)
    case Pseudo => s.(pe := Confirmed(s.pe))
    case NextJob => s.(pe := BeginPass(s.pe))
    case PassEnds(active) => s.(pe := EndPass(s.pe, active))
    case ProcessJobRuns => s.(pe := ProcessJob(s.pe))
    case FlightDone(o, ec) =>
      Unref(Completed(s.(ops := s.ops[o := s.ops[o].(flying := false)]), o, ec), o)
    case FlightLost(o) => s.(ops := s.ops[o := s.ops[o].(flying := false)])
    case TimerFires(o) => MonitorExecute(s.(ops := s.ops[o := s.ops[o].(armed := false)]), o)
    case HistoryCleared(r) => StopIfArmed(s, r)
    case NodeUp(h) => Schedule(s.(online := s.online + {h}))
    case NodeDown(h) => Schedule(s.(online := s.online - {h}))
  }

  // ---- What every turn of the loop keeps ----

  predicate IsMonitorOp(s: State, o: OpId)
    requires o < |s.ops|
  {
    ResourceThere(s, s.ops[o].info) && s.res[s.ops[o].info.res.value].monitorOp == Some(o)
  }

  /** The references something in the daemon still holds: monitor_op, the armed timer, or, while
      the execution is in flight, the timer's and the transport's own. */
  function Places(s: State, o: OpId): nat
    requires o < |s.ops|
  {
    (if IsMonitorOp(s, o) then 1 else 0) +
    (if s.ops[o].armed then 1 else 0) +
    (if s.ops[o].flying then 2 else 0)
  }

  /** A recurring operation that is armed or in flight. */
  predicate Active(s: State, o: OpId)
    requires o < |s.ops|
  {
    s.ops[o].info.Recurring() && (s.ops[o].armed || s.ops[o].flying)
  }

  /** The running callback itself still has to drop `k` references to `x`. */
  ghost predicate OpGood(s: State, o: OpId, x: OpId, k: nat)
    requires o < |s.ops|
  {
    var op := s.ops[o];
    && Places(s, o) + (if o == x then k else 0) <= op.refs <= 3
    && (op.armed ==> op.refs <= 2 + (if o == x then k else 0))
    && (op.armed || op.flying ==> ResourceThere(s, op.info))
    && (op.armed ==> op.info.Recurring() && !op.flying && op.runs > 0 && s.res[op.info.res.value].timer == Some(o))
    && (op.flying && op.runs == 0 ==> op.open)
    && (op.open ==> op.runs == 0 && s.pe.live == Some(op.info.graph))
  }

  ghost predicate ResGood(s: State, r: ResId)
    requires r < |s.res|
  {
    var (m, t) := (s.res[r].monitorOp, s.res[r].timer);
    && (m.Some? ==> m.value < |s.ops| && s.ops[m.value].info.res == Some(r) && s.ops[m.value].info.Recurring())
    && (t.Some? ==> t.value < |s.ops| && s.ops[t.value].info.res == Some(r))
  }

  /** At most one recurring operation per resource is active, and monitor_op, if set, is that one. */
  ghost predicate OneRecurring(s: State) {
    && (forall o, p | 0 <= o < |s.ops| && 0 <= p < |s.ops| && Active(s, o) && Active(s, p) ::
          s.ops[o].info.res == s.ops[p].info.res ==> o == p)
    && (forall o :: 0 <= o < |s.ops| && Active(s, o) && ResourceThere(s, s.ops[o].info) ==>
          s.res[s.ops[o].info.res.value].monitorOp in {None, Some(o)})
  }

  ghost predicate Good(s: State, x: OpId, k: nat) {
    && (forall o :: 0 <= o < |s.ops| ==> OpGood(s, o, x, k))
    && (forall r :: 0 <= r < |s.res| ==> ResGood(s, r))
    && OneRecurring(s)
    && Orderly(s.pe)
    && s.faults == Faults(false, false, false)
  }

  ghost predicate Inv(s: State) {
    Good(s, 0, 0)
  }

  /** No operation but `t` is an active recurring one of resource `r`. */
  ghost predicate NoOther(s: State, t: OpId, r: ResId) {
    forall p :: 0 <= p < |s.ops| && p != t && Active(s, p) ==> s.ops[p].info.res != Some(r)
  }

  /** Only operation `t` and resource `r` differ. */
  ghost predicate OnlyThese(s: State, s': State, t: OpId, r: ResId) {
    && t < |s.ops| && |s'.ops| == |s.ops| && |s'.res| == |s.res|
    && s'.ops == s.ops[t := s'.ops[t]] && s'.ops[t].info == s.ops[t].info
    && (if r < |s.res| then s'.res == s.res[r := s'.res[r]] else s'.res == s.res)
    && s'.pe.live == s.pe.live && Orderly(s'.pe) && s'.faults == s.faults
  }

  /** Nothing is claimed: monitor_op and the timer stay or are given up, `t` does not become active. */
  ghost predicate Yields(s: State, s': State, t: OpId, r: ResId)
    requires OnlyThese(s, s', t, r)
  {
    && (Active(s', t) ==> Active(s, t))
    && (r < |s.res| ==> s'.res[r].monitorOp in {None, s.res[r].monitorOp} && s'.res[r].timer == s.res[r].timer)
  }

  /** `t` becomes the resource's one recurring operation. */
  ghost predicate Claims(s: State, s': State, t: OpId, r: ResId)
    requires OnlyThese(s, s', t, r)
  {
    && r < |s.res| && s.ops[t].info.res == Some(r) && NoOther(s, t, r)
    && s'.res[r].monitorOp in {None, Some(t)} && s'.res[r].timer in {s.res[r].timer, Some(t)}
  }

  /** A step that touches one operation and one resource keeps everything, if it keeps those two. */
  lemma LocalStep(s: State, s': State, t: OpId, r: ResId, x: OpId, k: nat, k': nat)
    requires Good(s, x, k) && OnlyThese(s, s', t, r) && (t == x || k' == k)
    requires Yields(s, s', t, r) || Claims(s, s', t, r)
    requires OpGood(s', t, x, k') && (r < |s.res| ==> ResGood(s', r))
    ensures Good(s', x, k')
  {
    forall o | 0 <= o < |s.ops|
      ensures OpGood(s', o, x, k')
    {
      if o != t {
        assert OpGood(s, o, x, k) && s'.ops[o] == s.ops[o];
        assert Active(s, o) == Active(s', o);
      }
    }
    forall q | 0 <= q < |s.res|
      ensures ResGood(s', q)
    {
      if q != r {
        assert ResGood(s, q) && s'.res[q] == s.res[q];
      }
    }
    OneRecurringKept(s, s', t, r);
  }

  lemma OneRecurringKept(s: State, s': State, t: OpId, r: ResId)
    requires OneRecurring(s) && OnlyThese(s, s', t, r)
    requires Yields(s, s', t, r) || Claims(s, s', t, r)
    ensures OneRecurring(s')
  {
    assert forall o :: 0 <= o < |s.ops| && o != t ==> Active(s', o) == Active(s, o) && s'.ops[o] == s.ops[o];
  }

  lemma RefKeeps(s: State, x: OpId, k: nat)
    requires Good(s, x, k) && x < |s.ops| && 0 < s.ops[x].refs <= 2
    ensures Good(Ref(s, x), x, k + 1)
  {
    assert OpGood(s, x, x, k);
    LocalStep(s, Ref(s, x), x, |s.res|, x, k, k + 1);
  }

  lemma UnrefKeeps(s: State, x: OpId, k: nat)
    requires Good(s, x, k + 1) && x < |s.ops|
    ensures Good(Unref(s, x), x, k)
  {
    assert OpGood(s, x, x, k + 1);
    LocalStep(s, Unref(s, x), x, |s.res|, x, k + 1, k);
  }

  lemma ConfirmKeeps(s: State, x: OpId, k: nat)
    requires Good(s, x, k) && x < |s.ops| && s.ops[x].open && !s.ops[x].flying
    ensures Good(Confirm(s, x), x, k)
  {
    assert OpGood(s, x, x, k);
    LocalStep(s, Confirm(s, x), x, |s.res|, x, k, k);
  }

  lemma TimerDelKeeps(s: State, r: ResId, x: OpId, k: nat)
    requires Good(s, x, k) && r < |s.res|
    ensures Good(TimerDel(s, r), x, k)
  {
    if TimerRunning(s, r) {
      var t := s.res[r].timer.value;
      assert OpGood(s, t, x, k);
      LocalStep(s, TimerDel(s, r), t, |s.res|, x, k, k);
    }
  }

  lemma SetResourceStateKeeps(s: State, r: ResId, to: RecoverState, x: OpId, k: nat)
    requires Good(s, x, k) && r < |s.res| && x < |s.ops|
    ensures Good(SetResourceState(s, r, to), x, k)
  {
    if s.res[r].state != to {
      var s' := s.(res := s.res[r := s.res[r].(state := to)]);
      assert OpGood(s, x, x, k) && ResGood(s, r);
      LocalStep(s, s', x, r, x, k, k);
      TimerDelKeeps(s', r, x, k);
    }
  }

  lemma ScheduleKeeps(s: State, x: OpId, k: nat)
    requires Good(s, x, k) && x < |s.ops|
    ensures Good(Schedule(s), x, k)
  {
    assert OpGood(s, x, x, k);
    LocalStep(s, Schedule(s), x, |s.res|, x, k, k);
  }

  /** Neither armed nor in flight. */
  predicate Idle(s: State, x: OpId) {
    x < |s.ops| && !s.ops[x].armed && !s.ops[x].flying
  }

  /** No other recurring operation of its resource is active, and monitor_op is no other one. */
  ghost predicate Alone(s: State, x: OpId)
    requires x < |s.ops| && ResourceThere(s, s.ops[x].info)
  {
    NoOther(s, x, s.ops[x].info.res.value) && s.res[s.ops[x].info.res.value].monitorOp in {None, Some(x)}
  }

  lemma TimerAddKeeps(s: State, r: ResId, x: OpId, k: nat)
    requires Good(s, x, k + 1) && Idle(s, x) && s.ops[x].info.res == Some(r) && r < |s.res|
    requires s.ops[x].info.Recurring() && s.ops[x].runs > 0 && Alone(s, x) && s.ops[x].refs <= 2 + k
    ensures Good(TimerAdd(s, r, x), x, k)
  {
    assert OpGood(s, x, x, k + 1) && ResGood(s, r);
    LocalStep(s, TimerAdd(s, r, x), x, r, x, k + 1, k);
  }

  lemma LaunchKeeps(s: State, x: OpId)
    requires Good(s, x, 1) && Idle(s, x) && ResourceThere(s, s.ops[x].info)
    requires s.ops[x].info.Recurring() ==> Alone(s, x)
    requires s.ops[x].refs <= 2 && (s.ops[x].runs == 0 ==> s.ops[x].open)
    ensures Good(Launch(s, x), x, 0)
  {
    var r := s.ops[x].info.res.value;
    assert OpGood(s, x, x, 1) && ResGood(s, r);
    LocalStep(s, Launch(s, x), x, r, x, 1, 0);
  }

  /** The next execution is not the first, but the 32-bit counter says it may be. */
  predicate ComesRound(op: Op) {
    op.runs > 0 && (op.runs + 1) % TWO_32 <= 1
  }

  predicate Counting(s: State, x: OpId)
    requires x < |s.ops|
  {
    (s.ops[x].runs == 0 ==> s.ops[x].open) && (ComesRound(s.ops[x]) ==> s.pe.live.None?)
  }

  lemma RanKeeps(s: State, x: OpId, k: nat)
    requires Good(s, x, k) && Idle(s, x) && s.ops[x].refs > 0 && Counting(s, x)
    ensures var s' := Ran(s, x);
            && Good(s', x, k) && Idle(s', x) && s'.ops[x].runs > 0 && s'.res == s.res
            && s'.ops == s.ops[x := s'.ops[x]] && s'.ops[x].info == s.ops[x].info && s'.ops[x].refs == s.ops[x].refs
  {
    var s1 := s.(ops := s.ops[x := s.ops[x].(runs := s.ops[x].runs + 1)]);
    assert OpGood(s, x, x, k);
    assert s.pe.live.None? ==> Confirm(s1, x).ops == s1.ops;
    LocalStep(s, Ran(s, x), x, |s.res|, x, k, k);
  }

  /** Losing an active operation leaves one that was alone alone. */
  lemma StillAlone(s: State, s': State, x: OpId)
    requires x < |s.ops| && ResourceThere(s, s.ops[x].info) && Alone(s, x)
    requires |s'.ops| == |s.ops| && |s'.res| == |s.res|
    requires forall p :: 0 <= p < |s.ops| ==> s'.ops[p].info == s.ops[p].info && (s'.ops[p].armed ==> s.ops[p].armed)
    requires forall p :: 0 <= p < |s.ops| && p != x ==> s'.ops[p].flying == s.ops[p].flying
    requires s'.res[s.ops[x].info.res.value].monitorOp == s.res[s.ops[x].info.res.value].monitorOp
    ensures Alone(s', x)
  {
  }

  lemma SettleKeeps(s: State, x: OpId, k: nat, ec: int)
    requires Good(s, x, k) && Idle(s, x) && ResourceThere(s, s.ops[x].info)
    ensures var s' := Settle(s, s.ops[x].info, ec);
            && Good(s', x, k) && Idle(s', x) && s'.ops[x] == s.ops[x] && |s'.res| == |s.res|
            && (Alone(s, x) ==> Alone(s', x))
  {
    var i := s.ops[x].info;
    var to := StateAfter(i, ec);
    if to.Some? {
      SetResourceStateKeeps(s, i.res.value, to.value, x, k);
    }
    var s1 := if to.Some? then SetResourceState(s, i.res.value, to.value) else s;
    ScheduleKeeps(s1, x, k);
    if Alone(s, x) {
      StillAlone(s, Settle(s, i, ec), x);
    }
  }

  /** An operation that is alone still is when its execution has been counted and settled. */
  lemma AloneAfter(s: State, x: OpId, k: nat, ec: int)
    requires Good(s, x, k) && Idle(s, x) && ResourceThere(s, s.ops[x].info) && Counting(s, x) && s.ops[x].refs > 0
    requires Alone(s, x)
    ensures ResourceThere(Ran(s, x), s.ops[x].info) && Alone(Settle(Ran(s, x), s.ops[x].info, ec), x)
  {
    RanKeeps(s, x, k);
    StillAlone(s, Ran(s, x), x);
    SettleKeeps(Ran(s, x), x, k, ec);
  }

  lemma CompletedKeeps(s: State, x: OpId, k: nat, ec: int)
    requires Good(s, x, k + 1) && Idle(s, x) && ResourceThere(s, s.ops[x].info) && Counting(s, x)
    requires s.ops[x].info.Recurring() && ec == s.ops[x].info.target ==>
               s.ops[x].refs <= 2 + k && Alone(Settle(Ran(s, x), s.ops[x].info, ec), x)
    ensures Good(Completed(s, x, ec), x, k)
  {
    var i := s.ops[x].info;
    assert OpGood(s, x, x, k + 1);
    RanKeeps(s, x, k + 1);
    var ran := Ran(s, x);
    SettleKeeps(ran, x, k + 1, ec);
    var settled := Settle(ran, i, ec);
    if i.interval > 0 && ec == i.target {
      TimerAddKeeps(settled, i.res.value, x, k);
    } else {
      UnrefKeeps(settled, x, k);
    }
  }

  lemma MonitorExecuteKeeps(s: State, x: OpId)
    requires Good(s, x, 1) && Idle(s, x) && ResourceThere(s, s.ops[x].info)
    requires if s.ops[x].info.host in s.online then s.ops[x].runs == 0 ==> s.ops[x].open else Counting(s, x)
    requires s.ops[x].refs <= 2 && (s.ops[x].info.Recurring() ==> Alone(s, x))
    ensures Good(MonitorExecute(s, x), x, 0)
  {
    if s.ops[x].info.host !in s.online {
      if s.ops[x].info.Recurring() {
        assert OpGood(s, x, x, 1);
        AloneAfter(s, x, 1, OCF_UNKNOWN_ERROR);
      }
      CompletedKeeps(s, x, 0, OCF_UNKNOWN_ERROR);
    } else {
      LaunchKeeps(s, x);
    }
  }

  lemma RecurringStartKeeps(s: State, r: ResId, x: OpId)
    requires Good(s, x, 1) && Idle(s, x) && s.ops[x].info.res == Some(r) && r < |s.res|
    requires s.ops[x].info.Recurring() && s.ops[x].runs == 0 && s.ops[x].open && s.ops[x].info.host in s.online
    requires s.ops[x].refs == 1
    requires TimerRunning(s, r) || NoOther(s, x, r)
    ensures Good(RecurringStart(s, r, x), x, 0)
  {
    assert OpGood(s, x, x, 1) && ResGood(s, r);
    if TimerRunning(s, r) {
      ConfirmKeeps(s, x, 1);
      UnrefKeeps(Confirm(s, x), x, 0);
    } else {
      RefKeeps(s, x, 1);
      var s1 := Ref(s, x);
      var s2 := s1.(res := s1.res[r := s1.res[r].(monitorOp := Some(x))]);
      assert forall p :: 0 <= p < |s.ops| && p != x ==> Active(s1, p) == Active(s, p) && s1.ops[p] == s.ops[p];
      assert OpGood(s1, x, x, 2) && ResGood(s1, r);
      LocalStep(s1, s2, x, r, x, 2, 1);
      assert forall p :: 0 <= p < |s.ops| && p != x ==> Active(s2, p) == Active(s, p);
      MonitorExecuteKeeps(s2, x);
    }
  }

  /** Stopping a recurring monitor drops exactly the references that monitor_op and, if it is
      running, the timer held. */
  lemma StopShape(s: State, r: ResId, m: OpId, x: OpId, k: nat)
    requires Good(s, x, k) && r < |s.res| && s.res[r].monitorOp == Some(m)
    ensures m < |s.ops| && TimerRunning(s, r) == s.ops[m].armed
    ensures s.ops[m].refs >= (if s.ops[m].armed then 2 else 1)
    ensures RecurringStop(s, r, m)
         == s.(res := s.res[r := s.res[r].(monitorOp := None)],
               ops := s.ops[m := s.ops[m].(refs := s.ops[m].refs - (if s.ops[m].armed then 2 else 1),
                                           armed := false)])
  {
    assert ResGood(s, r);
    assert OpGood(s, m, x, k) && IsMonitorOp(s, m);
    if TimerRunning(s, r) {
      var t := s.res[r].timer.value;
      assert OpGood(s, t, x, k) && Active(s, t);
    }
  }

  lemma RecurringStopKeeps(s: State, r: ResId, m: OpId, x: OpId, k: nat)
    requires Good(s, x, k) && r < |s.res| && s.res[r].monitorOp == Some(m) && m < |s.ops|
    ensures var s' := RecurringStop(s, r, m);
            && Good(s', x, k) && |s'.ops| == |s.ops| && |s'.res| == |s.res|
            && (x != m && x < |s.ops| ==> s'.ops[x] == s.ops[x])
  {
    StopShape(s, r, m, x, k);
    var s' := RecurringStop(s, r, m);
    assert ResGood(s, r) && OpGood(s, m, x, k);
    LocalStep(s, s', m, r, x, k, k);
  }

  lemma StopIfArmedKeeps(s: State, r: ResId, x: OpId, k: nat)
    requires Good(s, x, k) && r < |s.res|
    ensures var s' := StopIfArmed(s, r);
            && Good(s', x, k) && |s'.ops| == |s.ops| && |s'.res| == |s.res|
            && (s.res[r].monitorOp != Some(x) && x < |s.ops| ==> s'.ops[x] == s.ops[x])
  {
    assert ResGood(s, r);
    if TimerRunning(s, r) && s.res[r].monitorOp.Some? {
      RecurringStopKeeps(s, r, s.res[r].monitorOp.value, x, k);
    }
  }

  /** What the environment owes: the policy engine hands out actions on resources that are there and
      makes no second operation of a resource recur; it ends a transition only when nothing it
      dispatched is unconfirmed; and the execution counter does not come round during one. */
  ghost predicate Contract(s: State, e: Event)
    requires Possible(s, e)
  {
    match e
    case Dispatch(i, _) => Resolved(s, i) && (TakesOver(s, i) ==> MayTakeOver(s, i))
    case PassEnds(active) => active || forall o :: 0 <= o < |s.ops| ==> !s.ops[o].open
    case FlightDone(o, _) => ComesRound(s.ops[o]) ==> s.pe.live.None?
    case TimerFires(o) => s.ops[o].info.host !in s.online && ComesRound(s.ops[o]) ==> s.pe.live.None?
    case _ => true
  }

  /** The operation's resource is there, or nothing will look for it: a probe on a host whose name the
      resource does not mention, or a delete. */
  predicate Resolved(s: State, i: Info) {
    || ResourceThere(s, i)
    || (if i.host in s.online then i.verb == Delete || (i.verb == Monitor && !i.mentionsHost)
        else NeedsNoResource(i, OCF_UNKNOWN_ERROR))
  }

  /** The dispatch makes the operation an active recurring one: it is executed, or, while the host is
      not running, it expects the very error it gets and is armed. */
  predicate TakesOver(s: State, i: Info) {
    && i.Recurring() && ResourceThere(s, i)
    && if i.host !in s.online then i.target == OCF_UNKNOWN_ERROR
       else match i.verb
            case Monitor => i.mentionsHost && !TimerRunning(s, i.res.value)
            case Start => true
            case Stop => true
            case Delete => false
  }

  /** Nothing else of the resource is, or remains, active, and monitor_op is no other operation. */
  ghost predicate MayTakeOver(s: State, i: Info)
    requires ResourceThere(s, i)
  {
    var r := i.res.value;
    && !InFlight(s, r)
    && if i.host in s.online then
         match i.verb
         case Monitor => true
         case Start => s.res[r].monitorOp == None && !TimerRunning(s, r)
         case Stop => TimerRunning(s, r) ==> s.res[r].monitorOp.Some?
         case Delete => true
       else
         s.res[r].monitorOp == None && (TimerRunning(s, r) ==> i.verb == Monitor && s.res[r].state != Failed)
  }

  /** Some recurring execution of the resource is in flight. */
  ghost predicate InFlight(s: State, r: ResId) {
    exists o :: 0 <= o < |s.ops| && s.ops[o].flying && s.ops[o].info.Recurring() && s.ops[o].info.res == Some(r)
  }

  lemma NobodyHolds(s: State, x: OpId)
    requires Inv(s)
    ensures Good(s, x, 0)
  {
    forall o | 0 <= o < |s.ops| ensures OpGood(s, o, x, 0) { assert OpGood(s, o, 0, 0); }
  }

  lemma HoldsNothing(s: State, x: OpId)
    requires Good(s, x, 0)
    ensures Inv(s)
  {
    forall o | 0 <= o < |s.ops| ensures OpGood(s, o, 0, 0) { assert OpGood(s, o, x, 0); }
  }

  lemma FreshKeeps(s: State, i: Info)
    requires Inv(s) && s.pe.live == Some(i.graph)
    ensures Good(WithNew(s, i), |s.ops|, 1)
  {
    var x, s' := |s.ops|, WithNew(s, i);
    forall r | 0 <= r < |s.res| ensures ResGood(s', r) && s.res[r].monitorOp != Some(x) {
      assert ResGood(s, r);
    }
    forall o | 0 <= o < |s'.ops| ensures OpGood(s', o, x, 1) {
      if o < x { assert OpGood(s, o, 0, 0) && Active(s', o) == Active(s, o); }
    }
    assert forall o :: 0 <= o < x ==> Active(s', o) == Active(s, o) && s'.ops[o] == s.ops[o];
  }

  /** Without a running timer, nothing in flight means nothing active. */
  lemma NothingActive(s: State, r: ResId, x: OpId, k: nat)
    requires Good(s, x, k) && r < |s.res| && !TimerRunning(s, r) && !InFlight(s, r)
    ensures NoOther(s, x, r)
  {
    forall p | 0 <= p < |s.ops| && p != x && Active(s, p)
      ensures s.ops[p].info.res != Some(r)
    {
      assert OpGood(s, p, x, k);
    }
  }

  /** An operation dispatched to a host that is not running fails at once. */
  lemma OfflineKeeps(s: State, x: OpId)
    requires Good(s, x, 1) && Idle(s, x) && s.ops[x].runs == 0 && s.ops[x].open && s.ops[x].refs == 1
    requires var i := s.ops[x].info;
             i.host !in s.online && Resolved(s, i) && (TakesOver(s, i) ==> MayTakeOver(s, i))
    ensures Good(Completed(s, x, OCF_UNKNOWN_ERROR), x, 0)
  {
    var i := s.ops[x].info;
    if ResourceThere(s, i) {
      if TakesOver(s, i) {
        OfflineAlone(s, x);
      }
      CompletedKeeps(s, x, 0, OCF_UNKNOWN_ERROR);
    } else {
      RanKeeps(s, x, 1);
      var ran := Ran(s, x);
      ScheduleKeeps(ran, x, 1);
      UnrefKeeps(if OCF_UNKNOWN_ERROR != i.target then Schedule(ran) else ran, x, 0);
    }
  }

  /** Failing a monitor takes the resource's timer away. */
  lemma OfflineAlone(s: State, x: OpId)
    requires Good(s, x, 1) && Idle(s, x) && s.ops[x].runs == 0 && s.ops[x].open && s.ops[x].refs == 1
    requires var i := s.ops[x].info; i.host !in s.online && TakesOver(s, i) && MayTakeOver(s, i)
    ensures ResourceThere(Ran(s, x), s.ops[x].info)
    ensures Alone(Settle(Ran(s, x), s.ops[x].info, OCF_UNKNOWN_ERROR), x)
  {
    var i := s.ops[x].info;
    var r := i.res.value;
    RanKeeps(s, x, 1);
    var ran := Ran(s, x);
    var settled := Settle(ran, i, OCF_UNKNOWN_ERROR);
    SettleKeeps(ran, x, 1, OCF_UNKNOWN_ERROR);
    forall p | 0 <= p < |s.ops| && p != x && Active(settled, p) ensures s.ops[p].info.res != Some(r) {
      assert OpGood(s, p, x, 1) && ran.ops[p] == s.ops[p];
    }
  }

  lemma ExecuteKeeps(s: State, x: OpId, history: bool)
    requires Good(s, x, 1) && Idle(s, x) && s.ops[x].runs == 0 && s.ops[x].open && s.ops[x].refs == 1
    requires var i := s.ops[x].info; Resolved(s, i) && (TakesOver(s, i) ==> MayTakeOver(s, i))
    ensures Good(Execute(s, x, history), x, 0)
  {
    var i := s.ops[x].info;
    assert OpGood(s, x, x, 1);
    if i.host !in s.online {
      OfflineKeeps(s, x);
    } else if !ResourceThere(s, i) || (i.verb == Monitor && !i.mentionsHost) {
      ConfirmKeeps(s, x, 1);
      UnrefKeeps(Confirm(s, x), x, 0);
    } else {
      ExecuteThereKeeps(s, x, history);
    }
  }

  lemma ExecuteThereKeeps(s: State, x: OpId, history: bool)
    requires Good(s, x, 1) && Idle(s, x) && s.ops[x].runs == 0 && s.ops[x].open && s.ops[x].refs == 1
    requires var i := s.ops[x].info;
             && i.host in s.online && ResourceThere(s, i) && (i.verb == Monitor ==> i.mentionsHost)
             && (TakesOver(s, i) ==> MayTakeOver(s, i))
    ensures Good(Execute(s, x, history), x, 0)
  {
    var i := s.ops[x].info;
    var r := i.res.value;
    assert OpGood(s, x, x, 1) && ResGood(s, r);
    match i.verb
    case Monitor =>
      if i.interval > 0 {
        if !TimerRunning(s, r) { NothingActive(s, r, x, 1); }
        RecurringStartKeeps(s, r, x);
      } else {
        MonitorExecuteKeeps(s, x);
      }
    case Start =>
      if i.Recurring() { NothingActive(s, r, x, 1); }
      LaunchKeeps(s, x);
    case Stop => StopAndLaunchKeeps(s, x);
    case Delete =>
      StopIfArmedKeeps(s, r, x, 1);
      var s1 := if history then StopIfArmed(s, r) else s;
      ConfirmKeeps(s1, x, 1);
      UnrefKeeps(Confirm(s1, x), x, 0);
  }

  lemma StopAndLaunchKeeps(s: State, x: OpId)
    requires Good(s, x, 1) && Idle(s, x) && s.ops[x].runs == 0 && s.ops[x].open && s.ops[x].refs == 1
    requires var i := s.ops[x].info;
             && i.host in s.online && ResourceThere(s, i) && i.verb == Stop
             && (TakesOver(s, i) ==> MayTakeOver(s, i))
    ensures Good(Execute(s, x, false), x, 0) && Execute(s, x, true) == Execute(s, x, false)
  {
    var r := s.ops[x].info.res.value;
    assert OpGood(s, x, x, 1) && ResGood(s, r);
    var m := s.res[r].monitorOp;
    if m.Some? {
      RecurringStopKeeps(s, r, m.value, x, 1);
      StopShape(s, r, m.value, x, 1);
      var s1 := RecurringStop(s, r, m.value);
      if s.ops[x].info.Recurring() {
        forall p | 0 <= p < |s.ops| && p != x && Active(s1, p) ensures s.ops[p].info.res != Some(r) {
          assert OpGood(s, p, x, 1);
        }
      }
      LaunchKeeps(s1, x);
    } else {
      if s.ops[x].info.Recurring() { NothingActive(s, r, x, 1); }
      LaunchKeeps(s, x);
    }
  }

  /** Steps of the policy engine and of the hosts leave the operations alone. */
  lemma EngineKeeps(s: State, online: set<HostId>, pe: Pe)
    requires Inv(s) && Orderly(pe)
    requires pe.live == s.pe.live || forall o :: 0 <= o < |s.ops| ==> !s.ops[o].open
    ensures Inv(s.(online := online, pe := pe))
  {
    var s' := s.(online := online, pe := pe);
    forall r | 0 <= r < |s.res| ensures ResGood(s', r) { assert ResGood(s, r); }
    forall o | 0 <= o < |s.ops| ensures OpGood(s', o, 0, 0) { assert OpGood(s, o, 0, 0); }
    assert forall o :: 0 <= o < |s.ops| ==> Active(s', o) == Active(s, o);
  }

  /** The transport lets go of an operation: the callback now holds its two references. */
  lemma Landed(s: State, o: OpId)
    requires Inv(s) && o < |s.ops| && s.ops[o].flying
    ensures var s1 := s.(ops := s.ops[o := s.ops[o].(flying := false)]);
            && Good(s1, o, 2) && Idle(s1, o) && ResourceThere(s1, s1.ops[o].info) && 2 <= s1.ops[o].refs <= 3
            && (s1.ops[o].runs == 0 ==> s1.ops[o].open) && (s1.ops[o].info.Recurring() ==> Alone(s1, o))
  {
    var s1 := s.(ops := s.ops[o := s.ops[o].(flying := false)]);
    NobodyHolds(s, o);
    assert OpGood(s, o, o, 0);
    LocalStep(s, s1, o, |s.res|, o, 0, 2);
    if s.ops[o].info.Recurring() {
      Released(s, s1, o);
    }
  }

  lemma FinishFlight(s: State, o: OpId, ec: int)
    requires Good(s, o, 2) && Idle(s, o) && ResourceThere(s, s.ops[o].info) && 2 <= s.ops[o].refs <= 3
    requires Counting(s, o) && (s.ops[o].info.Recurring() ==> Alone(s, o))
    ensures Good(Unref(Completed(s, o, ec), o), o, 0)
  {
    if s.ops[o].info.Recurring() {
      AloneAfter(s, o, 2, ec);
    }
    CompletedKeeps(s, o, 1, ec);
    UnrefKeeps(Completed(s, o, ec), o, 0);
  }

  lemma FlightDoneKeeps(s: State, o: OpId, ec: int)
    requires Inv(s) && Possible(s, FlightDone(o, ec)) && Contract(s, FlightDone(o, ec))
    ensures Inv(Step(s, FlightDone(o, ec)))
  {
    Landed(s, o);
    FinishFlight(s.(ops := s.ops[o := s.ops[o].(flying := false)]), o, ec);
    HoldsNothing(Step(s, FlightDone(o, ec)), o);
  }

  /** An active operation that is taken off its timer or the transport is alone. */
  lemma Released(s: State, s': State, o: OpId)
    requires Inv(s) && o < |s.ops| && Active(s, o) && s'.res == s.res && |s'.ops| == |s.ops|
    requires s'.ops == s.ops[o := s'.ops[o]] && s'.ops[o].info == s.ops[o].info
    ensures ResourceThere(s', s'.ops[o].info) && Alone(s', o)
  {
    assert OpGood(s, o, 0, 0);
    assert forall p :: 0 <= p < |s.ops| && p != o ==> Active(s', p) == Active(s, p) && s'.ops[p] == s.ops[p];
  }

  lemma TimerFiresKeeps(s: State, o: OpId)
    requires Inv(s) && Possible(s, TimerFires(o)) && Contract(s, TimerFires(o))
    ensures Inv(Step(s, TimerFires(o)))
  {
    NobodyHolds(s, o);
    assert OpGood(s, o, o, 0);
    var s1 := s.(ops := s.ops[o := s.ops[o].(armed := false)]);
    LocalStep(s, s1, o, |s.res|, o, 0, 1);
    Released(s, s1, o);
    MonitorExecuteKeeps(s1, o);
    HoldsNothing(Step(s, TimerFires(o)), o);
  }

  lemma StepKeeps(s: State, e: Event)
    requires Inv(s) && Possible(s, e) && Contract(s, e)
    ensures Inv(Step(s, e))
  {
    match e
    case Dispatch(i, history) =>
      FreshKeeps(s, i);
      if ResourceThere(s, i) {
        SameTimer(s, WithNew(s, i), i.res.value);
      }
      ExecuteKeeps(WithNew(s, i), |s.ops|, history);
      HoldsNothing(Step(s, e), |s.ops|);
    case Pseudo => EngineKeeps(s, s.online, Confirmed(s.pe));
    case NextJob => EngineKeeps(s, s.online, BeginPass(s.pe));
    case PassEnds(active) => EngineKeeps(s, s.online, EndPass(s.pe, active));
    case ProcessJobRuns =>
      forall o | 0 <= o < |s.ops| && s.pe.live.None? ensures !s.ops[o].open { assert OpGood(s, o, 0, 0); }
      EngineKeeps(s, s.online, ProcessJob(s.pe));
    case FlightDone(o, ec) => FlightDoneKeeps(s, o, ec);
    case FlightLost(o) =>
      NobodyHolds(s, o);
      assert OpGood(s, o, o, 0);
      LocalStep(s, Step(s, e), o, |s.res|, o, 0, 0);
      HoldsNothing(Step(s, e), o);
    case TimerFires(o) => TimerFiresKeeps(s, o);
    case HistoryCleared(r) => StopIfArmedKeeps(s, r, 0, 0);
    case NodeUp(h) => EngineKeeps(s, s.online + {h}, ScheduleProcessing(s.pe));
    case NodeDown(h) => EngineKeeps(s, s.online - {h}, ScheduleProcessing(s.pe));
  }

  lemma SameTimer(s: State, s': State, r: ResId)
    requires Inv(s) && r < |s.res| && s'.res == s.res && |s.ops| < |s'.ops|
    requires forall o :: 0 <= o < |s.ops| ==> s'.ops[o] == s.ops[o]
    requires forall o :: |s.ops| <= o < |s'.ops| ==> !s'.ops[o].flying
    ensures TimerRunning(s', r) == TimerRunning(s, r) && InFlight(s', r) == InFlight(s, r)
  {
    assert ResGood(s, r);
    if InFlight(s, r) {
      var o :| 0 <= o < |s.ops| && s.ops[o].flying && s.ops[o].info.Recurring() && s.ops[o].info.res == Some(r);
      assert s'.ops[o].flying;
    }
  }

  // ---- Whole runs ----

  predicate PossibleRun(s: State, run: seq<Event>)
    decreases |run|
  {
    run == [] || (Possible(s, run[0]) && PossibleRun(Step(s, run[0]), run[1..]))
  }

  function After(s: State, run: seq<Event>): State
    requires PossibleRun(s, run)
    decreases |run|
  {
    if run == [] then s else After(Step(s, run[0]), run[1..])
  }

  ghost predicate ContractKept(s: State, run: seq<Event>)
    requires PossibleRun(s, run)
    decreases |run|
  {
    run == [] || (Contract(s, run[0]) && ContractKept(Step(s, run[0]), run[1..]))
  }

  /** A daemon that has loaded its configuration: resources, no operations, no transition. */
  ghost predicate Loaded(s: State) {
    && s.ops == [] && s.pe == IDLE && s.faults == Faults(false, false, false)
    && forall r :: 0 <= r < |s.res| ==> s.res[r].monitorOp == None && s.res[r].timer == None
  }

  lemma {:induction false} RunKeeps(s: State, run: seq<Event>)
    requires Inv(s) && PossibleRun(s, run) && ContractKept(s, run)
    ensures Inv(After(s, run))
    decreases |run|
  {
    if run != [] {
      StepKeeps(s, run[0]);
      RunKeeps(Step(s, run[0]), run[1..]);
    }
  }

  /** In every reachable state an operation has at least as many references as there are places
      that can still reach it, so nothing that is armed, in flight or a monitor_op has been freed. */
  lemma NeverFreedEarly(s0: State, run: seq<Event>)
    requires Loaded(s0) && PossibleRun(s0, run) && ContractKept(s0, run)
    ensures var s := After(s0, run);
            && (forall o :: 0 <= o < |s.ops| ==> Places(s, o) <= s.ops[o].refs <= 3)
            && (forall o :: 0 <= o < |s.ops| && (s.ops[o].armed || s.ops[o].flying) ==> s.ops[o].refs > 0)
            && (forall r :: 0 <= r < |s.res| && s.res[r].monitorOp.Some? ==>
                  s.res[r].monitorOp.value < |s.ops| && s.ops[s.res[r].monitorOp.value].refs > 0)
            && !s.faults.freed && !s.faults.missing
  {
    RunKeeps(s0, run);
    var s := After(s0, run);
    forall o | 0 <= o < |s.ops| ensures Places(s, o) <= s.ops[o].refs <= 3 { assert OpGood(s, o, 0, 0); }
    forall r | 0 <= r < |s.res| && s.res[r].monitorOp.Some?
      ensures s.res[r].monitorOp.value < |s.ops| && s.ops[s.res[r].monitorOp.value].refs > 0
    {
      assert ResGood(s, r) && OpGood(s, s.res[r].monitorOp.value, 0, 0);
    }
  }

  /** Per resource at most one recurring operation is armed or in flight; its timer is the one
      monitor_timer refers to, and monitor_op, if set, is that operation. */
  lemma OneMonitorPerResource(s0: State, run: seq<Event>)
    requires Loaded(s0) && PossibleRun(s0, run) && ContractKept(s0, run)
    ensures var s := After(s0, run);
            && (forall o, p | 0 <= o < |s.ops| && 0 <= p < |s.ops| && Active(s, o) && Active(s, p) ::
                  s.ops[o].info.res == s.ops[p].info.res ==> o == p)
            && (forall o :: 0 <= o < |s.ops| && Active(s, o) ==>
                  ResourceThere(s, s.ops[o].info)
                  && s.res[s.ops[o].info.res.value].monitorOp in {None, Some(o)}
                  && (s.ops[o].armed ==> s.res[s.ops[o].info.res.value].timer == Some(o)))
  {
    RunKeeps(s0, run);
    var s := After(s0, run);
    forall o | 0 <= o < |s.ops| && Active(s, o)
      ensures ResourceThere(s, s.ops[o].info) && (s.ops[o].armed ==> s.res[s.ops[o].info.res.value].timer == Some(o))
    {
      assert OpGood(s, o, 0, 0);
    }
  }

  /** No action is ever confirmed twice or after its transition was destroyed, however often its
      operation runs: whatever is still unconfirmed belongs to the live transition. */
  lemma ConfirmedOnceAndAlive(s0: State, run: seq<Event>)
    requires Loaded(s0) && PossibleRun(s0, run) && ContractKept(s0, run)
    ensures var s := After(s0, run);
            && !s.faults.stale
            && (forall o :: 0 <= o < |s.ops| && s.ops[o].open ==> s.pe.live == Some(s.ops[o].info.graph))
            && (forall o :: 0 <= o < |s.ops| && s.ops[o].flying && s.ops[o].runs == 0 ==> s.ops[o].open)
  {
    RunKeeps(s0, run);
    var s := After(s0, run);
    forall o | 0 <= o < |s.ops|
      ensures s.ops[o].open ==> s.pe.live == Some(s.ops[o].info.graph)
      ensures s.ops[o].flying && s.ops[o].runs == 0 ==> s.ops[o].open
    {
      assert OpGood(s, o, 0, 0);
    }
  }

  lemma {:induction false} Extend(s0: State, run: seq<Event>, e: Event) returns (run': seq<Event>, s': State)
    requires PossibleRun(s0, run) && Possible(After(s0, run), e)
    ensures run' == run + [e] && PossibleRun(s0, run')
    ensures s' == Step(After(s0, run), e) == After(s0, run')
    decreases |run|
  {
    run', s' := run + [e], Step(After(s0, run), e);
    if run == [] {
      assert run'[1..] == [];
    } else {
      var r, t := Extend(Step(s0, run[0]), run[1..], e);
      assert run'[1..] == r;
    }
  }
}
