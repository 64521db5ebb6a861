/**
  What each event of the daemon does, stated apart from how it does it: what it asks of the policy
  loop, what is executed and what is armed, which state the resources are in, and how many references
  an operation has left.
 */
module EngineEffects {
  import opened Options
  import opened OpLifecycle
  import P = PolicyLoop

  /** A completed execution confirms its action, if it counts as the first, and asks for processing, if
      its exit code is not the expected one. */
  function Completion(s: State, op: Op, ec: int): seq<P.Event> {
    (if (op.runs + 1) % TWO_32 <= 1 then [P.Confirm] else [])
    + (if ec != op.info.target && (ResourceThere(s, op.info) || NeedsNoResource(op.info, ec)) then [P.Request] else [])
  }

  /** A dispatched action on a running host is confirmed at once when there is nothing to execute. */
  predicate ConfirmedAtOnce(s: State, i: Info) {
    match i.verb
    case Monitor => !i.mentionsHost || (ResourceThere(s, i) && i.Recurring() && TimerRunning(s, i.res.value))
    case Delete => true
    case _ => false
  }

  /** What an event of the daemon is to the policy loop. */
  function EngineEvents(s: State, e: Event): seq<P.Event>
    requires Possible(s, e)
  {
    match e
    case Dispatch(i, _) =>
      if i.host !in s.online then Completion(s, Op(i, 1, 0, true, false, false), OCF_UNKNOWN_ERROR)
      else if ConfirmedAtOnce(s, i) then [P.Confirm] else []
    case Pseudo => [P.Confirm]
    case NextJob => [P.RunNextJob]
    case PassEnds(active) => [P.Finish(active)]
    case ProcessJobRuns => [P.RunProcessJob]
    case FlightDone(o, ec) => Completion(s, s.ops[o], ec)
    case FlightLost(_) => []
    case TimerFires(o) => if s.ops[o].info.host in s.online then [] else Completion(s, s.ops[o], OCF_UNKNOWN_ERROR)
    case HistoryCleared(_) => []
    case NodeUp(_) => [P.Request]
    case NodeDown(_) => [P.Request]
  }

  lemma {:induction false} One(p: P.Pe, e: P.Event)
    requires P.Allowed(p, e)
    ensures P.PossibleRun(p, [e]) && P.After(p, [e]) == P.Step(p, e)
  {
    assert [e][1..] == [];
  }

  lemma {:induction false} Two(p: P.Pe, e: P.Event, f: P.Event)
    requires P.Allowed(p, e) && P.Allowed(P.Step(p, e), f)
    ensures P.PossibleRun(p, [e, f]) && P.After(p, [e, f]) == P.Step(P.Step(p, e), f)
  {
    assert [e, f][1..] == [f];
    One(P.Step(p, e), f);
  }

  /** What completing an operation does to the engine. */
  lemma CompletedEngine(s: State, x: OpId, ec: int)
    requires x < |s.ops|
    ensures var op := s.ops[x];
            var told := if (op.runs + 1) % TWO_32 <= 1 then P.Confirmed(s.pe) else s.pe;
            Completed(s, x, ec).pe == if ec != op.info.target && (ResourceThere(s, op.info) || NeedsNoResource(op.info, ec))
                                      then P.ScheduleProcessing(told) else told
  {
    var i, ran := s.ops[x].info, Ran(s, x);
    if ResourceThere(s, i) {
      var to := StateAfter(i, ec);
      assert to.Some? ==> SetResourceState(ran, i.res.value, to.value).pe == ran.pe;
    }
  }

  lemma CompletionEngine(s: State, x: OpId, ec: int)
    requires x < |s.ops|
    ensures var run := Completion(s, s.ops[x], ec);
            P.PossibleRun(s.pe, run) && Completed(s, x, ec).pe == P.After(s.pe, run)
  {
    CompletedEngine(s, x, ec);
    One(s.pe, P.Confirm);
    One(s.pe, P.Request);
    Two(s.pe, P.Confirm, P.Request);
    assert [P.Confirm] + [P.Request] == [P.Confirm, P.Request];
    assert [P.Confirm] + [] == [P.Confirm] && [] + [P.Request] == [P.Request];
  }

  lemma LaunchEngine(s: State, x: OpId)
    requires x < |s.ops|
    ensures Launch(s, x).pe == s.pe && Unref(s, x).pe == s.pe && Ref(s, x).pe == s.pe
  {
  }

  lemma StopEngine(s: State, r: ResId, m: OpId)
    requires r < |s.res| && m < |s.ops|
    ensures RecurringStop(s, r, m).pe == s.pe && StopIfArmed(s, r).pe == s.pe
    ensures |RecurringStop(s, r, m).ops| == |StopIfArmed(s, r).ops| == |s.ops|
  {
  }

  lemma MonitorEngine(s: State, r: ResId, x: OpId)
    requires r < |s.res| && x < |s.ops| && s.ops[x].info.host in s.online
    ensures MonitorExecute(s, x).pe == s.pe
    ensures RecurringStart(s, r, x).pe == if TimerRunning(s, r) then P.Confirmed(s.pe) else s.pe
  {
    if !TimerRunning(s, r) {
      var s1 := Ref(s, x);
      LaunchEngine(s1.(res := s1.res[r := s1.res[r].(monitorOp := Some(x))]), x);
    }
  }

  lemma ExecuteEngine(s: State, x: OpId, history: bool)
    requires x < |s.ops| && s.ops[x].info.host in s.online
    ensures Execute(s, x, history).pe == if ConfirmedAtOnce(s, s.ops[x].info) then P.Confirmed(s.pe) else s.pe
  {
    var i := s.ops[x].info;
    if ResourceThere(s, i) && !(i.verb == Monitor && !i.mentionsHost) {
      var r, m := i.res.value, s.res[i.res.value].monitorOp;
      match i.verb
      case Monitor => MonitorEngine(s, r, x);
      case Start =>
      case Stop =>
        if m.Some? && m.value < |s.ops| {
          StopEngine(s, r, m.value);
        }
      case Delete => StopEngine(s, r, x);
    }
  }

  lemma SameThere(s: State, i: Info)
    requires Inv(s)
    ensures ResourceThere(WithNew(s, i), i) == ResourceThere(s, i)
    ensures ResourceThere(s, i) ==> TimerRunning(WithNew(s, i), i.res.value) == TimerRunning(s, i.res.value)
    ensures ConfirmedAtOnce(WithNew(s, i), i) == ConfirmedAtOnce(s, i)
  {
    if ResourceThere(s, i) {
      SameTimer(s, WithNew(s, i), i.res.value);
    }
  }

  /** Every event does to the policy loop exactly what it stands for. */
  lemma EngineFollows(s: State, e: Event)
    requires Inv(s) && Possible(s, e)
    ensures P.PossibleRun(s.pe, EngineEvents(s, e)) && Step(s, e).pe == P.After(s.pe, EngineEvents(s, e))
  {
    match e
    case Dispatch(i, history) => DispatchEngine(s, i, history);
    case FlightDone(o, ec) => FlightEngine(s, o, ec);
    case TimerFires(o) => TimerEngine(s, o);
    case Pseudo => One(s.pe, P.Confirm);
    case NextJob => One(s.pe, P.RunNextJob);
    case PassEnds(active) => One(s.pe, P.Finish(active));
    case ProcessJobRuns => One(s.pe, P.RunProcessJob);
    case FlightLost(_) =>
    case HistoryCleared(r) =>
    case NodeUp(_) => One(s.pe, P.Request);
    case NodeDown(_) => One(s.pe, P.Request);
  }

  lemma DispatchEngine(s: State, i: Info, history: bool)
    requires var e := Dispatch(i, history); Inv(s) && Possible(s, e)
    ensures var e := Dispatch(i, history);
            P.PossibleRun(s.pe, EngineEvents(s, e)) && Step(s, e).pe == P.After(s.pe, EngineEvents(s, e))
  {
    SameThere(s, i);
    One(s.pe, P.Confirm);
    if i.host in s.online {
      ExecuteEngine(WithNew(s, i), |s.ops|, history);
    } else {
      CompletionEngine(WithNew(s, i), |s.ops|, OCF_UNKNOWN_ERROR);
    }
  }

  lemma FlightEngine(s: State, o: OpId, ec: int)
    requires Possible(s, FlightDone(o, ec))
    ensures var run := Completion(s, s.ops[o], ec);
            P.PossibleRun(s.pe, run) && Step(s, FlightDone(o, ec)).pe == P.After(s.pe, run)
  {
    var s1 := s.(ops := s.ops[o := s.ops[o].(flying := false)]);
    CompletionEngine(s1, o, ec);
    assert Completion(s1, s1.ops[o], ec) == Completion(s, s.ops[o], ec);
  }

  lemma TimerEngine(s: State, o: OpId)
    requires Possible(s, TimerFires(o))
    ensures var run := EngineEvents(s, TimerFires(o));
            P.PossibleRun(s.pe, run) && Step(s, TimerFires(o)).pe == P.After(s.pe, run)
  {
    var s1 := s.(ops := s.ops[o := s.ops[o].(armed := false)]);
    CompletionEngine(s1, o, OCF_UNKNOWN_ERROR);
    assert Completion(s1, s1.ops[o], OCF_UNKNOWN_ERROR) == Completion(s, s.ops[o], OCF_UNKNOWN_ERROR);
  }

  // ---- Whole runs ----

  function EngineRun(s: State, run: seq<Event>): seq<P.Event>
    requires PossibleRun(s, run)
    decreases |run|
  {
    if run == [] then [] else EngineEvents(s, run[0]) + EngineRun(Step(s, run[0]), run[1..])
  }

  lemma {:induction false} RunsJoin(p: P.Pe, a: seq<P.Event>, b: seq<P.Event>)
    requires P.PossibleRun(p, a) && P.PossibleRun(P.After(p, a), b)
    ensures P.PossibleRun(p, a + b) && P.After(p, a + b) == P.After(P.After(p, a), b)
    decreases |a|
  {
    if a == [] {
      assert a + b == b;
    } else {
      RunsJoin(P.Step(p, a[0]), a[1..], b);
      assert (a + b)[1..] == a[1..] + b;
    }
  }

  /** The daemon refines the policy loop: every run of the daemon that keeps the contract is a run of the
      loop, so what is proved of the loop's runs holds of the daemon's. */
  lemma {:induction false} RefinesLoop(s: State, run: seq<Event>)
    requires Inv(s) && PossibleRun(s, run) && ContractKept(s, run)
    ensures P.PossibleRun(s.pe, EngineRun(s, run)) && After(s, run).pe == P.After(s.pe, EngineRun(s, run))
    decreases |run|
  {
    if run != [] {
      EngineFollows(s, run[0]);
      StepKeeps(s, run[0]);
      RefinesLoop(Step(s, run[0]), run[1..]);
      RunsJoin(s.pe, EngineEvents(s, run[0]), EngineRun(Step(s, run[0]), run[1..]));
    }
  }

  /** This event ends the execution of an operation with this exit code. */
  predicate Ends(s: State, e: Event, op: Op, ec: int)
    requires Possible(s, e)
  {
    match e
    case FlightDone(o, c) => op == s.ops[o] && ec == c
    case TimerFires(o) => op == s.ops[o] && op.info.host !in s.online && ec == OCF_UNKNOWN_ERROR
    case Dispatch(i, _) => op == Op(i, 1, 0, true, false, false) && i.host !in s.online && ec == OCF_UNKNOWN_ERROR
    case _ => false
  }

  function Signals(first: bool, unexpected: bool): seq<P.Event> {
    (if first then [P.Confirm] else []) + (if unexpected then [P.Request] else [])
  }

  lemma SignalsRequest(p: P.Pe, first: bool, unexpected: bool)
    requires P.PossibleRun(p, Signals(first, unexpected))
    ensures P.After(p, Signals(first, unexpected)).processJobs == p.processJobs + if unexpected then 1 else 0
  {
    var run := Signals(first, unexpected);
    assert [P.Request][1..] == [] && [P.Confirm][1..] == [];
    if first {
      assert run[1..] == if unexpected then [P.Request] else [];
    } else {
      assert run == if unexpected then [P.Request] else [];
    }
  }

  lemma EndsEngine(s: State, e: Event, op: Op, ec: int)
    requires Possible(s, e) && Ends(s, e, op, ec) && ResourceThere(s, op.info)
    ensures EngineEvents(s, e) == Signals((op.runs + 1) % TWO_32 <= 1, ec != op.info.target)
  {
  }

  /** An execution asks for processing once if its exit code is not the expected one, and not at all if
      it is. */
  lemma UnexpectedIsRequested(s: State, e: Event, op: Op, ec: int)
    requires Inv(s) && Possible(s, e) && Ends(s, e, op, ec) && ResourceThere(s, op.info)
    ensures Step(s, e).pe.processJobs == s.pe.processJobs + if ec != op.info.target then 1 else 0
  {
    EngineFollows(s, e);
    EndsEngine(s, e, op, ec);
    SignalsRequest(s.pe, (op.runs + 1) % TWO_32 <= 1, ec != op.info.target);
  }

  /** The status is rebuilt by this event. */
  predicate Rebuilds(s: State, e: Event) {
    e == ProcessJobRuns && s.pe.live.None?
  }

  predicate NoRebuild(s: State, run: seq<Event>)
    requires PossibleRun(s, run)
    decreases |run|
  {
    run == [] || (!Rebuilds(s, run[0]) && NoRebuild(Step(s, run[0]), run[1..]))
  }

  lemma RequestStays(s: State, e: Event)
    requires Inv(s) && Possible(s, e) && !Rebuilds(s, e) && s.pe.processJobs > 0
    ensures Step(s, e).pe.processJobs > 0
  {
    var run := EngineEvents(s, e);
    EngineFollows(s, e);
    if e != ProcessJobRuns {
      P.RequestsBalance(s.pe, run);
      NoneRebuilds(s.pe, run);
    }
  }

  lemma {:induction false} NoneRebuilds(p: P.Pe, run: seq<P.Event>)
    requires P.PossibleRun(p, run) && P.RunProcessJob !in run
    ensures P.RebuildsIn(p, run) == 0
    decreases |run|
  {
    if run != [] {
      NoneRebuilds(P.Step(p, run[0]), run[1..]);
    }
  }

  lemma {:induction false} RequestStaysLong(s: State, run: seq<Event>)
    requires Inv(s) && PossibleRun(s, run) && ContractKept(s, run) && NoRebuild(s, run) && s.pe.processJobs > 0
    ensures After(s, run).pe.processJobs > 0
    decreases |run|
  {
    if run != [] {
      RequestStays(s, run[0]);
      StepKeeps(s, run[0]);
      RequestStaysLong(Step(s, run[0]), run[1..]);
    }
  }

  /** A result that was not expected is acted upon: from then on a process_job is queued, whatever else
      happens, until the status has been rebuilt. */
  lemma UnexpectedIsProcessed(s: State, e: Event, op: Op, ec: int, run: seq<Event>)
    requires Inv(s) && Possible(s, e) && Contract(s, e) && Ends(s, e, op, ec)
    requires ResourceThere(s, op.info) && ec != op.info.target
    requires PossibleRun(Step(s, e), run) && ContractKept(Step(s, e), run) && NoRebuild(Step(s, e), run)
    ensures After(Step(s, e), run).pe.processJobs > 0
  {
    UnexpectedIsRequested(s, e, op, ec);
    StepKeeps(s, e);
    RequestStaysLong(Step(s, e), run);
  }
}

/** The exact number of references of every operation. */
module RefAccount {
  import opened Options
  import opened RecoverStates
  import opened OpLifecycle

  /** References that no place accounts for. */
  function Surplus(s: State, o: OpId): int
    requires o < |s.ops|
  {
    s.ops[o].refs - Places(s, o)
  }

  /** Giving the resource this state takes its timer, which is that of `o`, away. */
  predicate Unarms(s: State, i: Info, ec: int, o: OpId) {
    && ResourceThere(s, i) && StateAfter(i, ec) == Some(Failed) && s.res[i.res.value].state != Failed
    && TimerRunning(s, i.res.value) && s.res[i.res.value].timer == Some(o)
  }

  lemma SmallSteps(s: State, x: OpId, o: OpId)
    requires x < |s.ops| && o < |s.ops| && s.ops[x].refs > 0
    ensures Surplus(Ref(s, x), o) == Surplus(s, o) + if o == x then 1 else 0
    ensures Surplus(Unref(s, x), o) == Surplus(s, o) - if o == x then 1 else 0
    ensures Surplus(Confirm(s, x), o) == Surplus(s, o)
  {
  }

  lemma LaunchSurplus(s: State, x: OpId, o: OpId)
    requires x < |s.ops| && o < |s.ops| && !s.ops[x].flying
    ensures Surplus(Launch(s, x), o) == Surplus(s, o) - if o == x then 1 else 0
  {
  }

  lemma SettleSurplus(s: State, i: Info, ec: int, o: OpId)
    requires ResourceThere(s, i) && o < |s.ops|
    ensures var t := Settle(s, i, ec);
            && |t.ops| == |s.ops| && |t.res| == |s.res| && t.ops[o].info == s.ops[o].info
            && t.ops[o].refs == s.ops[o].refs && t.ops[o].flying == s.ops[o].flying
            && t.ops[o].armed == (s.ops[o].armed && !Unarms(s, i, ec, o))
            && Surplus(t, o) == Surplus(s, o) + if Unarms(s, i, ec, o) then 1 else 0
  {
  }

  lemma RanSurplus(s: State, x: OpId, o: OpId)
    requires x < |s.ops| && o < |s.ops|
    ensures var t := Ran(s, x);
            && |t.ops| == |s.ops| && t.res == s.res && t.ops[o].info == s.ops[o].info && t.ops[o].refs == s.ops[o].refs
            && t.ops[o].armed == s.ops[o].armed && t.ops[o].flying == s.ops[o].flying && Surplus(t, o) == Surplus(s, o)
  {
  }

  lemma RanUnarms(s: State, x: OpId, ec: int, o: OpId)
    requires x < |s.ops|
    ensures Unarms(Ran(s, x), s.ops[x].info, ec, o) == Unarms(s, s.ops[x].info, ec, o)
  {
    var i := s.ops[x].info;
    if ResourceThere(s, i) && s.res[i.res.value].timer.Some? && s.res[i.res.value].timer.value < |s.ops| {
      RanSurplus(s, x, s.res[i.res.value].timer.value);
    }
  }

  lemma TimerAddSurplus(s: State, r: ResId, x: OpId, o: OpId)
    requires r < |s.res| && x < |s.ops| && o < |s.ops| && !s.ops[x].armed
    ensures Surplus(TimerAdd(s, r, x), o) == Surplus(s, o) - if o == x then 1 else 0
  {
  }

  /** A completed execution hands its reference to the timer or drops it. */
  lemma CompletedSurplus(s: State, x: OpId, ec: int, o: OpId)
    requires x < |s.ops| && o < |s.ops| && Idle(s, x) && s.ops[x].refs > 0
    requires ResourceThere(s, s.ops[x].info) || NeedsNoResource(s.ops[x].info, ec)
    ensures |Completed(s, x, ec).ops| == |s.ops|
    ensures Surplus(Completed(s, x, ec), o)
         == Surplus(s, o) + (if Unarms(s, s.ops[x].info, ec, o) then 1 else 0) - (if o == x then 1 else 0)
  {
    var i, ran := s.ops[x].info, Ran(s, x);
    RanSurplus(s, x, o);
    RanSurplus(s, x, x);
    RanUnarms(s, x, ec, o);
    if ResourceThere(s, i) {
      SettleSurplus(ran, i, ec, o);
      SettleSurplus(ran, i, ec, x);
      var settled := Settle(ran, i, ec);
      if i.interval > 0 && ec == i.target {
        TimerAddSurplus(settled, i.res.value, x, o);
      } else {
        SmallSteps(settled, x, o);
      }
    } else {
      SmallSteps(if ec != i.target then Schedule(ran) else ran, x, o);
    }
  }

  lemma MonitorSurplus(s: State, x: OpId, o: OpId)
    requires x < |s.ops| && o < |s.ops| && Idle(s, x) && s.ops[x].refs > 0 && ResourceThere(s, s.ops[x].info)
    requires s.ops[x].info.host !in s.online ==> !Unarms(s, s.ops[x].info, OCF_UNKNOWN_ERROR, o)
    ensures |MonitorExecute(s, x).ops| == |s.ops|
    ensures Surplus(MonitorExecute(s, x), o) == Surplus(s, o) - if o == x then 1 else 0
  {
    if s.ops[x].info.host !in s.online {
      CompletedSurplus(s, x, OCF_UNKNOWN_ERROR, o);
    } else {
      LaunchSurplus(s, x, o);
    }
  }

  /** monitor_op moves from `m` to `x`. */
  lemma TakeOverSurplus(s: State, r: ResId, x: OpId, o: OpId)
    requires r < |s.res| && x < |s.ops| && o < |s.ops| && s.ops[x].info.res == Some(r) && s.res[r].monitorOp != Some(x)
    requires ResGood(s, r)
    ensures var t := s.(res := s.res[r := s.res[r].(monitorOp := Some(x))]);
            Surplus(t, o) == Surplus(s, o) - (if o == x then 1 else 0) + (if s.res[r].monitorOp == Some(o) then 1 else 0)
  {
  }

  /** What an event loses of the references of `o`: those of an execution that is lost, of monitor_op
      when another operation takes its place, and of a timer that a failing resource loses. */
  function Lost(s: State, e: Event, o: OpId): nat
    requires Possible(s, e)
  {
    match e
    case FlightLost(p) => if p == o then 2 else 0
    case Dispatch(i, _) => LostTo(s, i, o)
    case _ => 0
  }

  function LostTo(s: State, i: Info, o: OpId): nat {
    if i.host !in s.online then if Unarms(s, i, OCF_UNKNOWN_ERROR, o) then 1 else 0
    else if i.verb == Monitor && i.mentionsHost && i.Recurring() && ResourceThere(s, i)
            && !TimerRunning(s, i.res.value) && s.res[i.res.value].monitorOp == Some(o) then 1
    else 0
  }

  lemma FlightSurplus(s: State, x: OpId, ec: int, o: OpId)
    requires Inv(s) && Possible(s, FlightDone(x, ec)) && o < |s.ops|
    ensures Surplus(Step(s, FlightDone(x, ec)), o) == Surplus(s, o)
  {
    var s1 := s.(ops := s.ops[x := s.ops[x].(flying := false)]);
    assert OpGood(s, x, 0, 0) && OpGood(s, o, 0, 0) && ResGood(s, s.ops[x].info.res.value);
    assert Surplus(s1, o) == Surplus(s, o) + if o == x then 2 else 0;
    assert !Unarms(s1, s.ops[x].info, ec, o) by {
      assert Active(s, x) || !s.ops[x].info.Recurring();
    }
    CompletedSurplus(s1, x, ec, o);
    CompletedSurplus(s1, x, ec, x);
    CompletedHeld(s1, x, ec);
    SmallSteps(Completed(s1, x, ec), x, o);
  }

  lemma CompletedHeld(s: State, x: OpId, ec: int)
    requires x < |s.ops| && Idle(s, x) && s.ops[x].refs > 1 && ResourceThere(s, s.ops[x].info)
    ensures |Completed(s, x, ec).ops| == |s.ops| && Completed(s, x, ec).ops[x].refs > 0
  {
    RanSurplus(s, x, x);
    SettleSurplus(Ran(s, x), s.ops[x].info, ec, x);
  }

  lemma TimerSurplus(s: State, x: OpId, o: OpId)
    requires Inv(s) && Possible(s, TimerFires(x)) && o < |s.ops|
    ensures Surplus(Step(s, TimerFires(x)), o) == Surplus(s, o)
  {
    var s1 := s.(ops := s.ops[x := s.ops[x].(armed := false)]);
    assert OpGood(s, x, 0, 0) && OpGood(s, o, 0, 0) && ResGood(s, s.ops[x].info.res.value);
    assert Surplus(s1, o) == Surplus(s, o) + if o == x then 1 else 0;
    MonitorSurplus(s1, x, o);
  }

  lemma StopSurplus(s: State, r: ResId, x: OpId, k: nat, o: OpId)
    requires Good(s, x, k) && r < |s.res| && o < |s.ops|
    ensures Surplus(StopIfArmed(s, r), o) == Surplus(s, o)
    ensures s.res[r].monitorOp.Some? ==>
              var m := s.res[r].monitorOp.value; m < |s.ops| && Surplus(RecurringStop(s, r, m), o) == Surplus(s, o)
  {
    var m := s.res[r].monitorOp;
    assert ResGood(s, r);
    if m.Some? {
      StopShape(s, r, m.value, x, k);
    }
  }

  /** A new operation, with its one reference in hand. */
  ghost predicate New(s: State, x: OpId) {
    && Good(s, x, 1) && Idle(s, x) && s.ops[x].runs == 0 && s.ops[x].open && s.ops[x].refs == 1
    && Resolved(s, s.ops[x].info) && !IsMonitorOp(s, x)
  }

  lemma RecurringStartSurplus(s: State, r: ResId, x: OpId, o: OpId)
    requires New(s, x) && o < |s.ops| && r < |s.res| && s.ops[x].info.res == Some(r) && s.ops[x].info.host in s.online
    ensures Surplus(RecurringStart(s, r, x), o)
         == Surplus(s, o) - (if o == x then 1 else 0)
            + (if !TimerRunning(s, r) && s.res[r].monitorOp == Some(o) then 1 else 0)
  {
    SmallSteps(s, x, o);
    if TimerRunning(s, r) {
      SmallSteps(Confirm(s, x), x, o);
    } else {
      assert ResGood(s, r);
      var s1 := Ref(s, x);
      assert ResGood(s1, r);
      TakeOverSurplus(s1, r, x, o);
      LaunchSurplus(s1.(res := s1.res[r := s1.res[r].(monitorOp := Some(x))]), x, o);
    }
  }

  lemma StopActionSurplus(s: State, x: OpId, o: OpId)
    requires New(s, x) && o < |s.ops| && s.ops[x].info.verb == Stop && s.ops[x].info.host in s.online
    requires ResourceThere(s, s.ops[x].info)
    ensures |Execute(s, x, false).ops| == |s.ops| && Execute(s, x, true) == Execute(s, x, false)
    ensures Surplus(Execute(s, x, false), o) == Surplus(s, o) - if o == x then 1 else 0
  {
    var r := s.ops[x].info.res.value;
    var m := s.res[r].monitorOp;
    assert ResGood(s, r);
    if m.Some? {
      StopSurplus(s, r, x, 1, o);
      RecurringStopKeeps(s, r, m.value, x, 1);
      LaunchSurplus(RecurringStop(s, r, m.value), x, o);
    } else {
      LaunchSurplus(s, x, o);
    }
  }

  lemma DeleteActionSurplus(s: State, x: OpId, history: bool, o: OpId)
    requires New(s, x) && o < |s.ops| && s.ops[x].info.verb == Delete && s.ops[x].info.host in s.online
    requires ResourceThere(s, s.ops[x].info)
    ensures |Execute(s, x, history).ops| == |s.ops|
    ensures Surplus(Execute(s, x, history), o) == Surplus(s, o) - if o == x then 1 else 0
  {
    var r := s.ops[x].info.res.value;
    assert ResGood(s, r);
    StopSurplus(s, r, x, 1, o);
    StopIfArmedKeeps(s, r, x, 1);
    var s1 := if history then StopIfArmed(s, r) else s;
    SmallSteps(s1, x, o);
    SmallSteps(Confirm(s1, x), x, o);
  }

  lemma ExecuteSurplus(s: State, x: OpId, history: bool, o: OpId)
    requires New(s, x) && o < |s.ops|
    ensures |Execute(s, x, history).ops| == |s.ops|
    ensures Surplus(Execute(s, x, history), o)
         == Surplus(s, o) - (if o == x then 1 else 0) + LostTo(s, s.ops[x].info, o)
  {
    var i := s.ops[x].info;
    if i.host !in s.online {
      CompletedSurplus(s, x, OCF_UNKNOWN_ERROR, o);
    } else if !ResourceThere(s, i) || (i.verb == Monitor && !i.mentionsHost) {
      SmallSteps(s, x, o);
      SmallSteps(Confirm(s, x), x, o);
    } else {
      match i.verb
      case Monitor =>
        if i.Recurring() { RecurringStartSurplus(s, i.res.value, x, o); } else { LaunchSurplus(s, x, o); }
      case Start => LaunchSurplus(s, x, o);
      case Stop => StopActionSurplus(s, x, o);
      case Delete => DeleteActionSurplus(s, x, history, o);
    }
  }

  lemma NewIsNew(s: State, i: Info)
    requires Inv(s) && s.pe.live == Some(i.graph) && Resolved(s, i)
    ensures New(WithNew(s, i), |s.ops|) && Surplus(WithNew(s, i), |s.ops|) == 1
    ensures forall o: OpId :: o < |s.ops| ==> Surplus(WithNew(s, i), o) == Surplus(s, o)
    ensures forall o: OpId :: o <= |s.ops| ==> LostTo(WithNew(s, i), i, o) == if o < |s.ops| then LostTo(s, i, o) else 0
  {
    FreshKeeps(s, i);
    if ResourceThere(s, i) {
      assert ResGood(s, i.res.value);
      SameTimer(s, WithNew(s, i), i.res.value);
    }
  }

  /** Every event changes what no place accounts for exactly by what it loses; a new operation starts
      with nothing unaccounted for. */
  lemma StepSurplus(s: State, e: Event, o: OpId)
    requires Inv(s) && Possible(s, e) && Contract(s, e) && o < |Step(s, e).ops|
    ensures Surplus(Step(s, e), o) == if o < |s.ops| then Surplus(s, o) + Lost(s, e, o) else 0
  {
    StepGrows(s, e);
    match e
    case Dispatch(i, history) =>
      NewIsNew(s, i);
      ExecuteSurplus(WithNew(s, i), |s.ops|, history, |s.ops|);
      ExecuteSurplus(WithNew(s, i), |s.ops|, history, o);
    case FlightDone(x, ec) =>
      assert OpGood(s, x, 0, 0);
      CompletedHeld(s.(ops := s.ops[x := s.ops[x].(flying := false)]), x, ec);
      FlightSurplus(s, x, ec, o);
    case TimerFires(x) =>
      assert OpGood(s, x, 0, 0);
      MonitorSurplus(s.(ops := s.ops[x := s.ops[x].(armed := false)]), x, x);
      TimerSurplus(s, x, o);
    case HistoryCleared(r) =>
      StopIfArmedKeeps(s, r, 0, 0);
      StopSurplus(s, r, 0, 0, o);
    case _ =>
  }

  // ---- Whole runs ----

  /** What the run loses of the references of `o`. */
  function Losses(s: State, run: seq<Event>, o: OpId): nat
    requires PossibleRun(s, run)
    decreases |run|
  {
    if run == [] then 0
    else (if o < |s.ops| then Lost(s, run[0], o) else 0) + Losses(Step(s, run[0]), run[1..], o)
  }

  lemma {:induction false} RunSurplus(s: State, run: seq<Event>, o: OpId)
    requires Inv(s) && PossibleRun(s, run) && ContractKept(s, run) && o < |After(s, run).ops|
    ensures Surplus(After(s, run), o) == (if o < |s.ops| then Surplus(s, o) else 0) + Losses(s, run, o)
    decreases |run|
  {
    if run != [] {
      var t := Step(s, run[0]);
      StepKeeps(s, run[0]);
      StepGrows(s, run[0]);
      RunSurplus(t, run[1..], o);
      if o < |t.ops| {
        StepSurplus(s, run[0], o);
      }
    }
  }

  lemma StepGrows(s: State, e: Event)
    requires Inv(s) && Possible(s, e) && Contract(s, e)
    ensures |s.ops| <= |Step(s, e).ops|
  {
    match e
    case Dispatch(i, history) =>
      NewIsNew(s, i);
      ExecuteSurplus(WithNew(s, i), |s.ops|, history, |s.ops|);
    case FlightDone(x, ec) =>
      assert OpGood(s, x, 0, 0);
      CompletedHeld(s.(ops := s.ops[x := s.ops[x].(flying := false)]), x, ec);
    case TimerFires(x) =>
      assert OpGood(s, x, 0, 0);
      MonitorSurplus(s.(ops := s.ops[x := s.ops[x].(armed := false)]), x, x);
    case HistoryCleared(r) => StopIfArmedKeeps(s, r, 0, 0);
    case _ =>
  }

  /** In every run that keeps the contract, an operation has exactly one reference for every place that can
      reach it, and what the run lost of it: executions that a timeout or a disconnection dropped, a
      monitor_op that was overwritten, a timer that a failure took away. So without such a loss it is freed
      exactly when nothing reaches it any more. */
  lemma ExactReferences(s0: State, run: seq<Event>, o: OpId)
    requires Loaded(s0) && PossibleRun(s0, run) && ContractKept(s0, run) && o < |After(s0, run).ops|
    ensures var s := After(s0, run);
            && s.ops[o].refs == Places(s, o) + Losses(s0, run, o)
            && (s.ops[o].refs == 0 <==> Places(s, o) == 0 && Losses(s0, run, o) == 0)
  {
    RunSurplus(s0, run, o);
  }
}

/** What is executed, armed and watched after an event, and the state of the resources. */
module OpDecisions {
  import opened Options
  import opened RecoverStates
  import opened OpLifecycle
  import RefAccount

  /** The action is handed to the transport. */
  predicate SentOff(s: State, i: Info) {
    && i.host in s.online && ResourceThere(s, i)
    && match i.verb
       case Monitor => i.mentionsHost && !(i.Recurring() && TimerRunning(s, i.res.value))
       case Start => true
       case Stop => true
       case Delete => false
  }

  /** A dispatched action is in flight exactly when it was handed to the transport, and only then does its
      graph action still wait; it is armed exactly when its host is not running and the error was expected. */
  lemma DispatchDecides(s: State, i: Info, history: bool)
    requires Inv(s) && Possible(s, Dispatch(i, history)) && Contract(s, Dispatch(i, history))
    ensures var s' := Step(s, Dispatch(i, history));
            && |s'.ops| == |s.ops| + 1 && s'.ops[|s.ops|].info == i
            && (s'.ops[|s.ops|].flying <==> SentOff(s, i))
            && (s'.ops[|s.ops|].open <==> SentOff(s, i))
            && s'.ops[|s.ops|].runs == (if i.host in s.online then 0 else 1)
            && (s'.ops[|s.ops|].armed <==>
                  i.host !in s.online && ResourceThere(s, i) && i.Recurring() && i.target == OCF_UNKNOWN_ERROR)
  {
    var x, s1 := |s.ops|, WithNew(s, i);
    RefAccount.NewIsNew(s, i);
    RefAccount.ExecuteSurplus(s1, x, history, x);
    if i.host !in s.online {
      CompletedDecides(s1, x, OCF_UNKNOWN_ERROR);
    } else if ResourceThere(s, i) {
      SameTimer(s, s1, i.res.value);
      ThereDecides(s1, x, history);
    }
  }

  /** After an execution has been completed. */
  lemma CompletedDecides(s: State, x: OpId, ec: int)
    requires x < |s.ops| && Idle(s, x) && s.ops[x].refs > 0
    requires ResourceThere(s, s.ops[x].info) || NeedsNoResource(s.ops[x].info, ec)
    ensures var s' := Completed(s, x, ec); var i := s.ops[x].info;
            && |s'.ops| == |s.ops| && |s'.res| == |s.res| && s'.ops[x].info == i && !s'.ops[x].flying
            && s'.ops[x].runs == s.ops[x].runs + 1
            && s'.ops[x].open == (s.ops[x].open && !((s.ops[x].runs + 1) % TWO_32 <= 1 && s.pe.live.Some?))
            && (s'.ops[x].armed <==> ResourceThere(s, i) && i.Recurring() && ec == i.target)
            && (s'.ops[x].armed ==> s'.res[i.res.value].timer == Some(x))
  {
    var i, ran := s.ops[x].info, Ran(s, x);
    RefAccount.RanSurplus(s, x, x);
    if ResourceThere(s, i) {
      RefAccount.SettleSurplus(ran, i, ec, x);
      SettleLeavesOp(ran, i, ec, x);
    }
  }

  lemma SettleLeavesOp(s: State, i: Info, ec: int, x: OpId)
    requires ResourceThere(s, i) && x < |s.ops|
    ensures |Settle(s, i, ec).ops| == |s.ops|
    ensures Settle(s, i, ec).ops[x].runs == s.ops[x].runs && Settle(s, i, ec).ops[x].open == s.ops[x].open
  {
  }

  lemma SmallDecides(s: State, x: OpId)
    requires x < |s.ops|
    ensures var s' := Launch(s, x); |s'.ops| == |s.ops| && s'.ops[x] == s.ops[x].(refs := s'.ops[x].refs, flying := true)
    ensures var s' := Unref(Confirm(s, x), x);
            |s'.ops| == |s.ops| && s'.ops[x] == s.ops[x].(refs := s'.ops[x].refs, open := s.ops[x].open && s.pe.live.None?)
  {
  }

  lemma RecurringStartDecides(s: State, r: ResId, x: OpId)
    requires r < |s.res| && x < |s.ops| && s.ops[x].info.host in s.online && s.pe.live.Some? && s.ops[x].open
    ensures var s' := RecurringStart(s, r, x);
            && |s'.ops| == |s.ops|
            && s'.ops[x] == s.ops[x].(refs := s'.ops[x].refs, open := !TimerRunning(s, r),
                                      flying := s.ops[x].flying || !TimerRunning(s, r))
  {
    SmallDecides(s, x);
    var s1 := Ref(s, x);
    SmallDecides(s1.(res := s1.res[r := s1.res[r].(monitorOp := Some(x))]), x);
  }

  lemma ThereDecides(s: State, x: OpId, history: bool)
    requires RefAccount.New(s, x) && ResourceThere(s, s.ops[x].info) && s.ops[x].info.host in s.online && s.pe.live.Some?
    ensures var s' := Execute(s, x, history);
            && |s'.ops| == |s.ops| && s'.ops[x].info == s.ops[x].info && s'.ops[x].runs == 0 && !s'.ops[x].armed
            && (s'.ops[x].flying <==> SentOff(s, s.ops[x].info)) && (s'.ops[x].open <==> SentOff(s, s.ops[x].info))
  {
    var i := s.ops[x].info;
    var r := i.res.value;
    var m := s.res[r].monitorOp;
    SmallDecides(s, x);
    match i.verb
    case Monitor => RecurringStartDecides(s, r, x);
    case Start =>
    case Stop =>
      assert ResGood(s, r);
      if m.Some? {
        RecurringStopKeeps(s, r, m.value, x, 1);
        SmallDecides(RecurringStop(s, r, m.value), x);
      }
    case Delete =>
      StopIfArmedKeeps(s, r, x, 1);
      if history {
        StopKeepsLive(s, r);
        SmallDecides(StopIfArmed(s, r), x);
      }
  }

  lemma StopKeepsLive(s: State, r: ResId)
    requires r < |s.res|
    ensures StopIfArmed(s, r).pe == s.pe
  {
  }

  /** A monitor timer executes its operation if the host is running, and fails it at once if not. */
  lemma TimerDecides(s: State, x: OpId)
    requires Inv(s) && Possible(s, TimerFires(x))
    ensures var op, op' := s.ops[x], Step(s, TimerFires(x)).ops[x];
            && (op'.flying <==> op.info.host in s.online)
            && op'.runs == (if op.info.host in s.online then op.runs else op.runs + 1)
            && (op'.armed <==> op.info.host !in s.online && op.info.target == OCF_UNKNOWN_ERROR)
  {
    assert OpGood(s, x, 0, 0);
    CompletedDecides(s.(ops := s.ops[x := s.ops[x].(armed := false)]), x, OCF_UNKNOWN_ERROR);
  }

  /** An execution that completes is over; its operation is armed again exactly when it recurs and the exit
      code is the expected one. */
  lemma ResultDecides(s: State, x: OpId, ec: int)
    requires Inv(s) && Possible(s, FlightDone(x, ec))
    ensures var op, s' := s.ops[x], Step(s, FlightDone(x, ec));
            && !s'.ops[x].flying && s'.ops[x].runs == op.runs + 1
            && (s'.ops[x].armed <==> op.info.Recurring() && ec == op.info.target)
            && (s'.ops[x].armed ==> ResourceThere(s', op.info) && s'.res[op.info.res.value].timer == Some(x))
  {
    assert OpGood(s, x, 0, 0);
    CompletedDecides(s.(ops := s.ops[x := s.ops[x].(flying := false)]), x, ec);
  }

  // ---- monitor_op ----

  /** monitor_op of a resource after an event. */
  function MonitorAfter(s: State, e: Event, r: ResId): Option<OpId>
    requires Possible(s, e) && r < |s.res|
  {
    var kept := s.res[r].monitorOp;
    match e
    case HistoryCleared(q) => if q == r && TimerRunning(s, r) then None else kept
    case Dispatch(i, history) =>
      if i.res != Some(r) || i.host !in s.online then kept
      else
        (match i.verb
         case Monitor => if i.Recurring() && SentOff(s, i) then Some(|s.ops|) else kept
         case Start => kept
         case Stop => None
         case Delete => if history && TimerRunning(s, r) then None else kept)
    case _ => kept
  }

  lemma CompletedMonitors(s: State, x: OpId, ec: int, r: ResId)
    requires x < |s.ops| && r < |s.res|
    ensures var s' := Completed(s, x, ec); |s'.res| == |s.res| && s'.res[r].monitorOp == s.res[r].monitorOp
  {
    var i := s.ops[x].info;
    if ResourceThere(s, i) {
      SettleMonitors(Ran(s, x), i, ec, r);
    }
  }

  lemma SettleMonitors(s: State, i: Info, ec: int, r: ResId)
    requires ResourceThere(s, i) && r < |s.res|
    ensures |Settle(s, i, ec).res| == |s.res| && Settle(s, i, ec).res[r].monitorOp == s.res[r].monitorOp
  {
  }

  lemma ExecuteMonitors(s: State, x: OpId, history: bool, r: ResId)
    requires RefAccount.New(s, x) && r < |s.res| && s.ops[x].info.host in s.online
    ensures var s' := Execute(s, x, history); var i := s.ops[x].info; var kept := s.res[r].monitorOp;
            && |s'.res| == |s.res|
            && s'.res[r].monitorOp ==
               if i.res != Some(r) then kept
               else match i.verb
                    case Monitor => if i.Recurring() && SentOff(s, i) then Some(x) else kept
                    case Start => kept
                    case Stop => None
                    case Delete => if history && TimerRunning(s, r) then None else kept
  {
    if ResourceThere(s, s.ops[x].info) {
      assert ResGood(s, s.ops[x].info.res.value);
    }
  }

  /** A recurring monitor that is executed becomes monitor_op; a stop, and a delete or a restart while its
      timer runs, clear it; nothing else changes it. */
  lemma MonitorIs(s: State, e: Event, r: ResId)
    requires Inv(s) && Possible(s, e) && Contract(s, e) && r < |s.res|
    ensures |Step(s, e).res| == |s.res| && Step(s, e).res[r].monitorOp == MonitorAfter(s, e, r)
  {
    assert ResGood(s, r);
    match e
    case Dispatch(i, history) =>
      RefAccount.NewIsNew(s, i);
      SameTimer(s, WithNew(s, i), r);
      if i.host in s.online {
        ExecuteMonitors(WithNew(s, i), |s.ops|, history, r);
      } else {
        CompletedMonitors(WithNew(s, i), |s.ops|, OCF_UNKNOWN_ERROR, r);
      }
    case FlightDone(x, ec) => CompletedMonitors(s.(ops := s.ops[x := s.ops[x].(flying := false)]), x, ec, r);
    case TimerFires(x) => CompletedMonitors(s.(ops := s.ops[x := s.ops[x].(armed := false)]), x, OCF_UNKNOWN_ERROR, r);
    case _ =>
  }

  /** The event stops the recurring monitor of the resource. */
  predicate Stops(s: State, e: Event, r: ResId)
    requires Possible(s, e) && r < |s.res|
  {
    && s.res[r].monitorOp.Some?
    && match e
       case HistoryCleared(q) => q == r && TimerRunning(s, r)
       case Dispatch(i, history) =>
         && i.res == Some(r) && i.host in s.online
         && (i.verb == Stop || (i.verb == Delete && history && TimerRunning(s, r)))
       case _ => false
  }

  lemma StoppedShape(s: State, r: ResId, x: OpId, k: nat)
    requires Good(s, x, k) && r < |s.res| && s.res[r].monitorOp.Some?
    ensures var m := s.res[r].monitorOp.value;
            && m < |s.ops| && |RecurringStop(s, r, m).ops| == |s.ops| && |RecurringStop(s, r, m).res| == |s.res|
            && !TimerRunning(RecurringStop(s, r, m), r) && !RecurringStop(s, r, m).ops[m].armed
  {
    var m := s.res[r].monitorOp.value;
    StopShape(s, r, m, x, k);
    assert ResGood(s, r);
  }

  lemma SmallTimers(s: State, x: OpId, r: ResId)
    requires x < |s.ops| && r < |s.res|
    ensures |Launch(s, x).res| == |s.res| && TimerRunning(Launch(s, x), r) == TimerRunning(s, r)
    ensures var t := Unref(Confirm(s, x), x); |t.res| == |s.res| && TimerRunning(t, r) == TimerRunning(s, r)
  {
  }

  /** A monitor that is stopped is no longer armed, and neither is its resource's timer. */
  lemma StoppedIsDisarmed(s: State, e: Event, r: ResId)
    requires Inv(s) && Possible(s, e) && Contract(s, e) && r < |s.res| && Stops(s, e, r)
    ensures |Step(s, e).res| == |s.res| && !TimerRunning(Step(s, e), r)
  {
    assert ResGood(s, r);
    match e
    case HistoryCleared(q) => StoppedShape(s, r, 0, 0);
    case Dispatch(i, history) =>
      var x, s1, m := |s.ops|, WithNew(s, i), s.res[r].monitorOp.value;
      RefAccount.NewIsNew(s, i);
      SameTimer(s, s1, r);
      StoppedShape(s1, r, x, 1);
      SmallTimers(RecurringStop(s1, r, m), x, r);
  }

  // ---- The state of a resource ----

  /** What the result of an execution says about its resource. */
  function Says(i: Info, ec: int): Option<RecoverState> {
    if i.verb == Delete then None
    else if ec == OCF_OK then Some(if i.verb == Stop then Stopped else Running)
    else if i.verb == Monitor then Some(if i.Recurring() then Failed else Stopped)
    else Some(if ec in {2, 3, 4, 5, 6} then Unrecoverable else Unknown)
  }

  /** The execution that this event ends, if it does. */
  function Result(s: State, e: Event): Option<(Info, int)>
    requires Possible(s, e)
  {
    match e
    case FlightDone(o, ec) => Some((s.ops[o].info, ec))
    case TimerFires(o) =>
      if s.ops[o].info.host in s.online then None else Some((s.ops[o].info, OCF_UNKNOWN_ERROR))
    case Dispatch(i, _) => if i.host in s.online then None else Some((i, OCF_UNKNOWN_ERROR))
    case _ => None
  }

  /** The state of a resource as the results of the run say. */
  function StateBy(s: State, run: seq<Event>, r: ResId): RecoverState
    requires PossibleRun(s, run) && r < |s.res|
    decreases |run|
  {
    StateFrom(s, run, r, s.res[r].state)
  }

  function StateFrom(s: State, run: seq<Event>, r: ResId, state: RecoverState): RecoverState
    requires PossibleRun(s, run)
    decreases |run|
  {
    if run == [] then state
    else
      var result := Result(s, run[0]);
      var next := if result.Some? && result.value.0.res == Some(r) && Says(result.value.0, result.value.1).Some?
                  then Says(result.value.0, result.value.1).value else state;
      StateFrom(Step(s, run[0]), run[1..], r, next)
  }

  lemma SettleState(s: State, i: Info, ec: int, r: ResId)
    requires ResourceThere(s, i) && r < |s.res|
    ensures var s' := Settle(s, i, ec);
            && |s'.res| == |s.res|
            && s'.res[r].state == if i.res == Some(r) && Says(i, ec).Some? then Says(i, ec).value else s.res[r].state
  {
    assert StateAfter(i, ec) == Says(i, ec);
  }

  lemma CompletedState(s: State, x: OpId, ec: int, r: ResId)
    requires x < |s.ops| && r < |s.res|
    ensures var s' := Completed(s, x, ec); var i := s.ops[x].info;
            && |s'.res| == |s.res|
            && s'.res[r].state == if i.res == Some(r) && Says(i, ec).Some? then Says(i, ec).value else s.res[r].state
  {
    var i := s.ops[x].info;
    if ResourceThere(s, i) {
      SettleState(Ran(s, x), i, ec, r);
    }
  }

  lemma ExecuteState(s: State, x: OpId, history: bool, r: ResId)
    requires x < |s.ops| && r < |s.res| && s.ops[x].info.host in s.online
    ensures |Execute(s, x, history).res| == |s.res| && Execute(s, x, history).res[r].state == s.res[r].state
  {
  }

  lemma StepState(s: State, e: Event, r: ResId)
    requires Possible(s, e) && r < |s.res|
    ensures var result := Result(s, e);
            && |Step(s, e).res| == |s.res|
            && Step(s, e).res[r].state
               == if result.Some? && result.value.0.res == Some(r) && Says(result.value.0, result.value.1).Some?
                  then Says(result.value.0, result.value.1).value else s.res[r].state
  {
    match e
    case Dispatch(i, history) =>
      if i.host in s.online {
        ExecuteState(WithNew(s, i), |s.ops|, history, r);
      } else {
        CompletedState(WithNew(s, i), |s.ops|, OCF_UNKNOWN_ERROR, r);
      }
    case FlightDone(x, ec) => CompletedState(s.(ops := s.ops[x := s.ops[x].(flying := false)]), x, ec, r);
    case TimerFires(x) => CompletedState(s.(ops := s.ops[x := s.ops[x].(armed := false)]), x, OCF_UNKNOWN_ERROR, r);
    case _ =>
  }

  /** In every run, a resource is in the state its latest result says: RUNNING after a good monitor or start,
      FAILED after a recurring monitor that was not good, and so on. */
  lemma {:induction false} StateIsLatestResult(s: State, run: seq<Event>, r: ResId)
    requires PossibleRun(s, run) && r < |s.res|
    ensures |After(s, run).res| == |s.res| && After(s, run).res[r].state == StateBy(s, run, r)
    decreases |run|
  {
    if run != [] {
      StepState(s, run[0], r);
      StateIsLatestResult(Step(s, run[0]), run[1..], r);
    }
  }

  lemma RanLeaves(s: State, x: OpId)
    requires x < |s.ops|
    ensures |Ran(s, x).ops| == |s.ops| && Ran(s, x).res == s.res
  {
  }

  /** A resource that fails unexpectedly has no monitor timer any more, in every run whatsoever. */
  lemma FailedIsDisarmed(s: State, x: OpId, ec: int, r: ResId)
    requires Possible(s, FlightDone(x, ec)) && s.ops[x].info.res == Some(r) && r < |s.res|
    requires Says(s.ops[x].info, ec) == Some(Failed) && s.res[r].state != Failed && ec != s.ops[x].info.target
    ensures var s' := Step(s, FlightDone(x, ec));
            |s'.res| == |s.res| && s'.res[r].state == Failed && !TimerRunning(s', r)
  {
    var landed := s.(ops := s.ops[x := s.ops[x].(flying := false)]);
    var i, ran := s.ops[x].info, Ran(landed, x);
    RanLeaves(landed, x);
    var settled := Settle(ran, i, ec);
    assert settled.res[r].state == Failed && !TimerRunning(settled, r);
    assert Completed(landed, x, ec) == Unref(settled, x);
  }

  // ---- The hosts that run ----

  /** What was last said about the host. */
  predicate Up(up: bool, run: seq<Event>, h: HostId)
    decreases |run|
  {
    if run == [] then up
    else Up(run[0] == NodeUp(h) || (up && run[0] != NodeDown(h)), run[1..], h)
  }

  lemma CompletedOnline(s: State, o: OpId, ec: int)
    requires o < |s.ops|
    ensures Completed(s, o, ec).online == s.online
  {
  }

  lemma MonitorOnline(s: State, o: OpId)
    requires o < |s.ops|
    ensures MonitorExecute(s, o).online == s.online
  {
    CompletedOnline(s, o, OCF_UNKNOWN_ERROR);
  }

  lemma RecurringOnline(s: State, r: ResId, o: OpId)
    requires r < |s.res| && o < |s.ops|
    ensures RecurringStart(s, r, o).online == s.online && RecurringStop(s, r, o).online == s.online
  {
    var s' := Ref(s, o);
    MonitorOnline(s'.(res := s'.res[r := s'.res[r].(monitorOp := Some(o))]), o);
  }

  lemma ExecuteOnline(s: State, o: OpId, history: bool)
    requires o < |s.ops|
    ensures Execute(s, o, history).online == s.online
  {
    var i := s.ops[o].info;
    CompletedOnline(s, o, OCF_UNKNOWN_ERROR);
    MonitorOnline(s, o);
    if ResourceThere(s, i) {
      var r := i.res.value;
      RecurringOnline(s, r, o);
      var m := s.res[r].monitorOp;
      if m.Some? && m.value < |s.ops| {
        RecurringOnline(s, r, m.value);
      }
    }
  }

  lemma StepOnline(s: State, e: Event)
    requires Possible(s, e)
    ensures Step(s, e).online == match e
                                 case NodeUp(h) => s.online + {h}
                                 case NodeDown(h) => s.online - {h}
                                 case _ => s.online
  {
    match e
    case Dispatch(i, history) => ExecuteOnline(WithNew(s, i), |s.ops|, history);
    case FlightDone(o, ec) => CompletedOnline(s.(ops := s.ops[o := s.ops[o].(flying := false)]), o, ec);
    case TimerFires(o) => CompletedOnline(s.(ops := s.ops[o := s.ops[o].(armed := false)]), o, OCF_UNKNOWN_ERROR);
    case _ =>
  }

  /** Actions are sent to exactly the hosts that last came up. */
  lemma {:induction false} OnlineIsLatest(s: State, run: seq<Event>, h: HostId)
    requires PossibleRun(s, run)
    ensures h in After(s, run).online <==> Up(h in s.online, run, h)
    decreases |run|
  {
    if run != [] {
      StepOnline(s, run[0]);
      OnlineIsLatest(Step(s, run[0]), run[1..], h);
    }
  }
}
