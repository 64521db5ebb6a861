/**
  The environment's contract with the operations is exact: what each clause is needed for, runs that
  break it, and what becomes of an action whose execution is lost.
 */
module OpContract {
  import opened Options
  import opened RecoverStates
  import opened OpLifecycle

  /** Settling a result leaves every execution in flight, and disarms nothing unless the resource fails. */
  lemma SettleLeaves(s: State, i: Info, ec: int)
    requires ResourceThere(s, i)
    ensures var s' := Settle(s, i, ec);
            && |s'.ops| == |s.ops| && |s'.res| == |s.res|
            && s'.res[i.res.value].monitorOp == s.res[i.res.value].monitorOp
            && (forall p :: 0 <= p < |s.ops| ==> s'.ops[p].info == s.ops[p].info && s'.ops[p].flying == s.ops[p].flying)
            && (StateAfter(i, ec) != Some(Failed) || s.res[i.res.value].state == Failed ==> s'.ops == s.ops)
  {
  }

  lemma RanLeaves(s: State, x: OpId)
    requires x < |s.ops|
    ensures var s' := Ran(s, x); s'.res == s.res && s'.ops == s.ops[x := s'.ops[x]] && s'.ops[x].info == s.ops[x].info
  {
  }

  /** So does completing an operation, for all others; one that meets its target recurs. */
  lemma Bystanders(s: State, x: OpId, ec: int)
    requires x < |s.ops| && ResourceThere(s, s.ops[x].info)
    ensures var s' := Completed(s, x, ec); var i := s.ops[x].info;
            && |s'.ops| == |s.ops| && |s'.res| == |s.res|
            && (forall p :: 0 <= p < |s.ops| && p != x ==> s'.ops[p].info == s.ops[p].info && s'.ops[p].flying == s.ops[p].flying)
            && (StateAfter(i, ec) != Some(Failed) || s.res[i.res.value].state == Failed ==>
                  forall p :: 0 <= p < |s.ops| && p != x ==> s'.ops[p].armed == s.ops[p].armed)
            && s'.res[i.res.value].monitorOp == s.res[i.res.value].monitorOp
            && (i.Recurring() && ec == i.target ==> s'.ops[x].info == i && s'.ops[x].armed)
  {
    RanLeaves(s, x);
    SettleLeaves(Ran(s, x), s.ops[x].info, ec);
  }

  /** A second active operation, or a monitor_op that is not the active one. */
  lemma NotOne(s: State, x: OpId, r: ResId)
    requires x < |s.ops| && Active(s, x) && s.ops[x].info.res == Some(r) && r < |s.res|
    requires (exists o :: 0 <= o < |s.ops| && o != x && Active(s, o) && s.ops[o].info.res == Some(r))
             || s.res[r].monitorOp !in {None, Some(x)}
    ensures !OneRecurring(s)
  {
  }

  lemma OfflineOverlap(s: State, i: Info, history: bool)
    requires Inv(s) && Possible(s, Dispatch(i, history)) && i.host !in s.online
    requires TakesOver(s, i) && !MayTakeOver(s, i)
    ensures !OneRecurring(Step(s, Dispatch(i, history)))
  {
    var r, x, s1 := i.res.value, |s.ops|, WithNew(s, i);
    var s' := Step(s, Dispatch(i, history));
    assert s' == Completed(s1, x, OCF_UNKNOWN_ERROR);
    Bystanders(s1, x, OCF_UNKNOWN_ERROR);
    assert ResGood(s, r);
    if InFlight(s, r) {
      var o :| 0 <= o < |s.ops| && s.ops[o].flying && s.ops[o].info.Recurring() && s.ops[o].info.res == Some(r);
      assert Active(s', o);
    } else if TimerRunning(s, r) {
      var t := s.res[r].timer.value;
      assert OpGood(s, t, 0, 0);
      assert s.res[r].monitorOp == None ==> Active(s', t);
    }
    NotOne(s', x, r);
  }

  /** What is in flight stays so, and without a monitor_op to stop so does what is armed. */
  lemma StillActive(s: State, r: ResId, x: OpId, s': State)
    requires Inv(s) && r < |s.res| && x == |s.ops| < |s'.ops| && Active(s', x) && s'.ops[x].info.res == Some(r)
    requires |s'.res| == |s.res| && s'.res[r].monitorOp in {None, s.res[r].monitorOp, Some(x)}
    requires forall p :: 0 <= p < |s.ops| ==> s'.ops[p].info == s.ops[p].info && s'.ops[p].flying == s.ops[p].flying
    requires s.res[r].monitorOp == None ==> forall p :: 0 <= p < |s.ops| ==> s'.ops[p].armed == s.ops[p].armed
    requires InFlight(s, r) || (TimerRunning(s, r) && s.res[r].monitorOp == None)
             || (s.res[r].monitorOp.Some? && s'.res[r].monitorOp == s.res[r].monitorOp)
    ensures !OneRecurring(s')
  {
    assert ResGood(s, r);
    if InFlight(s, r) {
      var o :| 0 <= o < |s.ops| && s.ops[o].flying && s.ops[o].info.Recurring() && s.ops[o].info.res == Some(r);
      assert Active(s', o);
    } else if TimerRunning(s, r) && s.res[r].monitorOp == None {
      var t := s.res[r].timer.value;
      assert OpGood(s, t, 0, 0);
      assert Active(s', t);
    }
    NotOne(s', x, r);
  }

  lemma MonitorOverlap(s: State, i: Info, history: bool)
    requires Inv(s) && Possible(s, Dispatch(i, history)) && i.host in s.online && i.verb == Monitor
    requires TakesOver(s, i) && !MayTakeOver(s, i)
    ensures !OneRecurring(Step(s, Dispatch(i, history)))
  {
    var r, x, s1 := i.res.value, |s.ops|, WithNew(s, i);
    SameTimer(s, s1, r);
    var s' := Step(s, Dispatch(i, history));
    assert s' == RecurringStart(s1, r, x);
    StillActive(s, r, x, s');
  }

  lemma ActionOverlap(s: State, i: Info, history: bool)
    requires Inv(s) && Possible(s, Dispatch(i, history)) && i.host in s.online && i.verb != Monitor
    requires TakesOver(s, i) && !MayTakeOver(s, i)
    ensures !OneRecurring(Step(s, Dispatch(i, history)))
  {
    var r, x, s1 := i.res.value, |s.ops|, WithNew(s, i);
    SameTimer(s, s1, r);
    assert ResGood(s, r);
    var m := s.res[r].monitorOp;
    var s' := Step(s, Dispatch(i, history));
    if i.verb == Stop && m.Some? {
      FreshKeeps(s, i);
      StopShape(s1, r, m.value, x, 1);
      assert s' == Launch(RecurringStop(s1, r, m.value), x);
    } else {
      assert s' == Launch(s1, x);
    }
    StillActive(s, r, x, s');
  }

  /** An operation that is made to recur leaves at most one active, and monitor_op right, exactly when
      nothing else of its resource is in flight, armed or referred to. For a recurring monitor on a
      running host that is: none of the resource's recurring executions is in flight. */
  lemma OverlappingStart(s: State, i: Info, history: bool)
    requires Inv(s) && Possible(s, Dispatch(i, history)) && TakesOver(s, i)
    ensures OneRecurring(Step(s, Dispatch(i, history))) <==> MayTakeOver(s, i)
    ensures i.host in s.online && i.verb == Monitor ==> (MayTakeOver(s, i) <==> !InFlight(s, i.res.value))
  {
    if MayTakeOver(s, i) {
      StepKeeps(s, Dispatch(i, history));
    } else if i.host in s.online {
      if i.verb == Monitor { MonitorOverlap(s, i, history); } else { ActionOverlap(s, i, history); }
    } else {
      OfflineOverlap(s, i, history);
    }
  }

  /** An action whose resource is not there, and is needed, is found out at once, except that a start
      is sent off and found out when it completes. */
  lemma MissingResource(s: State, i: Info, history: bool)
    requires Inv(s) && Possible(s, Dispatch(i, history)) && (TakesOver(s, i) ==> MayTakeOver(s, i))
    ensures var s' := Step(s, Dispatch(i, history)); var sentOff := i.host in s.online && i.verb == Start;
            && (!sentOff ==> (s'.faults.missing <==> !Resolved(s, i)))
            && (sentOff ==> s'.ops[|s.ops|].flying && (ResourceThere(s', s'.ops[|s.ops|].info) <==> Resolved(s, i)))
  {
    if Resolved(s, i) {
      StepKeeps(s, Dispatch(i, history));
    }
  }

  lemma LostResource(s: State, o: OpId, ec: int)
    requires Possible(s, FlightDone(o, ec)) && s.ops[o].info.verb != Delete && !ResourceThere(s, s.ops[o].info)
    ensures Step(s, FlightDone(o, ec)).faults.missing
  {
  }

  /** This event counts an execution of the operation. */
  predicate Counts(s: State, e: Event, o: OpId)
    requires o < |s.ops|
  {
    (e.FlightDone? && e.op == o) || (e == TimerFires(o) && s.ops[o].info.host !in s.online)
  }

  lemma StaleAfter(s: State, x: OpId, ec: int)
    requires x < |s.ops| && ResourceThere(s, s.ops[x].info)
    ensures Completed(s, x, ec).faults.stale <==>
            s.faults.stale || ((s.ops[x].runs + 1) % TWO_32 <= 1 && StaleAction(s, x))
  {
    RanLeaves(s, x);
    assert Settle(Ran(s, x), s.ops[x].info, ec).faults == Ran(s, x).faults;
  }

  lemma FlightComesRound(s: State, o: OpId, ec: int)
    requires Inv(s) && Possible(s, FlightDone(o, ec))
    ensures Step(s, FlightDone(o, ec)).faults.stale <==> ComesRound(s.ops[o]) && s.pe.live.Some?
  {
    assert OpGood(s, o, 0, 0);
    StaleAfter(s.(ops := s.ops[o := s.ops[o].(flying := false)]), o, ec);
  }

  lemma TimerComesRound(s: State, o: OpId)
    requires Inv(s) && Possible(s, TimerFires(o)) && s.ops[o].info.host !in s.online
    ensures Step(s, TimerFires(o)).faults.stale <==> ComesRound(s.ops[o]) && s.pe.live.Some?
  {
    assert OpGood(s, o, 0, 0);
    StaleAfter(s.(ops := s.ops[o := s.ops[o].(armed := false)]), o, OCF_UNKNOWN_ERROR);
  }

  /** An execution confirms an action that is not waiting exactly when the 32-bit counter has come
      round, to 0 or once more to 1, while a transition is live. */
  lemma CounterComesRound(s: State, e: Event, o: OpId)
    requires Inv(s) && Possible(s, e) && o < |s.ops| && Counts(s, e, o)
    ensures Step(s, e).faults.stale <==> ComesRound(s.ops[o]) && s.pe.live.Some?
  {
    match e
    case FlightDone(_, ec) => FlightComesRound(s, o, ec);
    case TimerFires(_) => TimerComesRound(s, o);
  }

  /** A transition that ends while an action is unconfirmed leaves one that refers to a destroyed graph. */
  lemma EndsTooEarly(s: State)
    requires Inv(s) && Possible(s, PassEnds(false))
    ensures Inv(Step(s, PassEnds(false))) <==> forall o :: 0 <= o < |s.ops| ==> !s.ops[o].open
  {
    if o: OpId :| 0 <= o < |s.ops| && s.ops[o].open {
      assert !OpGood(Step(s, PassEnds(false)), o, 0, 0);
    } else {
      StepKeeps(s, PassEnds(false));
    }
  }

  /** Every event keeps references, monitors, resources and confirmations right if and only if the
      environment keeps its side. */
  lemma ContractIsExact(s: State, e: Event)
    requires Inv(s) && Possible(s, e)
    ensures Contract(s, e) <==> Inv(Step(s, e))
  {
    if Contract(s, e) {
      StepKeeps(s, e);
    } else {
      match e
      case Dispatch(i, history) =>
        if Resolved(s, i) {
          OverlappingStart(s, i, history);
        } else {
          MissingResource(s, i, history);
          assert Step(s, e).faults.missing || !OpGood(Step(s, e), |s.ops|, 0, 0);
        }
      case PassEnds(active) => EndsTooEarly(s);
      case FlightDone(o, _) => CounterComesRound(s, e, o);
      case TimerFires(o) => CounterComesRound(s, e, o);
    }
  }

  // ---- An execution that is lost ----

  /** An action that still waits although nothing will ever confirm it. */
  predicate Stalled(s: State, o: OpId) {
    && o < |s.ops| && s.ops[o].open && !s.ops[o].armed && !s.ops[o].flying
    && s.pe.live == Some(s.ops[o].info.graph)
  }

  /** The operation itself is left alone, except that its timer may go. */
  predicate Leaves(s: State, s': State, o: OpId) {
    && o < |s.ops| <= |s'.ops| && s'.ops[o].info == s.ops[o].info
    && s'.ops[o].open == s.ops[o].open && s'.ops[o].flying == s.ops[o].flying && (s'.ops[o].armed ==> s.ops[o].armed)
    && s'.pe.live == s.pe.live && s'.pe.count == s.pe.count
  }

  lemma CompletedLeaves(s: State, x: OpId, ec: int, o: OpId)
    requires x < |s.ops| && o < |s.ops| && o != x
    ensures Leaves(s, Completed(s, x, ec), o)
  {
    var i, ran := s.ops[x].info, Ran(s, x);
    assert Leaves(s, ran, o);
    if ResourceThere(s, i) {
      assert Leaves(ran, Settle(ran, i, ec), o);
    }
  }

  lemma MonitorLeaves(s: State, x: OpId, o: OpId)
    requires x < |s.ops| && o < |s.ops| && o != x
    ensures Leaves(s, MonitorExecute(s, x), o)
  {
    CompletedLeaves(s, x, OCF_UNKNOWN_ERROR, o);
  }

  lemma StopLeaves(s: State, r: ResId, m: OpId, o: OpId)
    requires r < |s.res| && m < |s.ops| && o < |s.ops|
    ensures Leaves(s, RecurringStop(s, r, m), o) && Leaves(s, StopIfArmed(s, r), o)
    ensures |RecurringStop(s, r, m).ops| == |StopIfArmed(s, r).ops| == |s.ops|
  {
  }

  lemma SmallStepsLeave(s: State, x: OpId, o: OpId)
    requires x < |s.ops| && o < |s.ops| && o != x
    ensures Leaves(s, Launch(s, x), o) && Leaves(s, Unref(Confirm(s, x), x), o)
  {
  }

  lemma RecurringStartLeaves(s: State, r: ResId, x: OpId, o: OpId)
    requires r < |s.res| && x < |s.ops| && o < |s.ops| && o != x
    ensures Leaves(s, RecurringStart(s, r, x), o)
  {
    SmallStepsLeave(s, x, o);
    var s1 := Ref(s, x);
    MonitorLeaves(s1.(res := s1.res[r := s1.res[r].(monitorOp := Some(x))]), x, o);
  }

  lemma ExecuteLeaves(s: State, x: OpId, history: bool, o: OpId)
    requires x < |s.ops| && o < |s.ops| && o != x
    ensures Leaves(s, Execute(s, x, history), o)
  {
    var i, s' := s.ops[x].info, Execute(s, x, history);
    SmallStepsLeave(s, x, o);
    if i.host !in s.online {
      CompletedLeaves(s, x, OCF_UNKNOWN_ERROR, o);
    } else if ResourceThere(s, i) && (i.verb == Monitor ==> i.mentionsHost) {
      ExecuteThereLeaves(s, x, history, o);
    }
  }

  lemma ExecuteThereLeaves(s: State, x: OpId, history: bool, o: OpId)
    requires x < |s.ops| && o < |s.ops| && o != x
    requires var i := s.ops[x].info; i.host in s.online && ResourceThere(s, i) && (i.verb == Monitor ==> i.mentionsHost)
    ensures Leaves(s, Execute(s, x, history), o)
  {
    var i := s.ops[x].info;
    var r := i.res.value;
    var m := s.res[r].monitorOp;
    match i.verb
    case Monitor =>
      RecurringStartLeaves(s, r, x, o);
      MonitorLeaves(s, x, o);
    case Start => SmallStepsLeave(s, x, o);
    case Stop =>
      if m.Some? && m.value < |s.ops| {
        StopLeaves(s, r, m.value, o);
        SmallStepsLeave(RecurringStop(s, r, m.value), x, o);
      } else {
        SmallStepsLeave(s, x, o);
      }
    case Delete =>
      StopLeaves(s, r, x, o);
      SmallStepsLeave(if history then StopIfArmed(s, r) else s, x, o);
  }

  lemma StepStalled(s: State, e: Event, o: OpId)
    requires Stalled(s, o) && Possible(s, e) && e != PassEnds(false)
    ensures Stalled(Step(s, e), o) && Step(s, e).pe.live == s.pe.live && Step(s, e).pe.count == s.pe.count
  {
    match e
    case Dispatch(i, history) => ExecuteLeaves(WithNew(s, i), |s.ops|, history, o);
    case FlightDone(x, ec) => CompletedLeaves(s.(ops := s.ops[x := s.ops[x].(flying := false)]), x, ec, o);
    case TimerFires(x) => MonitorLeaves(s.(ops := s.ops[x := s.ops[x].(armed := false)]), x, o);
    case HistoryCleared(r) => StopLeaves(s, r, o, o);
    case _ =>
  }

  /** Once an execution is lost before it confirmed its action, under a policy engine that keeps the
      contract the transition never ends: in every later run it is still the live one, no other is
      started, and so the status is never rebuilt. */
  lemma {:induction false} LostActionStalls(s: State, o: OpId, run: seq<Event>)
    requires Stalled(s, o) && PossibleRun(s, run) && ContractKept(s, run)
    ensures Stalled(After(s, run), o)
    ensures After(s, run).pe.live == s.pe.live && After(s, run).pe.count == s.pe.count
    decreases |run|
  {
    if run != [] {
      StepStalled(s, run[0], o);
      LostActionStalls(Step(s, run[0]), o, run[1..]);
    }
  }

  /** That is what the loss of a first execution does. */
  lemma FlightLostStalls(s: State, o: OpId)
    requires Inv(s) && Possible(s, FlightLost(o)) && s.ops[o].runs == 0
    ensures Stalled(Step(s, FlightLost(o)), o)
  {
    assert OpGood(s, o, 0, 0);
  }

  // ---- When a transition can end ----

  /** Only a completion that is counted as the first one confirms anything. */
  lemma CompletedQuietly(s: State, x: OpId, ec: int, o: OpId)
    requires x < |s.ops| && o < |s.ops| && (s.ops[x].runs + 1) % TWO_32 > 1
    ensures var s' := Completed(s, x, ec);
            && |s'.ops| == |s.ops| && s'.ops[o].open == s.ops[o].open
            && s'.pe == s.pe.(processJobs := s'.pe.processJobs)
  {
    var i, ran := s.ops[x].info, Ran(s, x);
    if ResourceThere(s, i) {
      SettleLeaves(ran, i, ec);
      assert Settle(ran, i, ec).pe == ran.pe.(processJobs := Settle(ran, i, ec).pe.processJobs);
      SettleOpens(ran, i, ec, o);
    }
  }

  lemma SettleOpens(s: State, i: Info, ec: int, o: OpId)
    requires ResourceThere(s, i) && o < |s.ops|
    ensures |Settle(s, i, ec).ops| == |s.ops| && Settle(s, i, ec).ops[o].open == s.ops[o].open
  {
  }

  /** The transition is live, but nothing will be confirmed and so the graph is never run again. */
  ghost predicate Dormant(s: State) {
    && s.pe.live.Some? && !s.pe.inPass && !s.pe.graphUpdated
    && forall o :: 0 <= o < |s.ops| ==> !s.ops[o].open
  }

  /** Operations and engine look the same to a dormant transition. */
  predicate Undisturbed(s: State, s': State) {
    && |s'.ops| == |s.ops| && s'.pe == s.pe.(processJobs := s'.pe.processJobs)
    && forall o :: 0 <= o < |s.ops| ==> s'.ops[o].open == s.ops[o].open
  }

  lemma CompletedUndisturbed(s: State, x: OpId, ec: int)
    requires x < |s.ops| && (s.ops[x].runs + 1) % TWO_32 > 1
    ensures Undisturbed(s, Completed(s, x, ec))
  {
    CompletedQuietly(s, x, ec, x);
    forall o: OpId | o < |s.ops| ensures Completed(s, x, ec).ops[o].open == s.ops[o].open {
      CompletedQuietly(s, x, ec, o);
    }
  }

  lemma StepDormant(s: State, e: Event)
    requires Inv(s) && Dormant(s) && Possible(s, e) && Contract(s, e)
    ensures Dormant(Step(s, e))
  {
    match e
    case FlightDone(x, ec) =>
      assert OpGood(s, x, 0, 0);
      CompletedUndisturbed(s.(ops := s.ops[x := s.ops[x].(flying := false)]), x, ec);
    case TimerFires(x) =>
      assert OpGood(s, x, 0, 0);
      var s1 := s.(ops := s.ops[x := s.ops[x].(armed := false)]);
      if s.ops[x].info.host !in s.online {
        CompletedUndisturbed(s1, x, OCF_UNKNOWN_ERROR);
      }
    case HistoryCleared(r) =>
    case _ =>
  }

  lemma {:induction false} DormantForever(s: State, run: seq<Event>)
    requires Inv(s) && Dormant(s) && PossibleRun(s, run) && ContractKept(s, run)
    ensures Dormant(After(s, run))
    decreases |run|
  {
    if run != [] {
      StepDormant(s, run[0]);
      StepKeeps(s, run[0]);
      DormantForever(Step(s, run[0]), run[1..]);
    }
  }

  function OpenOps(s: State): set<OpId> {
    set o: OpId | 0 <= o < |s.ops| && s.ops[o].open
  }

  lemma NothingOpen(s: State)
    requires OpenOps(s) == {}
    ensures forall o :: 0 <= o < |s.ops| ==> !s.ops[o].open
  {
    forall o: OpId | o < |s.ops| ensures !s.ops[o].open {
      assert o !in OpenOps(s);
    }
  }

  ghost predicate NoneStalled(s: State) {
    forall o: OpId :: !Stalled(s, o)
  }

  /** `run` keeps the contract and ends the transition. */
  ghost predicate Ends(s: State, run: seq<Event>) {
    PossibleRun(s, run) && ContractKept(s, run) && After(s, run).pe.live.None?
  }

  lemma EndsLater(s: State, e: Event, run: seq<Event>)
    requires Possible(s, e) && Contract(s, e) && Ends(Step(s, e), run)
    ensures Ends(s, [e] + run)
  {
    assert ([e] + run)[1..] == run;
  }

  /** All but `o` are left alone, and `o` is confirmed. */
  lemma OneFewerOpen(s: State, s': State, o: OpId)
    requires NoneStalled(s) && o in OpenOps(s) && |s'.ops| == |s.ops| && !s'.ops[o].open
    requires forall p: OpId :: p < |s.ops| && p != o ==> Leaves(s, s', p)
    requires forall p: OpId :: p < |s.ops| && s.ops[p].open ==> !s.ops[p].armed
    ensures NoneStalled(s') && OpenOps(s') == OpenOps(s) - {o}
  {
    forall p: OpId ensures !Stalled(s', p) {
      assert !Stalled(s, p);
      if p < |s.ops| && p != o {
        assert Leaves(s, s', p);
      }
    }
    forall p: OpId | p < |s.ops| && p != o ensures p in OpenOps(s') <==> p in OpenOps(s) {
      assert Leaves(s, s', p);
    }
  }

  lemma OthersLeft(s: State, o: OpId, ec: int, p: OpId)
    requires Possible(s, FlightDone(o, ec)) && p < |s.ops| && p != o
    ensures Leaves(s, Step(s, FlightDone(o, ec)), p)
  {
    CompletedLeaves(s.(ops := s.ops[o := s.ops[o].(flying := false)]), o, ec, p);
  }

  /** The first execution of an open operation completes: its action is confirmed, and no other. */
  lemma FirstCompletes(s: State, o: OpId)
    requires Inv(s) && NoneStalled(s) && s.pe.live.Some? && !s.pe.inPass && o in OpenOps(s)
    ensures var e := FlightDone(o, OCF_OK);
            && Possible(s, e) && Contract(s, e) && Inv(Step(s, e)) && NoneStalled(Step(s, e))
            && OpenOps(Step(s, e)) == OpenOps(s) - {o}
            && Step(s, e).pe.live == s.pe.live && !Step(s, e).pe.inPass && Step(s, e).pe.graphUpdated
  {
    var e := FlightDone(o, OCF_OK);
    assert OpGood(s, o, 0, 0) && !Stalled(s, o);
    StepKeeps(s, e);
    FirstConfirms(s.(ops := s.ops[o := s.ops[o].(flying := false)]), o, OCF_OK);
    forall p: OpId | p < |s.ops| && p != o ensures Leaves(s, Step(s, e), p) {
      OthersLeft(s, o, OCF_OK, p);
    }
    forall p: OpId | p < |s.ops| && s.ops[p].open ensures !s.ops[p].armed { assert OpGood(s, p, 0, 0); }
    OneFewerOpen(s, Step(s, e), o);
  }

  lemma FirstConfirms(s: State, x: OpId, ec: int)
    requires x < |s.ops| && ResourceThere(s, s.ops[x].info) && s.ops[x].runs == 0 && s.pe.live.Some?
    ensures var s' := Completed(s, x, ec);
            && |s'.ops| == |s.ops| && !s'.ops[x].open && s'.pe.graphUpdated && s'.pe.live == s.pe.live
            && s'.pe.inPass == s.pe.inPass
  {
    var i, ran := s.ops[x].info, Ran(s, x);
    assert !ran.ops[x].open && ran.pe.graphUpdated;
    SettleOpens(ran, i, ec, x);
  }

  lemma EndRun(s: State) returns (run: seq<Event>)
    requires Inv(s) && NoneStalled(s) && s.pe.live.Some? && !s.pe.inPass
    requires s.pe.graphUpdated || OpenOps(s) != {}
    ensures Ends(s, run)
    decreases |OpenOps(s)|
  {
    if OpenOps(s) == {} {
      NothingOpen(s);
      EndsLater(Step(s, NextJob), PassEnds(false), []);
      EndsLater(s, NextJob, [PassEnds(false)] + []);
      run := [NextJob] + ([PassEnds(false)] + []);
    } else {
      var o :| o in OpenOps(s);
      var e := FlightDone(o, OCF_OK);
      FirstCompletes(s, o);
      var rest := EndRun(Step(s, e));
      EndsLater(s, e, rest);
      run := [e] + rest;
    }
  }

  /** A live transition can end, under a policy engine that keeps the contract, if and only if no action
      of it is stalled and it is being run, is about to be run, or waits for an execution. */
  lemma CanEnd(s: State)
    requires Inv(s) && s.pe.live.Some?
    ensures (exists run :: Ends(s, run)) <==>
            NoneStalled(s) && (s.pe.inPass || s.pe.graphUpdated || OpenOps(s) != {})
  {
    if o: OpId :| Stalled(s, o) {
      forall run | PossibleRun(s, run) && ContractKept(s, run) ensures !Ends(s, run) {
        LostActionStalls(s, o, run);
      }
    } else if !s.pe.inPass && !s.pe.graphUpdated && OpenOps(s) == {} {
      NothingOpen(s);
      forall run | PossibleRun(s, run) && ContractKept(s, run) ensures !Ends(s, run) {
        DormantForever(s, run);
      }
    } else {
      var run := EndsSomehow(s);
    }
  }

  lemma EndsSomehow(s: State) returns (run: seq<Event>)
    requires Inv(s) && s.pe.live.Some? && NoneStalled(s)
    requires s.pe.inPass || s.pe.graphUpdated || OpenOps(s) != {}
    ensures Ends(s, run)
  {
    if !s.pe.inPass {
      run := EndRun(s);
    } else if OpenOps(s) == {} {
      NothingOpen(s);
      EndsLater(s, PassEnds(false), []);
      run := [PassEnds(false)] + [];
    } else {
      var e := PassEnds(true);
      StepKeeps(s, e);
      assert OpenOps(Step(s, e)) == OpenOps(s);
      forall o: OpId ensures !Stalled(Step(s, e), o) {
        assert !Stalled(s, o);
      }
      var rest := EndRun(Step(s, e));
      EndsLater(s, e, rest);
      run := [e] + rest;
    }
  }
}

/** Runs that break the contract. */
module CarelessRuns {
  import opened Options
  import opened RecoverStates
  import PolicyLoop
  import opened OpLifecycle

  const MONITOR := Info(0, Some(0), Monitor, 10, OCF_OK, 1, true)
  const STOP := Info(0, Some(0), Stop, 0, OCF_OK, 1, true)

  lemma TwoStarts() returns (s0: State, run: seq<Event>)
    ensures Loaded(s0) && PossibleRun(s0, run)
    ensures var op := Op(MONITOR, 3, 0, true, false, true);
            After(s0, run) == State([op, op], [Resource(0, Some(1), None, Unknown)], {0},
                                    PolicyLoop.Pe(Some(1), [1], 0, false, false, 1), Faults(false, false, false))
  {
    s0 := State([], [Resource(0, None, None, Unknown)], {}, PolicyLoop.IDLE, Faults(false, false, false));
    var s;
    run, s := Extend(s0, [], NodeUp(0));
    run, s := Extend(s0, run, ProcessJobRuns);
    run, s := Extend(s0, run, NextJob);
    run, s := Extend(s0, run, Dispatch(MONITOR, false));
    run, s := Extend(s0, run, Dispatch(MONITOR, false));
    run, s := Extend(s0, run, PassEnds(true));
  }

  lemma FirstCompletes() returns (s0: State, run: seq<Event>)
    ensures Loaded(s0) && PossibleRun(s0, run)
    ensures After(s0, run) == State([Op(MONITOR, 2, 1, false, true, false), Op(MONITOR, 3, 0, true, false, true)],
                                    [Resource(0, Some(1), Some(0), Running)], {0},
                                    PolicyLoop.Pe(Some(1), [], 0, false, true, 1), Faults(false, false, false))
  {
    s0, run := TwoStarts();
    var s;
    run, s := Extend(s0, run, FlightDone(0, OCF_OK));
    run, s := Extend(s0, run, NextJob);
  }

  lemma StopAfterFirst() returns (s0: State, run: seq<Event>)
    ensures Loaded(s0) && PossibleRun(s0, run)
    ensures var s := After(s0, run);
            && |s.ops| == 3 && s.ops[1] == Op(MONITOR, 1, 0, true, false, true) && |s.res| == 1
            && s.res[0].host == 0 && s.online == {0} && s.pe.live == Some(1) && !s.pe.inPass
  {
    s0, run := FirstCompletes();
    var s;
    run, s := Extend(s0, run, Dispatch(STOP, false));
    run, s := Extend(s0, run, PassEnds(true));
  }

  /** Without the contract an operation is freed while its timer is armed: two recurring monitors
      of one resource are started in one pass, the first completes, the resource is stopped, and
      the second completes. */
  lemma OverlapFreesEarly() returns (s0: State, run: seq<Event>)
    ensures Loaded(s0) && PossibleRun(s0, run) && After(s0, run).faults.freed
  {
    s0, run := StopAfterFirst();
    var s;
    run, s := Extend(s0, run, FlightDone(1, OCF_OK));
    assert s.ops[1].refs == 0 && s.ops[1].armed;
    run, s := Extend(s0, run, TimerFires(1));
  }

  // ---- The counter ----

  /** One recurring monitor, armed, after `n` executions. */
  function Armed(n: nat): State {
    State([Op(MONITOR, 2, n, false, true, false)], [Resource(0, Some(0), Some(0), Running)], {0},
          PolicyLoop.Pe(Some(1), [1], 0, true, false, 1), Faults(false, false, false))
  }

  const LOADED := State([], [Resource(0, None, None, Unknown)], {}, PolicyLoop.IDLE, Faults(false, false, false))

  lemma FirstPass() returns (run: seq<Event>)
    ensures PossibleRun(LOADED, run)
    ensures After(LOADED, run) == State([], [Resource(0, None, None, Unknown)], {0},
                                        PolicyLoop.Pe(Some(1), [], 0, false, true, 1), Faults(false, false, false))
  {
    var s;
    run, s := Extend(LOADED, [], NodeUp(0));
    run, s := Extend(LOADED, run, ProcessJobRuns);
    run, s := Extend(LOADED, run, NextJob);
  }

  lemma FirstExecution() returns (run: seq<Event>)
    ensures PossibleRun(LOADED, run) && After(LOADED, run) == Armed(1)
  {
    run := FirstPass();
    var s;
    run, s := Extend(LOADED, run, Dispatch(MONITOR, false));
    run, s := Extend(LOADED, run, PassEnds(true));
    assert s.ops == [Op(MONITOR, 3, 0, true, false, true)];
    run, s := Extend(LOADED, run, FlightDone(0, OCF_OK));
  }

  /** Every count below 2^32 is reached while the first transition is live. */
  lemma {:induction false} ManyExecutions(n: nat) returns (run: seq<Event>)
    requires 0 < n < TWO_32
    ensures PossibleRun(LOADED, run) && After(LOADED, run) == Armed(n)
  {
    if n == 1 {
      run := FirstExecution();
    } else {
      run := ManyExecutions(n - 1);
      var s;
      run, s := Extend(LOADED, run, TimerFires(0));
      assert s.ops == [Op(MONITOR, 3, n - 1, false, false, true)];
      run, s := Extend(LOADED, run, FlightDone(0, OCF_OK));
    }
  }

  /** So the counter does come round, and an action is confirmed that was confirmed long ago. */
  lemma CounterWraps() returns (run: seq<Event>)
    ensures Loaded(LOADED) && PossibleRun(LOADED, run) && After(LOADED, run).faults.stale
  {
    run := ManyExecutions(TWO_32 - 1);
    var s;
    run, s := Extend(LOADED, run, TimerFires(0));
    run, s := Extend(LOADED, run, FlightDone(0, OCF_OK));
  }

  /** A transition ends with an action unconfirmed, the next one starts, and then the action is
      confirmed on the graph that was destroyed. */
  lemma DestroyedGraph() returns (run: seq<Event>)
    ensures Loaded(LOADED) && PossibleRun(LOADED, run) && After(LOADED, run).faults.stale
  {
    run := FirstPass();
    var s;
    run, s := Extend(LOADED, run, Dispatch(MONITOR, false));
    run, s := Extend(LOADED, run, PassEnds(false));
    run, s := Extend(LOADED, run, NodeUp(0));
    run, s := Extend(LOADED, run, ProcessJobRuns);
    assert s.pe.live == Some(2) && s.ops[0].open;
    run, s := Extend(LOADED, run, FlightDone(0, OCF_OK));
  }

  /** A probe of a neighbour's resource whose name happens to contain this host's name. */
  lemma NeighbourProbe() returns (run: seq<Event>)
    ensures Loaded(LOADED) && PossibleRun(LOADED, run) && After(LOADED, run).faults.missing
  {
    run := FirstPass();
    var s;
    run, s := Extend(LOADED, run, Dispatch(Info(0, None, Monitor, 0, OCF_NOT_RUNNING, 1, true), false));
  }

  lemma HostGone() returns (run: seq<Event>)
    ensures PossibleRun(LOADED, run)
    ensures After(LOADED, run) == State([Op(MONITOR, 3, 0, true, false, true)], [Resource(0, Some(0), None, Unknown)], {},
                                        PolicyLoop.Pe(Some(1), [], 1, false, true, 1), Faults(false, false, false))
  {
    run := FirstPass();
    var s;
    run, s := Extend(LOADED, run, Dispatch(MONITOR, false));
    run, s := Extend(LOADED, run, Pseudo);
    run, s := Extend(LOADED, run, PassEnds(true));
    assert s.ops == [Op(MONITOR, 3, 0, true, false, true)];
    run, s := Extend(LOADED, run, NodeDown(0));
    assert s.online == {};
    run, s := Extend(LOADED, run, NextJob);
  }

  /** While a monitor is in flight its host goes down, and a monitor that expects the error it will
      get is handed out. */
  lemma ExpectedError() returns (run: seq<Event>)
    ensures Loaded(LOADED) && PossibleRun(LOADED, run) && !OneRecurring(After(LOADED, run))
  {
    run := HostGone();
    var s;
    run, s := Extend(LOADED, run, Dispatch(MONITOR.(target := OCF_UNKNOWN_ERROR), false));
    assert Active(s, 0) && Active(s, 1);
  }
}
