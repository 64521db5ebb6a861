/**
  The daemon's own code over its global state, updated in place. Every method does what the
  corresponding function of OpLifecycle says, and the operation history is the fold of what was
  executed, so what is proved there and in OpHistory about runs holds here.
 */
module Cape {
  import opened Options
  import opened RecoverStates
  import opened OpLifecycle
  import PolicyLoop
  import HistoryKeys
  import OpHistory

  predicate SameTransition(p: PolicyLoop.Pe, q: PolicyLoop.Pe) {
    p.live == q.live && p.inPass == q.inPass
  }

  predicate Dispatches(e: Event, i: Info) {
    e.Dispatch? && e.info == i
  }

  function VerbText(verb: Method): string {
    match verb
    case Monitor => "monitor"
    case Start => "start"
    case Stop => "stop"
    case Delete => "delete"
  }

  predicate HasHistory(h: OpHistory.History, name: string) {
    exists t :: t in h.entries && h.entries[t].key.res == name
  }

  ghost predicate HistoryOf(h: OpHistory.History, names: seq<string>, r: Option<ResId>) {
    r.Some? && r.value < |names| && HasHistory(h, names[r.value])
  }

  /** What of an operation goes into the history besides its key and result. */
  datatype Tag = Tag(digest: string, action: int)

  /** The two readings of the clock when an execution is recorded. */
  datatype Clock = Clock(noted: int, at: int)

  ghost predicate AllNamed(h: OpHistory.History, names: seq<string>) {
    forall t :: t in h.entries ==> h.entries[t].key.res in names
  }

  ghost predicate DistinctNames(names: seq<string>) {
    forall i, j :: 0 <= i < j < |names| ==> names[i] != names[j]
  }

  /** An action of the graph as it is dispatched, with the clock at that moment. */
  datatype Action = Action(info: Info, tag: Tag, clock: Clock)

  /** What an execution adds to the history: itself, whole, if it is of a resource that is there. */
  function Recorded(names: seq<string>, s: State, i: Info, tag: Tag, ec: int, clock: Clock): seq<OpHistory.Event> {
    if i.res.Some? && i.res.value < |s.res| && i.res.value < |names| && i.mentionsHost then
      var key := HistoryKeys.Key(names[i.res.value], VerbText(i.verb), i.interval);
      [OpHistory.Ran(OpHistory.Exec(key, ec, clock.noted, clock.at, tag.digest, i.target, i.graph, tag.action))]
    else []
  }

  /** What an event of the loop adds to the history: the execution it completes, or what it deletes.
      `tag` is that of the operation. */
  function Logged(names: seq<string>, s: State, e: Event, tag: Tag, clock: Clock): seq<OpHistory.Event>
    requires Possible(s, e)
  {
    match e
    case FlightDone(o, ec) => Recorded(names, s, s.ops[o].info, tag, ec, clock)
    case TimerFires(o) => LoggedMonitor(names, s, s.ops[o].info, tag, clock)
    case Dispatch(i, _) => LoggedDispatch(names, s, i, tag, clock)
    case _ => []
  }

  /** A monitor whose host is down has failed without being sent. */
  function LoggedMonitor(names: seq<string>, s: State, i: Info, tag: Tag, clock: Clock): seq<OpHistory.Event> {
    if i.host !in s.online then Recorded(names, s, i, tag, OCF_UNKNOWN_ERROR, clock) else []
  }

  function LoggedDispatch(names: seq<string>, s: State, i: Info, tag: Tag, clock: Clock): seq<OpHistory.Event> {
    if i.host !in s.online then Recorded(names, s, i, tag, OCF_UNKNOWN_ERROR, clock)
    else if i.verb == Delete && ResourceThere(s, i) && i.res.value < |names| then
      [OpHistory.Cleared({names[i.res.value]})]
    else []
  }

  /** What the dispatches of a pass add to the history. */
  function LoggedPass(names: seq<string>, s: State, dispatches: seq<Event>, actions: seq<Action>): seq<OpHistory.Event>
    requires PossibleRun(s, dispatches) && |dispatches| <= |actions|
    decreases |dispatches|
  {
    if dispatches == [] then []
    else
      Logged(names, s, dispatches[0], actions[0].tag, actions[0].clock)
      + LoggedPass(names, Step(s, dispatches[0]), dispatches[1..], actions[1..])
  }

  /** The entry of an operation after an execution of it: the latest exit code, run, digest and action,
      the code's time of change if the code is new, and the next call id. Nothing else is touched, and
      nothing at all if the resource is not there. */
  lemma ExecutionShows(names: seq<string>, log: seq<OpHistory.Event>, s: State, i: Info, tag: Tag, ec: int, clock: Clock)
    requires |names| == |s.res|
    ensures var h, h' := OpHistory.After(log), OpHistory.After(log + Recorded(names, s, i, tag, ec, clock));
            if !(ResourceThere(s, i) && i.mentionsHost) then h' == h
            else
              var text := HistoryKeys.Key(names[i.res.value], VerbText(i.verb), i.interval).Text();
              && h'.entries.Keys == h.entries.Keys + {text} && h'.callOrder == h.callOrder + 1
              && (forall t :: t in h.entries && t != text ==> h'.entries[t] == h.entries[t])
              && var entry := h'.entries[text];
              && entry.rc == ec && entry.lastRun == clock.at && entry.callId == h.callOrder
              && entry.digest == tag.digest && entry.graph == i.graph && entry.action == tag.action
              && (text !in h.entries ==> entry.target == i.target)
              && (text in h.entries && h.entries[text].rc == ec ==> entry.lastRcChange == h.entries[text].lastRcChange)
              && (text in h.entries && h.entries[text].rc != ec ==> entry.lastRcChange == clock.noted)
  {
    var more := Recorded(names, s, i, tag, ec, clock);
    if more == [] {
      assert log + more == log;
    } else {
      assert (log + more)[..|log + more| - 1] == log;
    }
  }

  /** The rest of OpLifecycle.Completed, after the execution is counted. */
  function Finished(ran: State, i: Info, o: OpId, ec: int): State
    requires o < |ran.ops|
  {
    if !ResourceThere(ran, i) then
      if NeedsNoResource(i, ec) then Unref(if ec != i.target then Schedule(ran) else ran, o)
      else ran.(faults := ran.faults.(missing := true))
    else
      var settled := Settle(ran, i, ec);
      if i.interval > 0 && ec == i.target then TimerAdd(settled, i.res.value, o) else Unref(settled, o)
  }

  class Daemon {
    const names: seq<string>   // the resources' names
    var ops: seq<Op>
    var tags: seq<Tag>
    var res: seq<Resource>
    var online: set<HostId>
    var pe: PolicyLoop.Pe
    const history: OpHistory.HistoryMap
    ghost var faults: Faults
    ghost var log: seq<OpHistory.Event>   // every execution recorded and every deletion so far

    ghost function View(): State
      reads this
    {
      State(ops, res, online, pe, faults)
    }

    /** The daemon when its configuration is loaded: these resources on these hosts. */
    constructor (names: seq<string>, hosts: seq<HostId>)
      requires |names| == |hosts| && DistinctNames(names)
      ensures Valid() && Loaded(View()) && fresh(history)
      ensures this.names == names && log == [] && |res| == |hosts|
      ensures forall r :: 0 <= r < |res| ==> res[r].host == hosts[r]
    {
      this.names := names;
      res := seq(|hosts|, r requires 0 <= r < |hosts| => Resource(hosts[r], None, None, Unknown));
      ops, tags, online, pe := [], [], {}, PolicyLoop.IDLE;
      history := new OpHistory.HistoryMap();
      faults, log := Faults(false, false, false), [];
    }

    /** The history map is what the log says. */
    ghost predicate Valid()
      reads this, history
    {
      && |names| == |res| && |tags| == |ops| && DistinctNames(names)
      && history.View() == OpHistory.After(log) && AllNamed(history.View(), names)
    }

    /** So every operation has an entry exactly when it was executed since its resource was last
        deleted or its node restarted, with its latest result. */
    lemma HistoryIsRight(k: HistoryKeys.Key)
      requires Valid() && OpHistory.LogOk(log) && k.Ok()
      ensures OpHistory.Reflects(history.View(), log, k)
    {
      OpHistory.HistoryIsFold(log, k);
    }

    /** qb_loop_timer_is_running of monitor_timer. */
    predicate TimerIsRunning(r: ResId)
      reads this
      requires r < |res|
      ensures TimerIsRunning(r) == TimerRunning(View(), r)
    {
      res[r].timer.Some? && res[r].timer.value < |ops| && ops[res[r].timer.value].armed
    }

    method PeResourceRef(o: OpId)
      requires o < |ops|
      modifies `ops, `faults
      ensures View() == Ref(old(View()), o)
    {
      if ops[o].refs == 0 {
        faults := faults.(freed := true);
      }
      ops := ops[o := ops[o].(refs := ops[o].refs + 1)];
    }

    method PeResourceUnref(o: OpId)
      requires o < |ops|
      modifies `ops, `faults
      ensures View() == Unref(old(View()), o)
    {
      if ops[o].refs == 0 {
        faults := faults.(freed := true);
        assert ops == ops[o := ops[o].(refs := 0)];
      } else {
        ops := ops[o := ops[o].(refs := ops[o].refs - 1)];
      }
    }

    method PeResourceCompleted(o: OpId)
      requires o < |ops|
      modifies `ops, `pe, `faults
      ensures SameTransition(old(pe), pe)
      ensures View() == Confirm(old(View()), o)
    {
      if pe.live.None? {
        assert ops == ops[o := ops[o].(open := ops[o].open)];
        return;
      }
      faults := faults.(stale := faults.stale || !ops[o].open || pe.live.value != ops[o].info.graph);
      ops := ops[o := ops[o].(open := false)];
      pe := pe.(graphUpdated := true);
    }

    method ScheduleProcessing()
      modifies `pe
      ensures SameTransition(old(pe), pe)
      ensures View() == Schedule(old(View()))
    {
      pe := pe.(processJobs := pe.processJobs + 1);
    }

    method LoopTimerDel(r: ResId)
      requires r < |res|
      modifies `ops
      ensures View() == TimerDel(old(View()), r)
    {
      if TimerIsRunning(r) {
        var o := res[r].timer.value;
        ops := ops[o := ops[o].(armed := false)];
      }
    }

    method RecoverStateSet(r: ResId, to: RecoverState)
      requires r < |res|
      modifies `ops, `res
      ensures View() == SetResourceState(old(View()), r, to)
    {
      if res[r].state == to {
        return;
      }
      res := res[r := res[r].(state := to)];
      if to == Failed {
        LoopTimerDel(r);
      }
    }

    /** resource_state_set. */
    method ResourceStateSet(i: Info, ec: int)
      requires ResourceThere(View(), i)
      modifies `ops, `res
      ensures View() == Settle(old(View()), i.(target := ec), ec)
    {
      var r := i.res.value;
      match i.verb
      case Monitor =>
        if ec == OCF_OK { RecoverStateSet(r, Running); }
        else if i.interval == 0 { RecoverStateSet(r, Stopped); }
        else { RecoverStateSet(r, Failed); }
      case Start =>
        if ec == OCF_OK { RecoverStateSet(r, Running); }
        else if HardError(ec) { RecoverStateSet(r, Unrecoverable); }
        else { RecoverStateSet(r, Unknown); }
      case Stop =>
        if ec == OCF_OK { RecoverStateSet(r, Stopped); }
        else if HardError(ec) { RecoverStateSet(r, Unrecoverable); }
        else { RecoverStateSet(r, Unknown); }
      case Delete =>
    }

    /** Count the execution; the first one confirms the graph action. */
    method CountExecution(o: OpId)
      requires o < |ops|
      modifies `ops, `pe, `faults
      ensures SameTransition(old(pe), pe)
      ensures View() == Ran(old(View()), o)
    {
      if ops[o].refs == 0 {
        faults := faults.(freed := true);
      }
      ops := ops[o := ops[o].(runs := ops[o].runs + 1)];
      if ops[o].runs % TWO_32 <= 1 {
        PeResourceCompleted(o);
      }
    }

    /** The call of op_history_save. */
    method RecordExecution(i: Info, tag: Tag, ec: int, clock: Clock) returns (ghost more: seq<OpHistory.Event>)
      requires Valid()
      modifies history, `log
      ensures Valid() && log == old(log) + more && more == Recorded(names, View(), i, tag, ec, clock)
    {
      more := [];
      assert log + more == log;
      if i.mentionsHost && i.res.Some? && i.res.value < |res| {
        var key := HistoryKeys.Key(names[i.res.value], VerbText(i.verb), i.interval);
        var exec := OpHistory.Exec(key, ec, clock.noted, clock.at, tag.digest, i.target, i.graph, tag.action);
        history.OpHistorySave(exec);
        more := [OpHistory.Ran(exec)];
        log := log + more;
        assert log[..|log| - 1] == old(log);
      }
    }

    /** resource_action_completed once the execution is recorded and counted. */
    method FinishExecution(o: OpId, i: Info, ec: int)
      requires o < |ops|
      modifies `ops, `res, `pe, `faults
      ensures SameTransition(old(pe), pe) && |ops| == |old(ops)| && |res| == |old(res)|
      ensures View() == Finished(old(View()), i, o, ec)
    {
      if i.res.Some? && i.res.value < |res| {
        SettleResource(i, ec);
      } else if i.verb != Delete || i.mentionsHost || (i.interval > 0 && ec == i.target) {
        faults := faults.(missing := true);
        return;
      } else if ec != i.target {
        ScheduleProcessing();
      }
      if i.interval > 0 && ec == i.target {
        ops := ops[o := ops[o].(armed := true)];
        res := res[i.res.value := res[i.res.value].(timer := Some(o))];
      } else {
        PeResourceUnref(o);
      }
    }

    method ResourceActionCompleted(o: OpId, ec: int, clock: Clock) returns (ghost more: seq<OpHistory.Event>)
      requires Valid() && o < |ops|
      modifies `ops, `res, `pe, `faults, `log, history
      ensures SameTransition(old(pe), pe)
      ensures View() == Completed(old(View()), o, ec)
      ensures Valid() && log == old(log) + more
      ensures more == Recorded(names, old(View()), old(ops[o].info), old(tags[o]), ec, clock)
    {
      var i := ops[o].info;
      more := RecordExecution(i, tags[o], ec, clock);
      CountExecution(o);
      assert Completed(old(View()), o, ec) == Finished(View(), i, o, ec);
      FinishExecution(o, i, ec);
    }

    method SettleResource(i: Info, ec: int)
      requires ResourceThere(View(), i)
      modifies `ops, `res, `pe
      ensures SameTransition(old(pe), pe)
      ensures View() == Settle(old(View()), i, ec)
    {
      ResourceStateSet(i, ec);
      if ec != i.target {
        ScheduleProcessing();
      }
    }

    method TransportResourceAction(o: OpId)
      requires o < |ops|
      modifies `ops, `faults
      ensures View() == Launch(old(View()), o)
    {
      PeResourceRef(o);
      ops := ops[o := ops[o].(flying := true)];
    }

    method ResourceMonitorExecute(o: OpId, clock: Clock) returns (ghost more: seq<OpHistory.Event>)
      requires Valid() && o < |ops|
      modifies `ops, `res, `pe, `faults, `log, history
      ensures SameTransition(old(pe), pe)
      ensures View() == MonitorExecute(old(View()), o)
      ensures Valid() && log == old(log) + more
      ensures more == LoggedMonitor(names, old(View()), old(ops[o].info), old(tags[o]), clock)
    {
      more := [];
      if ops[o].info.host !in online {
        more := ResourceActionCompleted(o, OCF_UNKNOWN_ERROR, clock);
      } else {
        TransportResourceAction(o);
        assert log == old(log) + more;
      }
    }

    method RecurringMonitorStart(r: ResId, o: OpId, clock: Clock)
      requires Valid() && r < |res| && o < |ops| && ops[o].info.host in online
      modifies `ops, `res, `pe, `faults, `log, history
      ensures SameTransition(old(pe), pe)
      ensures View() == RecurringStart(old(View()), r, o)
      ensures Valid() && log == old(log)
    {
      if !TimerIsRunning(r) {
        PeResourceRef(o);
        res := res[r := res[r].(monitorOp := Some(o))];
        ghost var more := ResourceMonitorExecute(o, clock);
      } else {
        PeResourceCompleted(o);
        PeResourceUnref(o);
      }
    }

    method RecurringMonitorStop(r: ResId, m: OpId)
      requires r < |res| && m < |ops|
      modifies `ops, `res, `faults
      ensures View() == RecurringStop(old(View()), r, m)
    {
      if TimerIsRunning(r) {
        LoopTimerDel(r);
        PeResourceUnref(m);
      }
      res := res[r := res[r].(monitorOp := None)];
      PeResourceUnref(m);
    }

    method StopMonitorIfArmed(r: ResId)
      requires r < |res|
      modifies `ops, `res, `faults
      ensures View() == StopIfArmed(old(View()), r)
    {
      if TimerIsRunning(r) && res[r].monitorOp.Some? && res[r].monitorOp.value < |ops| {
        RecurringMonitorStop(r, res[r].monitorOp.value);
      }
    }

    /** The loop of op_history_delete: the first entry of the resource stops its monitor, all go. */
    method ForgetResource(r: ResId)
      requires Valid() && r < |res|
      modifies `ops, `res, `faults, `log, history
      ensures View() == if HasHistory(old(history.View()), names[r]) then StopIfArmed(old(View()), r) else old(View())
      ensures Valid() && log == old(log) + [OpHistory.Cleared({names[r]})]
    {
      ghost var h, s := history.View(), View();
      var todo, name := history.entries.Keys, names[r];
      assert NoneOf(h, todo, name);
      while todo != {}
        invariant todo <= h.entries.Keys && history.View() == Swept(h, todo, {name})
        invariant View() == if NoneOf(h, todo, name) then s else StopIfArmed(s, r)
        invariant r < |res| && |tags| == |ops| && |names| == |res| && log == old(log)
        decreases todo
      {
        var key :| key in todo;
        StopAgain(s, r);
        SweepOne(h, todo, {name}, key);
        if history.entries[key].key.res == name {
          StopMonitorIfArmed(r);
          history.Remove(key);
        }
        todo := todo - {key};
      }
      SweepAll(h, {name});
      log := log + [OpHistory.Cleared({name})];
      assert log[..|log| - 1] == old(log);
    }

    /** The names of a host's resources. */
    ghost function HostNames(host: HostId): set<string>
      reads this
      requires |names| == |res|
    {
      set r | 0 <= r < |names| && res[r].host == host :: names[r]
    }

    /** node_op_history_clear: one HistoryCleared event for every entry of the node's resources. */
    method NodeOpHistoryClear(host: HostId) returns (ghost run: seq<Event>)
      requires Valid() && !pe.inPass
      modifies `ops, `res, `faults, `log, history
      ensures PossibleRun(old(View()), run) && View() == After(old(View()), run)
      ensures forall e :: e in run ==> e.HistoryCleared? && e.res < |old(res)| && old(res)[e.res].host == host
      ensures Valid() && log == old(log) + [OpHistory.Cleared(old(HostNames(host)))]
    {
      ghost var h, s, gone := history.View(), View(), HostNames(host);
      run := [];
      var todo := history.entries.Keys;
      SweepAll(h, gone);
      while todo != {}
        invariant todo <= h.entries.Keys && history.View() == Swept(h, todo, gone)
        invariant |tags| == |ops| && log == old(log) && ClearingRun(s, View(), run, host)
        decreases todo
      {
        var key :| key in todo;
        SweepOne(h, todo, gone, key);
        var r := ResourceOf(history.entries[key].key.res);
        assert h.entries[key].key.res in gone <==> s.res[r].host == host;
        if res[r].host == host {
          ClearOneMore(s, View(), run, host, r);
          StopMonitorIfArmed(r);
          run := run + [HistoryCleared(r)];
          history.Remove(key);
        }
        todo := todo - {key};
      }
      log := log + [OpHistory.Cleared(gone)];
      assert log[..|log| - 1] == old(log);
    }

    /** The resource an entry points to. */
    method ResourceOf(name: string) returns (r: ResId)
      requires name in names && DistinctNames(names)
      ensures r < |names| && names[r] == name && forall q :: 0 <= q < |names| && names[q] == name ==> q == r
    {
      r := 0;
      while names[r] != name
        invariant r < |names| && name in names[r..]
        decreases |names| - r
      {
        r := r + 1;
      }
    }

    /** resource_execute_cb for an action on a resource that is there, on a host that is running. */
    method ExecuteThere(o: OpId, clock: Clock)
      requires Valid() && o < |ops|
      requires var i := ops[o].info;
               i.host in online && ResourceThere(View(), i) && i.verb != Delete && (i.verb == Monitor ==> i.mentionsHost)
      modifies `ops, `res, `pe, `faults, `log, history
      ensures SameTransition(old(pe), pe)
      ensures View() == Execute(old(View()), o, true) == Execute(old(View()), o, false)
      ensures Valid() && log == old(log)
    {
      var i := ops[o].info;
      var r := i.res.value;
      match i.verb
      case Monitor =>
        if i.interval > 0 {
          RecurringMonitorStart(r, o, clock);
        } else {
          ghost var more := ResourceMonitorExecute(o, clock);
        }
      case Start => TransportResourceAction(o);
      case Stop =>
        if res[r].monitorOp.Some? && res[r].monitorOp.value < |ops| {
          RecurringMonitorStop(r, res[r].monitorOp.value);
        }
        TransportResourceAction(o);
    }

    /** resource_execute_cb. */
    method ResourceExecuteCb(o: OpId, clock: Clock) returns (ghost more: seq<OpHistory.Event>)
      requires Valid() && o < |ops|
      modifies `ops, `res, `pe, `faults, `log, history
      ensures SameTransition(old(pe), pe)
      ensures View() == Execute(old(View()), o, HistoryOf(old(history.View()), names, old(ops[o].info.res)))
      ensures Valid() && log == old(log) + more
      ensures more == LoggedDispatch(names, old(View()), old(ops[o].info), old(tags[o]), clock)
    {
      var i := ops[o].info;
      more := [];
      assert log == log + more;
      if i.host !in online {
        more := ResourceActionCompleted(o, OCF_UNKNOWN_ERROR, clock);
      } else if i.verb == Monitor && !i.mentionsHost {
        PeResourceCompleted(o);
        PeResourceUnref(o);
      } else if !(i.res.Some? && i.res.value < |res|) {
        WithoutResource(o);
      } else if i.verb == Delete {
        ForgetResource(i.res.value);
        more := [OpHistory.Cleared({names[i.res.value]})];
        PeResourceCompleted(o);
        PeResourceUnref(o);
      } else {
        ExecuteThere(o, clock);
      }
    }

    /** The resource was not found: a monitor and a stop run into that, a start is sent off, and a
        delete finds nothing to delete. */
    method WithoutResource(o: OpId)
      requires o < |ops|
      requires var i := ops[o].info; i.host in online && !ResourceThere(View(), i) && (i.verb == Monitor ==> i.mentionsHost)
      modifies `ops, `pe, `faults
      ensures SameTransition(old(pe), pe)
      ensures View() == Execute(old(View()), o, false) == Execute(old(View()), o, true)
    {
      match ops[o].info.verb
      case Monitor => faults := faults.(missing := true);
      case Start => TransportResourceAction(o);
      case Stop => faults := faults.(missing := true);
      case Delete =>
        PeResourceCompleted(o);
        PeResourceUnref(o);
    }

    /** exec_rsc_action: allocate the operation and run it. */
    method ExecRscAction(i: Info, tag: Tag, clock: Clock) returns (ghost e: Event, ghost more: seq<OpHistory.Event>)
      requires Valid() && pe.inPass && pe.live == Some(i.graph)
      modifies `ops, `tags, `res, `pe, `faults, `log, history
      ensures SameTransition(old(pe), pe)
      ensures Dispatches(e, i) && Possible(old(View()), e) && View() == Step(old(View()), e)
      ensures Valid() && log == old(log) + more && more == Logged(names, old(View()), e, tag, clock)
    {
      e := Dispatch(i, HistoryOf(history.View(), names, i.res));
      ops := ops + [Op(i, 1, 0, true, false, false)];
      tags := tags + [tag];
      more := ResourceExecuteCb(|ops| - 1, clock);
    }

    /** The resource actions of one pass, in order. */
    method RunActions(actions: seq<Action>) returns (ghost dispatches: seq<Event>)
      requires Valid() && pe.inPass && pe.live.Some?
      requires forall k :: 0 <= k < |actions| ==> actions[k].info.graph == pe.live.value
      modifies `ops, `tags, `res, `pe, `faults, `log, history
      ensures SameTransition(old(pe), pe)
      ensures Dispatched(old(View()), dispatches, actions, |actions|) && View() == After(old(View()), dispatches)
      ensures Valid() && log == old(log) + LoggedPass(names, old(View()), dispatches, actions)
    {
      dispatches := [];
      var n := 0;
      assert log == log + LoggedPass(names, View(), [], actions);
      while n < |actions|
        invariant n <= |actions| && SameTransition(old(pe), pe) && Valid() && Dispatched(old(View()), dispatches, actions, n)
        invariant View() == After(old(View()), dispatches)
        invariant log == old(log) + LoggedPass(names, old(View()), dispatches, actions)
      {
        ghost var e, more := ExecRscAction(actions[n].info, actions[n].tag, actions[n].clock);
        DispatchedNext(names, old(View()), dispatches, actions, n, e);
        dispatches := dispatches + [e];
        n := n + 1;
      }
    }

    /** process_next_job, with the resource actions run_graph executes in this pass and whether it
        reports the transition as still active. It is one NextJob event, followed by a dispatch
        for each action and the end of the pass if the graph was updated. */
    method ProcessNextJob(actions: seq<Action>, active: bool) returns (ghost dispatches: seq<Event>)
      requires Valid() && !pe.inPass && pe.live.Some? && pe.nextJobs != []
      requires forall k :: 0 <= k < |actions| ==> actions[k].info.graph == pe.live.value
      modifies `ops, `tags, `res, `pe, `faults, `log, history
      ensures Valid()
      ensures !old(pe.graphUpdated) ==> View() == Step(old(View()), NextJob) && log == old(log)
      ensures old(pe.graphUpdated) ==>
                && Dispatched(Step(old(View()), NextJob), dispatches, actions, |actions|)
                && PossibleRun(old(View()), [NextJob] + dispatches + [PassEnds(active)])
                && View() == After(old(View()), [NextJob] + dispatches + [PassEnds(active)])
                && log == old(log) + LoggedPass(names, Step(old(View()), NextJob), dispatches, actions)
    {
      dispatches := [];
      if !pe.graphUpdated {
        pe := pe.(nextJobs := pe.nextJobs[1..] + [pe.nextJobs[0]]);
        return;
      }
      pe := pe.(nextJobs := pe.nextJobs[1..], graphUpdated := false, inPass := true);
      dispatches := RunActions(actions);
      WholePass(old(View()), dispatches, active);
      if active {
        pe := pe.(inPass := false, nextJobs := pe.nextJobs + [pe.live.value]);
      } else {
        pe := pe.(inPass := false, live := None);
      }
    }

    method ProcessJob()
      requires Possible(View(), ProcessJobRuns)
      modifies `pe
      ensures View() == Step(old(View()), ProcessJobRuns)
    {
      pe := pe.(processJobs := pe.processJobs - 1);
      if pe.live.Some? {
        ScheduleProcessing();
      } else {
        pe := pe.(count := pe.count + 1);
        pe := pe.(live := Some(pe.count), graphUpdated := true, nextJobs := pe.nextJobs + [pe.count]);
      }
    }

    /** resource_action_completion: the transport's callback, which also drops the transport's reference. */
    method ResourceActionCompletion(o: OpId, ec: int, clock: Clock) returns (ghost more: seq<OpHistory.Event>)
      requires Valid() && Possible(View(), FlightDone(o, ec))
      modifies `ops, `res, `pe, `faults, `log, history
      ensures View() == Step(old(View()), FlightDone(o, ec))
      ensures Valid() && log == old(log) + more
      ensures more == Logged(names, old(View()), FlightDone(o, ec), old(tags[o]), clock)
    {
      ops := ops[o := ops[o].(flying := false)];
      more := ResourceActionCompleted(o, ec, clock);
      PeResourceUnref(o);
    }

    method MonitorTimerFires(o: OpId, clock: Clock) returns (ghost more: seq<OpHistory.Event>)
      requires Valid() && Possible(View(), TimerFires(o))
      modifies `ops, `res, `pe, `faults, `log, history
      ensures View() == Step(old(View()), TimerFires(o))
      ensures Valid() && log == old(log) + more
      ensures more == Logged(names, old(View()), TimerFires(o), old(tags[o]), clock)
    {
      ops := ops[o := ops[o].(armed := false)];
      more := ResourceMonitorExecute(o, clock);
    }
  }

  /** No entry but those in `todo` is about the resource. */
  ghost predicate NoneOf(h: OpHistory.History, todo: set<string>, name: string) {
    forall t :: t in h.entries && t !in todo ==> h.entries[t].key.res != name
  }

  /** The entries of the resources `gone` are deleted, except those still in `todo`. */
  ghost function Swept(h: OpHistory.History, todo: set<string>, gone: set<string>): OpHistory.History {
    h.(entries := map t | t in h.entries && (t in todo || h.entries[t].key.res !in gone) :: h.entries[t])
  }

  lemma SweepOne(h: OpHistory.History, todo: set<string>, gone: set<string>, key: string)
    requires key in todo && todo <= h.entries.Keys
    ensures key in Swept(h, todo, gone).entries && Swept(h, todo, gone).entries[key] == h.entries[key]
    ensures Swept(h, todo - {key}, gone).entries
         == if h.entries[key].key.res in gone then Swept(h, todo, gone).entries - {key} else Swept(h, todo, gone).entries
  {
  }

  lemma SweepAll(h: OpHistory.History, gone: set<string>)
    ensures Swept(h, h.entries.Keys, gone) == h && Swept(h, {}, gone) == OpHistory.Clear(h, gone)
  {
    assert Swept(h, h.entries.Keys, gone).entries == h.entries;
    assert Swept(h, {}, gone).entries == OpHistory.Clear(h, gone).entries;
  }

  /** Once stopped, a monitor is not stopped again. */
  lemma StopAgain(s: State, r: ResId)
    requires r < |s.res|
    ensures |StopIfArmed(s, r).res| == |s.res| && |StopIfArmed(s, r).ops| == |s.ops|
    ensures StopIfArmed(StopIfArmed(s, r), r) == StopIfArmed(s, r)
  {
  }

  /** `run` takes `s` to `s'` by clearing resources of the host. */
  ghost predicate ClearingRun(s: State, s': State, run: seq<Event>, host: HostId) {
    && PossibleRun(s, run) && s' == After(s, run) && !s'.pe.inPass && SameHosts(s, s')
    && forall e :: e in run ==> e.HistoryCleared? && e.res < |s.res| && s.res[e.res].host == host
  }

  lemma ClearOneMore(s: State, s': State, run: seq<Event>, host: HostId, r: ResId)
    requires ClearingRun(s, s', run, host) && r < |s.res| && s.res[r].host == host
    ensures ClearingRun(s, StopIfArmed(s', r), run + [HistoryCleared(r)], host)
    ensures |StopIfArmed(s', r).ops| == |s'.ops|
  {
    Next(s, run, HistoryCleared(r));
  }

  predicate SameHosts(s: State, s': State) {
    |s'.res| == |s.res| && forall r :: 0 <= r < |s.res| ==> s'.res[r].host == s.res[r].host
  }

  lemma Next(s: State, run: seq<Event>, e: Event)
    requires PossibleRun(s, run) && Possible(After(s, run), e)
    ensures PossibleRun(s, run + [e]) && After(s, run + [e]) == Step(After(s, run), e)
  {
    var r, t := Extend(s, run, e);
  }

  /** The events dispatch the first `n` actions in order. */
  ghost predicate Dispatched(s: State, dispatches: seq<Event>, actions: seq<Action>, n: nat) {
    && n == |dispatches| <= |actions| && PossibleRun(s, dispatches)
    && forall k :: 0 <= k < n ==> Dispatches(dispatches[k], actions[k].info)
  }

  /** A pass is its first event, then the dispatches, then its end. */
  lemma WholePass(s: State, dispatches: seq<Event>, active: bool)
    requires Possible(s, NextJob) && PossibleRun(Step(s, NextJob), dispatches)
    requires Possible(After(Step(s, NextJob), dispatches), PassEnds(active))
    ensures var run := [NextJob] + dispatches + [PassEnds(active)];
            PossibleRun(s, run) && After(s, run) == Step(After(Step(s, NextJob), dispatches), PassEnds(active))
  {
    Next(Step(s, NextJob), dispatches, PassEnds(active));
    assert ([NextJob] + dispatches + [PassEnds(active)])[1..] == dispatches + [PassEnds(active)];
  }

  lemma Appended(a: seq<OpHistory.Event>, b: seq<OpHistory.Event>, c: seq<OpHistory.Event>)
    ensures a + (b + c) == (a + b) + c
  {
  }

  lemma {:induction false} LoggedOneMore(names: seq<string>, s: State, dispatches: seq<Event>, actions: seq<Action>, e: Event)
    requires PossibleRun(s, dispatches) && Possible(After(s, dispatches), e) && |dispatches| < |actions|
    requires PossibleRun(s, dispatches + [e])
    ensures LoggedPass(names, s, dispatches + [e], actions)
         == LoggedPass(names, s, dispatches, actions)
            + Logged(names, After(s, dispatches), e, actions[|dispatches|].tag, actions[|dispatches|].clock)
    decreases |dispatches|
  {
    if dispatches == [] {
      assert [] + [e] == [e] && [e][1..] == [];
    } else {
      var first, rest, more := dispatches[0], dispatches[1..], actions[1..];
      assert (dispatches + [e])[1..] == rest + [e] && (dispatches + [e])[0] == first && more[|rest|] == actions[|dispatches|];
      LoggedOneMore(names, Step(s, first), rest, more, e);
      Appended(Logged(names, s, first, actions[0].tag, actions[0].clock), LoggedPass(names, Step(s, first), rest, more),
               Logged(names, After(s, dispatches), e, actions[|dispatches|].tag, actions[|dispatches|].clock));
    }
  }

  lemma DispatchedNext(names: seq<string>, s: State, dispatches: seq<Event>, actions: seq<Action>, n: nat, e: Event)
    requires Dispatched(s, dispatches, actions, n) && n < |actions| && Dispatches(e, actions[n].info)
    requires Possible(After(s, dispatches), e)
    ensures Dispatched(s, dispatches + [e], actions, n + 1)
    ensures After(s, dispatches + [e]) == Step(After(s, dispatches), e)
    ensures LoggedPass(names, s, dispatches + [e], actions)
         == LoggedPass(names, s, dispatches, actions)
            + Logged(names, After(s, dispatches), e, actions[n].tag, actions[n].clock)
  {
    Next(s, dispatches, e);
    LoggedOneMore(names, s, dispatches, actions, e);
  }
}
