/**
  What the SSH transport does, read off the events of a run: which operations are queued, which one is
  being executed, who is called back, and that a RUNNING assembly keeps being checked.
 */
module SshRuns {
  import opened Options
  import SshExec
  import opened RecoverStates
  import opened SshQueue

  /** `n` new operations, numbered from `first`. */
  function Fresh(first: OpId, n: nat): seq<OpId> {
    seq(n, i => first + i)
  }

  function Actions(at: int, n: nat): seq<Made> {
    seq(n, i => Made(Action, at))
  }

  /** How many actions the callback of a completed operation submits. */
  function More(s: Transport, e: Event): nat
    requires e.Job?
  {
    if e.verdict != SshExec.Verdict.Complete || e.failed || IsHealthcheck(s.made, e.op) then 0 else e.reaction.more
  }

  lemma {:induction false} SubmitsQueue(s: Transport, n: nat)
    requires s.link.life == Connected && s.scheduled && s.jobs == []
    ensures var s' := SubmitActions(s, n);
            && s'.queue == s.queue + Fresh(|s.made|, n) && s'.made == s.made + Actions(s.now, n)
            && s'.jobs == [] && s'.scheduled && s'.link == s.link && s'.now == s.now && s'.log.callbacks == s.log.callbacks
            && s'.healthTimer == s.healthTimer && s'.keepalive == s.keepalive
  {
    if n > 0 {
      SubmitsQueue(s, n - 1);
      assert Fresh(|s.made|, n) == Fresh(|s.made|, n - 1) + [|s.made| + n - 1];
      assert Actions(s.now, n) == Actions(s.now, n - 1) + [Made(Action, s.now)];
    }
  }

  /** What a callback that leaves the transport alone does to the queue. */
  lemma ReactQueue(s: Transport, op: OpId, rc: int, r: Reaction)
    requires s.link.life == Connected && s.scheduled && s.jobs == [] && !TearsDown(s, op, rc, r)
    ensures var s' := React(s, op, rc, r); var n := if IsHealthcheck(s.made, op) then 0 else r.more;
            && s'.queue == s.queue + Fresh(|s.made|, n) && s'.made == s.made + Actions(s.now, n)
            && s'.jobs == [] && s'.link.life == Connected && s'.log.callbacks == s.log.callbacks
  {
    SubmitsQueue(s, r.more);
    assert Fresh(|s.made|, 0) == [] && Actions(s.now, 0) == [];
  }

  /** The head is taken off, what its callback submits is put on, and the new head gets a job. */
  lemma CompleteQueue(s: Transport, op: OpId, failed: bool, rc: int, r: Reaction)
    requires s.link.life == Connected && s.scheduled && s.jobs == [] && s.queue != [] && op == s.queue[0]
    requires failed || !TearsDown(s, op, rc, r)
    ensures var s' := Complete(s, op, failed, rc, r);
            var n := if failed || IsHealthcheck(s.made, op) then 0 else r.more;
            && s'.queue == s.queue[1..] + Fresh(|s.made|, n) && s'.made == s.made + Actions(s.now, n)
            && s'.jobs == (if s'.queue == [] then [] else [s'.queue[0]])
  {
    var off := Unlinked(s, op);
    if failed {
      assert Fresh(|s.made|, 0) == [] && Actions(s.now, 0) == [];
    } else {
      ReactQueue(off.(log := off.log.Called(Completed(op, rc))), op, rc, r);
    }
  }

  lemma QueueAfterJobs(s: Transport, e: Event)
    requires Inv(s) && Allowed(s, e) && !GoesWrong(s, e) && e.Job?
    ensures var s' := Step(s, e);
            && s.queue != [] && e.op == s.queue[0] && s.jobs == [e.op] && s.link.life == Connected
            && s'.queue == (if e.verdict == SshExec.Verdict.Complete then s.queue[1..] else s.queue)
                           + Fresh(|s.made|, More(s, e))
            && s'.made == s.made + Actions(s.now, More(s, e))
  {
    assert s.jobs == [e.op] && Remove(s.jobs, e.op) == [];
    if e.verdict == SshExec.Verdict.Complete {
      CompleteQueue(s.(jobs := []), e.op, e.failed, e.rc, e.reaction);
    } else {
      assert Fresh(|s.made|, 0) == [] && Actions(s.now, 0) == [];
    }
  }

  /** Every event of a careful run: what is queued afterwards, in order, and what was made of it. */
  lemma QueueAfter(s: Transport, e: Event)
    requires Inv(s) && Allowed(s, e) && !GoesWrong(s, e)
    ensures var s' := Step(s, e);
            match e
            case Execute => s.link.life == Connected ==>
              s'.queue == s.queue + [|s.made|] && s'.made == s.made + [Made(Action, s.now)]
            case HealthFires => s'.queue == s.queue + [|s.made|] && s'.made == s.made + [Made(Healthcheck, s.now)]
            case SessionRuns(step) =>
              if step == Up then s'.queue == [|s.made|] && s'.made == s.made + [Made(Healthcheck, s.now)]
              else s'.queue == s.queue && s'.made == s.made
            case Job(op, v, failed, rc, r) =>
              && s.queue != [] && op == s.queue[0]
              && s'.queue == (if v == SshExec.Verdict.Complete then s.queue[1..] else s.queue) + Fresh(|s.made|, More(s, e))
              && s'.made == s.made + Actions(s.now, More(s, e))
            case TimerFires(_, _) => s'.queue == [] && s'.made == s.made
            case Teardown => s'.queue == [] && s'.made == s.made
            case _ => s'.queue == s.queue && s'.made == s.made
  {
    if e.Job? {
      QueueAfterJobs(s, e);
    }
  }

  // ---- The head is being executed ----

  /** The operations whose channel was refused. */
  function RefusedOps(run: seq<Event>): set<OpId> {
    set e | e in run && e.Job? && e.verdict == SshExec.Verdict.Refused :: e.op
  }

  /** The head has its job, unless it is one of `stuck`; nothing else in the queue is. */
  ghost predicate Served(s: Transport, stuck: set<OpId>) {
    && (s.queue != [] ==> (s.jobs == [] <==> s.queue[0] in stuck))
    && (forall o :: o in stuck && o in s.queue ==> o == s.queue[0])
    && (forall o :: o in stuck ==> o < |s.made|)
  }

  /** A job that runs again, or whose channel was refused, leaves the queue as it is. */
  lemma UnfinishedServed(s: Transport, e: Event, stuck: set<OpId>)
    requires Inv(s) && Allowed(s, e) && Served(s, stuck) && e.Job? && e.verdict != SshExec.Verdict.Complete
    ensures Served(Step(s, e), if e.verdict == SshExec.Verdict.Refused then stuck + {e.op} else stuck)
  {
    var s' := Step(s, e);
    assert s.jobs == [e.op] && Remove(s.jobs, e.op) == [];
    assert s'.queue == s.queue && s'.made == s.made && s.queue[0] == e.op;
    QueueFacts(s.log.finished, s.queue, s.log.submitted, |s.made|);
    assert e.op in s.queue;
    if e.verdict == SshExec.Verdict.Refused {
      assert s'.jobs == [];
    } else {
      assert s'.jobs == [e.op];
    }
  }

  /** Nothing but the head was ever refused, and what is new was not either. */
  lemma NoneStuck(s: Transport, n: nat, stuck: set<OpId>)
    requires Inv(s) && Served(s, stuck) && s.queue != []
    ensures forall o :: o in s.queue[1..] + Fresh(|s.made|, n) ==> o !in stuck
  {
    QueueFacts(s.log.finished, s.queue, s.log.submitted, |s.made|);
    forall o | o in s.queue[1..] ensures o !in stuck {
      assert o in s.queue;
    }
  }

  lemma CompleteServed(s: Transport, e: Event, stuck: set<OpId>)
    requires Inv(s) && Allowed(s, e) && !GoesWrong(s, e) && Served(s, stuck) && e.Job? && e.verdict == SshExec.Verdict.Complete
    ensures Served(Step(s, e), stuck)
  {
    QueueAfterJobs(s, e);
    NoneStuck(s, More(s, e), stuck);
    assert s.jobs == [e.op] && Remove(s.jobs, e.op) == [];
    CompleteQueue(s.(jobs := []), e.op, e.failed, e.rc, e.reaction);
  }

  lemma JobServed(s: Transport, e: Event, stuck: set<OpId>)
    requires Inv(s) && Allowed(s, e) && !GoesWrong(s, e) && Served(s, stuck) && e.Job?
    ensures Served(Step(s, e), if e.verdict == SshExec.Verdict.Refused then stuck + {e.op} else stuck)
  {
    if e.verdict == SshExec.Verdict.Complete {
      CompleteServed(s, e, stuck);
    } else {
      UnfinishedServed(s, e, stuck);
    }
  }

  lemma StepServed(s: Transport, e: Event, stuck: set<OpId>)
    requires Inv(s) && Allowed(s, e) && !GoesWrong(s, e) && Served(s, stuck)
    ensures Served(Step(s, e), if e.Job? && e.verdict == SshExec.Verdict.Refused then stuck + {e.op} else stuck)
  {
    if e.Job? {
      JobServed(s, e, stuck);
    } else {
      QueueAfter(s, e);
      QueueFacts(s.log.finished, s.queue, s.log.submitted, |s.made|);
    }
  }

  lemma {:induction false} RunServed(s: Transport, run: seq<Event>, stuck: set<OpId>)
    requires Inv(s) && PossibleRun(s, run) && Careful(s, run) && Served(s, stuck)
    ensures Served(After(s, run), stuck + RefusedOps(run))
    decreases |run|
  {
    if run == [] {
      assert stuck + RefusedOps(run) == stuck;
    } else {
      var e := run[0];
      var now := if e.Job? && e.verdict == SshExec.Verdict.Refused then stuck + {e.op} else stuck;
      StepServed(s, e, stuck);
      StepKeeps(s, e);
      RunServed(Step(s, e), run[1..], now);
      assert run == [e] + run[1..];
      assert now + RefusedOps(run[1..]) == stuck + RefusedOps(run);
    }
  }

  lemma ServedHead(s: Transport, stuck: set<OpId>)
    requires Inv(s) && Served(s, stuck) && s.queue != []
    ensures s.jobs == if s.queue[0] in stuck then [] else [s.queue[0]]
  {
  }

  lemma RunHead(s: Transport, run: seq<Event>)
    requires Inv(s) && Served(s, {}) && PossibleRun(s, run) && Careful(s, run) && After(s, run).queue != []
    ensures var s' := After(s, run);
            s'.jobs == if s'.queue[0] in RefusedOps(run) then [] else [s'.queue[0]]
  {
    RunServed(s, run, {});
    assert {} + RefusedOps(run) == RefusedOps(run);
    RunKeeps(s, run);
    ServedHead(After(s, run), RefusedOps(run));
  }

  lemma StartServed()
    ensures Inv(START) && Served(START, {})
  {
    StartIsGood();
  }

  /** After every careful run the first operation of the queue has its executor job, and it alone, unless
      a job of that very operation was refused its channel; then it has none. */
  lemma HeadIsServed(run: seq<Event>)
    requires PossibleRun(START, run) && Careful(START, run) && After(START, run).queue != []
    ensures var s := After(START, run);
            s.jobs == if s.queue[0] in RefusedOps(run) then [] else [s.queue[0]]
  {
    StartServed();
    RunHead(START, run);
  }

  // ---- Who is called back ----

  function CallOf(e: Event): seq<Callback> {
    match e
    case Job(op, v, failed, rc, _) => if v == SshExec.Verdict.Complete && !failed then [Completed(op, rc)] else []
    case TimerFires(op, _) => [TimedOut(op)]
    case _ => []
  }

  /** The callbacks that a run makes, event by event. */
  function CallsOf(run: seq<Event>): seq<Callback> {
    if run == [] then [] else CallOf(run[0]) + CallsOf(run[1..])
  }

  lemma {:induction false} SubmitsCall(s: Transport, n: nat)
    ensures SubmitActions(s, n).log.callbacks == s.log.callbacks
  {
    if n > 0 {
      SubmitsCall(s, n - 1);
    }
  }

  lemma ReactCalls(s: Transport, op: OpId, rc: int, r: Reaction)
    ensures React(s, op, rc, r).log.callbacks == s.log.callbacks
  {
    SubmitsCall(s, r.more);
  }

  lemma CompleteCalls(s: Transport, op: OpId, failed: bool, rc: int, r: Reaction)
    ensures Complete(s, op, failed, rc, r).log.callbacks
         == s.log.callbacks + if failed then [] else [Completed(op, rc)]
  {
    var off := Unlinked(s, op);
    ReactCalls(off.(log := off.log.Called(Completed(op, rc))), op, rc, r);
  }

  lemma StepCalls(s: Transport, e: Event)
    requires Allowed(s, e)
    ensures Step(s, e).log.callbacks == s.log.callbacks + CallOf(e)
  {
    match e
    case Job(op, v, failed, rc, r) => CompleteCalls(s.(jobs := Remove(s.jobs, op)), op, failed, rc, r);
    case _ =>
  }

  lemma Joined(a: seq<Callback>, b: seq<Callback>, c: seq<Callback>)
    ensures (a + b) + c == a + (b + c)
  {
  }

  lemma {:induction false} RunCalls(s: Transport, run: seq<Event>)
    requires PossibleRun(s, run)
    ensures After(s, run).log.callbacks == s.log.callbacks + CallsOf(run)
    decreases |run|
  {
    if run == [] {
      assert s.log.callbacks + [] == s.log.callbacks;
    } else {
      var e, rest := run[0], run[1..];
      StepCalls(s, e);
      RunCalls(Step(s, e), rest);
      Joined(s.log.callbacks, CallOf(e), CallsOf(rest));
    }
  }

  /** In every run: an operation that is executed to the end without an error is called back with its
      status, one that times out is told so, and nobody else is called. */
  lemma CallbacksReadOffRun(run: seq<Event>)
    requires PossibleRun(START, run)
    ensures After(START, run).log.callbacks == CallsOf(run)
  {
    RunCalls(START, run);
  }

  // ---- A RUNNING assembly keeps being checked ----

  /** The health check that was submitted last. */
  function LastCheck(made: seq<Made>): Option<OpId> {
    if made == [] then None
    else if made[|made| - 1].kind == Healthcheck then Some(|made| - 1)
    else LastCheck(made[..|made| - 1])
  }

  lemma {:induction false} LastCheckIs(made: seq<Made>)
    ensures match LastCheck(made)
            case Some(h) => h < |made| && made[h].kind == Healthcheck && forall o :: h < o < |made| ==> made[o].kind == Action
            case None => forall o :: 0 <= o < |made| ==> made[o].kind == Action
  {
    if made != [] && made[|made| - 1].kind != Healthcheck {
      LastCheckIs(made[..|made| - 1]);
    }
  }

  lemma {:induction false} ActionsLeaveLast(made: seq<Made>, at: int, n: nat)
    ensures LastCheck(made + Actions(at, n)) == LastCheck(made)
  {
    if n == 0 {
      assert made + Actions(at, 0) == made;
    } else {
      var longer := made + Actions(at, n);
      assert longer[..|longer| - 1] == made + Actions(at, n - 1);
      ActionsLeaveLast(made, at, n - 1);
    }
  }

  lemma OneMore(made: seq<Made>, m: Made)
    ensures LastCheck(made + [m]) == if m.kind == Healthcheck then Some(|made|) else LastCheck(made)
  {
    assert (made + [m])[..|made|] == made;
  }

  /** The operations that ended in an error of the library, which nobody is told of. */
  function FailedOps(run: seq<Event>): set<OpId> {
    set e | e in run && e.Job? && e.verdict == SshExec.Verdict.Complete && e.failed :: e.op
  }

  /** The last health check is queued or its timer armed, unless it is one of `lost`. */
  ghost predicate Checked(s: Transport, lost: set<OpId>) {
    var last := LastCheck(s.made);
    && (forall o :: o in lost ==> o < |s.made| && o !in s.queue)
    && (forall o :: o in s.queue && IsHealthcheck(s.made, o) ==> last == Some(o))
    && (s.healthTimer ==> last.Some? && last.value !in lost)
    && (s.link.node == Running ==>
          s.keepalive && last.Some? && (s.healthTimer || last.value in s.queue || last.value in lost))
  }

  function LostBy(e: Event, lost: set<OpId>): set<OpId> {
    if e.Job? && e.verdict == SshExec.Verdict.Complete && e.failed then lost + {e.op} else lost
  }

  /** The keepalive and the health check timer after a job. */
  lemma JobTimers(s: Transport, e: Event)
    requires Inv(s) && Allowed(s, e) && !GoesWrong(s, e) && e.Job?
    ensures var s' := Step(s, e); var check := e.verdict == SshExec.Verdict.Complete && !e.failed && IsHealthcheck(s.made, e.op);
            && s'.healthTimer == (s.healthTimer || (check && e.rc == 0 && s.link.node == Running))
            && s'.keepalive == (s.keepalive && !(check && e.rc != 0))
            && s'.link.node == (if check && e.rc != 0 then Failed else s.link.node)
  {
    assert s.jobs == [e.op] && Remove(s.jobs, e.op) == [] && s.link.life == Connected;
    var off := Unlinked(s.(jobs := []), e.op);
    SubmitsQueue(off.(log := off.log.Called(Completed(e.op, e.rc))), e.reaction.more);
  }

  /** The health checks still queued after a job were queued before, and are not its own. */
  lemma ChecksAfterJob(s: Transport, e: Event, o: OpId)
    requires Inv(s) && Allowed(s, e) && !GoesWrong(s, e) && e.Job?
    requires o in Step(s, e).queue && IsHealthcheck(Step(s, e).made, o)
    ensures o in s.queue && IsHealthcheck(s.made, o) && (e.verdict == SshExec.Verdict.Complete ==> o != e.op)
  {
    QueueAfter(s, e);
    QueueFacts(s.log.finished, s.queue, s.log.submitted, |s.made|);
    assert s.queue == [e.op] + s.queue[1..];
  }

  /** What stays in the queue. */
  lemma QueueAfterJob(s: Transport, e: Event, o: OpId)
    requires Inv(s) && Allowed(s, e) && !GoesWrong(s, e) && e.Job? && o < |s.made|
    ensures o in Step(s, e).queue <==> o in s.queue && !(e.verdict == SshExec.Verdict.Complete && o == e.op)
  {
    QueueAfter(s, e);
    QueueFacts(s.log.finished, s.queue, s.log.submitted, |s.made|);
    assert s.queue == [e.op] + s.queue[1..];
  }

  lemma JobChecked(s: Transport, e: Event, lost: set<OpId>)
    requires Inv(s) && Allowed(s, e) && !GoesWrong(s, e) && Checked(s, lost) && e.Job?
    ensures Checked(Step(s, e), LostBy(e, lost))
  {
    var s', now, last := Step(s, e), LostBy(e, lost), LastCheck(s.made);
    QueueAfter(s, e);
    ActionsLeaveLast(s.made, s.now, More(s, e));
    JobTimers(s, e);
    assert e.op in s.queue && e.op < |s.made| by {
      QueueFacts(s.log.finished, s.queue, s.log.submitted, |s.made|);
    }
    forall o | o in now ensures o < |s'.made| && o !in s'.queue { QueueAfterJob(s, e, o); }
    forall o | o in s'.queue && IsHealthcheck(s'.made, o) ensures last == Some(o) { ChecksAfterJob(s, e, o); }
    if last.Some? {
      LastCheckIs(s.made);
      QueueAfterJob(s, e, last.value);
    }
  }

  lemma SubmitChecked(s: Transport, e: Event, lost: set<OpId>)
    requires Inv(s) && Allowed(s, e) && !GoesWrong(s, e) && Checked(s, lost)
    requires e in {Execute, HealthFires, SessionRuns(Up)}
    ensures Checked(Step(s, e), lost)
  {
    QueueAfter(s, e);
    QueueFacts(s.log.finished, s.queue, s.log.submitted, |s.made|);
    OneMore(s.made, Made(Action, s.now));
    OneMore(s.made, Made(Healthcheck, s.now));
  }

  lemma StepChecked(s: Transport, e: Event, lost: set<OpId>)
    requires Inv(s) && Patient(s) && Allowed(s, e) && !GoesWrong(s, e) && e != Teardown && Checked(s, lost)
    ensures Checked(Step(s, e), LostBy(e, lost))
  {
    if e.Job? {
      JobChecked(s, e, lost);
    } else if e in {Execute, HealthFires, SessionRuns(Up)} {
      SubmitChecked(s, e, lost);
    } else {
      QueueAfter(s, e);
    }
  }

  lemma {:induction false} RunChecked(s: Transport, run: seq<Event>, lost: set<OpId>)
    requires Inv(s) && Patient(s) && PossibleRun(s, run) && Careful(s, run) && NoExit(run) && Checked(s, lost)
    ensures Checked(After(s, run), lost + FailedOps(run))
    decreases |run|
  {
    if run == [] {
      assert lost + FailedOps(run) == lost;
    } else {
      var e := run[0];
      StepChecked(s, e, lost);
      StepKeeps(s, e);
      StepPatient(s, e);
      RunChecked(Step(s, e), run[1..], LostBy(e, lost));
      assert run == [e] + run[1..];
      assert LostBy(e, lost) + FailedOps(run[1..]) == lost + FailedOps(run);
    }
  }

  /** Before the daemon exits, a RUNNING assembly has its keepalive, and its next health check is queued
      or will be by its timer, if and only if the last one did not end in an error of the library. */
  lemma KeepsChecking(run: seq<Event>)
    requires PossibleRun(START, run) && Careful(START, run) && NoExit(run)
    ensures var s := After(START, run); var last := LastCheck(s.made);
            s.link.node == Running ==>
              && s.keepalive && last.Some?
              && (s.healthTimer || last.value in s.queue <==> last.value !in FailedOps(run))
  {
    StartIsGood();
    OneMore([], Made(Healthcheck, 0));
    assert [] + [Made(Healthcheck, 0)] == [Made(Healthcheck, 0)];
    RunChecked(START, run, {});
    assert {} + FailedOps(run) == FailedOps(run);
  }

  // ---- A new connection ----

  lemma {:induction false} Extend(s0: Transport, run: seq<Event>, e: Event) returns (run': seq<Event>, s': Transport)
    requires PossibleRun(s0, run) && Careful(s0, run) && Allowed(After(s0, run), e) && !GoesWrong(After(s0, run), e)
    ensures run' == run + [e] && PossibleRun(s0, run') && Careful(s0, run')
    ensures s' == Step(After(s0, run), e) == After(s0, run')
    decreases |run|
  {
    run', s' := run + [e], Step(After(s0, run), e);
    if run == [] {
      assert run'[1..] == [];
    } else {
      var r, t := Extend(Step(s0, run[0]), run[1..], e);
      assert run'[1..] == r;
    }
  }

  /** The socket of a new transport is connected at the second try. */
  lemma SocketConnects(s: Transport) returns (run: seq<Event>)
    requires Inv(s) && Patient(s) && s.link.life == Freed
    ensures run == [Connects, ConnectRuns(false), ConnectRuns(true)] && PossibleRun(s, run) && Careful(s, run)
    ensures After(s, run) == s.(link := Link(s.link.node, Starting, 0, true))
  {
    var t;
    run, t := Extend(s, [], Connects);
    run, t := Extend(s, run, ConnectRuns(false));
    run, t := Extend(s, run, ConnectRuns(true));
  }

  /** A transport that is gone can be replaced: once the socket is connected and the session open, after
      answers that make it wait, the assembly is RUNNING and its health check is being executed. */
  lemma Reconnects(s: Transport) returns (run: seq<Event>)
    requires Inv(s) && Patient(s) && s.link.life == Freed
    ensures run == [Connects, ConnectRuns(false), ConnectRuns(true), SessionRuns(NoSession), SessionRuns(Waits), SessionRuns(Up)]
    ensures PossibleRun(s, run) && Careful(s, run)
    ensures var t := After(s, run);
            && t.link == Link(Running, Connected, 0, false) && t.keepalive
            && t.queue == t.jobs == [|s.made|] && t.made == s.made + [Made(Healthcheck, s.now)]
  {
    var t;
    run := SocketConnects(s);
    run, t := Extend(s, run, SessionRuns(NoSession));
    run, t := Extend(s, run, SessionRuns(Waits));
    assert t == s.(link := Link(s.link.node, Opening, 0, true));
    run, t := Extend(s, run, SessionRuns(Up));
  }

  // ---- The state of the assembly ----

  /** What an event says about the assembly, if anything. */
  function Tells(s: Transport, e: Event): Option<RecoverState> {
    match e
    case Job(op, v, failed, rc, _) =>
      if v == SshExec.Verdict.Complete && !failed && IsHealthcheck(s.made, op) && rc != 0 then Some(Failed) else None
    case TimerFires(_, _) => Some(Failed)
    case Pending => Some(Unknown)
    case SessionRuns(step) => if step == Up then Some(Running) else None
    case _ => None
  }

  lemma StepNode(s: Transport, e: Event)
    requires Inv(s) && Allowed(s, e) && !GoesWrong(s, e)
    ensures Step(s, e).link.node == if Tells(s, e).Some? then Tells(s, e).value else s.link.node
  {
    if e.Job? {
      JobTimers(s, e);
    }
  }

  /** What was last told about the assembly. */
  function LastTold(s: Transport, told: RecoverState, run: seq<Event>): RecoverState
    requires PossibleRun(s, run)
    decreases |run|
  {
    if run == [] then told
    else LastTold(Step(s, run[0]), if Tells(s, run[0]).Some? then Tells(s, run[0]).value else told, run[1..])
  }

  /** In every careful run the assembly is in the state that was last told: FAILED by a health check with a
      bad status or by any timeout, RUNNING by a new connection, UNKNOWN while its instance is polled for. */
  lemma {:induction false} NodeIsLastTold(s: Transport, run: seq<Event>)
    requires Inv(s) && PossibleRun(s, run) && Careful(s, run)
    ensures After(s, run).link.node == LastTold(s, s.link.node, run)
    decreases |run|
  {
    if run != [] {
      StepNode(s, run[0]);
      StepKeeps(s, run[0]);
      NodeIsLastTold(Step(s, run[0]), run[1..]);
    }
  }

  // ---- The connect_execute jobs in the loop ----

  /** A connect_execute job is deleted with the transport only in SSH_SESSION_INIT. */
  predicate Deletes(s: Transport, s': Transport) {
    s.link.life == Starting && s'.link.life == Freed && s.link.connectJobs > 0
  }

  lemma JobConnectJobs(s: Transport, e: Event)
    requires Allowed(s, e) && !GoesWrong(s, e) && e.Job? && e.verdict == SshExec.Verdict.Complete
    ensures Step(s, e).link.connectJobs == s.link.connectJobs - if Deletes(s, Step(s, e)) then 1 else 0
  {
    CompleteLink(s.(jobs := Remove(s.jobs, e.op)), e.op, e.failed, e.rc, e.reaction);
  }

  lemma StepConnectJobs(s: Transport, e: Event)
    requires Allowed(s, e) && !GoesWrong(s, e)
    ensures Step(s, e).link.connectJobs
         == s.link.connectJobs + (if e.Connects? then 1 else 0) - (if e == ConnectRuns(true) then 1 else 0)
            - (if Deletes(s, Step(s, e)) then 1 else 0)
  {
    if e.Job? && e.verdict == SshExec.Verdict.Complete {
      JobConnectJobs(s, e);
    }
  }

  /** How often a connection was begun, less how often a socket was connected. */
  function Begun(run: seq<Event>): int {
    if run == [] then 0
    else (if run[0].Connects? then 1 else 0) - (if run[0] == ConnectRuns(true) then 1 else 0) + Begun(run[1..])
  }

  function Deleted(s: Transport, run: seq<Event>): nat
    requires PossibleRun(s, run)
    decreases |run|
  {
    if run == [] then 0
    else (if Deletes(s, Step(s, run[0])) then 1 else 0) + Deleted(Step(s, run[0]), run[1..])
  }

  /** Every connection that was begun and whose socket did not connect still has its job in the loop, even
      when its transport is gone. */
  lemma {:induction false} ConnectJobsReadOffRun(s: Transport, run: seq<Event>)
    requires PossibleRun(s, run) && Careful(s, run)
    ensures After(s, run).link.connectJobs == s.link.connectJobs + Begun(run) - Deleted(s, run)
    decreases |run|
  {
    if run != [] {
      StepConnectJobs(s, run[0]);
      ConnectJobsReadOffRun(Step(s, run[0]), run[1..]);
    }
  }
}
