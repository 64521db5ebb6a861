/**
  The queue of operations of an assembly's SSH transport, its executor job and its timers, under
  every interleaving of submissions, jobs, timeouts, health checks, teardowns and new connections.
 */
module SshQueue {
  import opened SshExec
  import opened RecoverStates

  const SSH_TIMEOUT := 5000  // milliseconds

  /** Operations are numbered in the order they are submitted. */
  type OpId = nat

  /** A health check ("uptime") or an action on a resource. */
  datatype Kind = Healthcheck | Action

  datatype Callback = Completed(op: OpId, rc: int) | TimedOut(op: OpId)

  /** What is known about an operation from the moment it is submitted. */
  datatype Made = Made(kind: Kind, at: int)

  /** The past: what was submitted and what finished since the queue was last flushed, and every
      callback ever made. */
  datatype Log = Log(submitted: seq<OpId>, finished: seq<OpId>, callbacks: seq<Callback>) {
    function Submitted(op: OpId): Log { this.(submitted := submitted + [op]) }
    function Finished(op: OpId): Log { this.(finished := finished + [op]) }
    function Called(cb: Callback): Log { this.(callbacks := callbacks + [cb]) }
    function Flushed(): Log { Log([], [], callbacks) }
  }

  /** What the assembly's transport reference leads to: a transport whose socket is being connected,
      whose session is to be made (SSH_SESSION_INIT), is being opened, or is up; or memory that was
      freed, since nothing clears the reference. */
  datatype Life = Connecting | Starting | Opening | Connected | Freed

  /** The assembly and its way to a connection. */
  datatype Link = Link(
    node: RecoverState,           // the state of the assembly
    life: Life,
    connectJobs: nat,             // connect_execute jobs in the loop
    sessionJob: bool)             // an ssh_assembly_connect job is in the loop

  /** Freed memory that was used: the descriptor a disconnect reads from what it has just freed, and
      anything else. */
  datatype Harm = Harm(closed: bool, fault: bool)

  datatype Transport = Transport(
    now: int,
    link: Link,
    queue: seq<OpId>,             // ssh_op_head
    scheduled: bool,
    jobs: seq<OpId>,              // assembly_ssh_exec jobs in the loop
    timers: map<OpId, int>,       // armed ssh_timeout deadlines
    healthTimer: bool,            // healthcheck_timer is armed
    keepalive: bool,              // keepalive_timer is armed
    made: seq<Made>,              // every operation so far; its number is its index
    log: Log,
    harm: Harm)

  /** A transport that has just connected: nothing is queued yet. */
  const CONNECTED := Transport(0, Link(Running, Connected, 0, false), [], false, [], map[], false, true, [],
                               Log([], [], []), Harm(false, false))

  /** Take one operation out of a list. */
  function Remove(q: seq<OpId>, op: OpId): seq<OpId> {
    if q == [] then [] else if q[0] == op then q[1..] else [q[0]] + Remove(q[1..], op)
  }

  /** Delete the timer of every operation in `q`. */
  function Untimed(timers: map<OpId, int>, q: seq<OpId>): map<OpId, int>
    decreases |q|
  {
    if q == [] then timers else Untimed(timers - {q[0]}, q[1..])
  }

  function Schedule(s: Transport): Transport {
    s.(scheduled := s.queue != [],
       jobs := if s.queue == [] then s.jobs else s.jobs + [s.queue[0]])
  }

  function Unschedule(s: Transport): Transport {
    s.(scheduled := false,
       jobs := if s.scheduled && s.queue != [] then Remove(s.jobs, s.queue[0]) else s.jobs)
  }

  /** transport_execute on a connected transport: a new operation, its timer, and a job if none is under way. */
  function Append(s: Transport, kind: Kind): Transport {
    var op := |s.made|;
    s.(queue := s.queue + [op], made := s.made + [Made(kind, s.now)], log := s.log.Submitted(op),
       timers := s.timers[op := s.now + SSH_TIMEOUT],
       scheduled := true,
       jobs := if s.scheduled then s.jobs else s.jobs + [(s.queue + [op])[0]])
  }

  /** transport_execute: ignored before the connection is up. */
  function Submit(s: Transport, kind: Kind): Transport {
    if s.link.life == Connected then Append(s, kind) else s.(harm := s.harm.(fault := s.harm.fault || s.link.life == Freed))
  }

  function SubmitActions(s: Transport, n: nat): Transport {
    if n == 0 then s else Submit(SubmitActions(s, n - 1), Action)
  }

  /** The queue emptied without completing anything. */
  function Flush(s: Transport): Transport {
    Unschedule(s).(queue := [], timers := Untimed(s.timers, s.queue), log := s.log.Flushed())
  }

  /** The transport is freed; nothing it had queued is completed. A connect_execute job is deleted only
      in the state in which there should be none. */
  function Gone(s: Transport): Transport {
    Flush(s).(link := Cut(s.link), healthTimer := false, keepalive := false, harm := s.harm.(closed := true))
  }

  function Cut(l: Link): Link {
    Link(l.node, Freed, ConnectJobsLeft(l), false)
  }

  function ConnectJobsLeft(l: Link): nat {
    if l.life == Starting && l.connectJobs > 0 then l.connectJobs - 1 else l.connectJobs
  }

  function Faulty(s: Transport): Transport {
    s.(harm := s.harm.(fault := true))
  }

  /** transport_disconnect: a second one reads and frees what is already freed. */
  function Disconnect(s: Transport): Transport {
    if s.link.life == Freed then Faulty(s) else Gone(s)
  }

  /** What the completion callback does: actions may submit more actions; when a health check failed,
      recovery decides whether to restart the node. */
  datatype Reaction = Reaction(more: nat, restarts: bool)

  /** The assembly becomes FAILED and is restarted, which it is not if it was FAILED before. */
  predicate Restarts(s: Transport, r: Reaction) {
    s.link.node != Failed && r.restarts
  }

  predicate TearsDown(s: Transport, op: OpId, rc: int, r: Reaction) {
    IsHealthcheck(s.made, op) && rc != 0 && Restarts(s, r)
  }

  predicate IsHealthcheck(made: seq<Made>, o: OpId) {
    o < |made| && made[o].kind == Healthcheck
  }

  function React(s: Transport, op: OpId, rc: int, r: Reaction): Transport {
    if !IsHealthcheck(s.made, op) then SubmitActions(s, r.more)
    else if rc == 0 then s.(healthTimer := s.healthTimer || s.link.node == Running)
    else if Restarts(s, r) then Disconnect(s.(keepalive := false, link := s.link.(node := Failed)))
    else s.(keepalive := false, link := s.link.(node := Failed))
  }

  /** ssh_op_complete and transport_schedule: the end of an executor job that ran to the end. */
  function Complete(s: Transport, op: OpId, failed: bool, rc: int, r: Reaction): Transport {
    var off := Unlinked(s, op);
    var called := if failed then off else React(off.(log := off.log.Called(Completed(op, rc))), op, rc, r);
    if called.link.life != Freed then Schedule(called) else Faulty(called)
  }

  /** The operation is out of the list and its timer deleted: the state its callback runs in. */
  function Unlinked(s: Transport, op: OpId): Transport {
    s.(timers := s.timers - {op}, queue := Remove(s.queue, op), log := s.log.Finished(op))
  }

  /** What the timeout callback does: a health check gives up the keepalive, the assembly becomes
      FAILED, and its recovery may tear the transport down, which ssh_timeout does not use again. */
  function GiveUp(s: Transport, op: OpId, r: Reaction): Transport {
    var gone, uses := Restarts(s, r), Restarts(s, r) || IsHealthcheck(s.made, op);
    s.(link := if gone && s.link.life != Freed then Cut(s.link.(node := Failed)) else s.link.(node := Failed),
       healthTimer := s.healthTimer && (s.link.life == Freed || !gone),
       keepalive := s.keepalive && (s.link.life == Freed || !uses),
       harm := Harm(s.harm.closed || (gone && s.link.life != Freed), s.harm.fault || (s.link.life == Freed && uses)))
  }

  /** ssh_timeout: flush everything, tell only the operation that timed out. */
  function Timeout(s: Transport, op: OpId, r: Reaction): Transport {
    GiveUp(Flush(s).(timers := Untimed(s.timers - {op}, s.queue), log := s.log.Flushed().Called(TimedOut(op))), op, r)
  }

  /** How an ssh_assembly_connect job ends: no session yet, waiting for an answer, startup refused, or
      the connection is up. */
  datatype Handshake = NoSession | Waits | Refused | Up

  /** Everything that can happen between two turns of the event loop. */
  datatype Event =
    | Execute                                                          // an action is submitted
    | Job(op: OpId, verdict: Verdict, failed: bool, rc: int, reaction: Reaction)
    | TimerFires(op: OpId, reaction: Reaction)
    | HealthFires
    | Teardown                                                         // cape_exit disconnects every assembly
    | Pending                                                          // the instance is polled for again
    | Connects                                                         // transport_connect
    | ConnectRuns(ok: bool)                                            // a connect_execute job
    | SessionRuns(step: Handshake)                                     // an ssh_assembly_connect job
    | Tick(ms: nat)

  /** Timers are ideal: time does not pass an armed deadline. Actions are submitted while the assembly
      is RUNNING. An instance is polled for, and a new transport made, once the old one is gone. A
      socket is connected once. */
  predicate Allowed(s: Transport, e: Event) {
    match e
    case Execute => s.link.node == Running
    case Job(op, v, _, _, _) => op in s.jobs && v != Abort
    case TimerFires(op, _) => op in s.timers && s.timers[op] <= s.now
    case HealthFires => s.healthTimer
    case Teardown => true
    case Pending => s.link.life == Freed
    case Connects => s.link.life == Freed
    case ConnectRuns(ok) => s.link.connectJobs > 0 && (ok ==> s.link.life in {Connecting, Freed})
    case SessionRuns(step) => s.link.sessionJob && (step == NoSession ==> s.link.life == Starting)
    case Tick(ms) => forall o :: o in s.timers ==> s.now + ms <= s.timers[o]
  }

  /** connect_execute: try again, or go on to the session. */
  function ConnectExecute(s: Transport, ok: bool): Transport
    requires s.link.connectJobs > 0
  {
    if s.link.life == Freed then Faulty(s)
    else if !ok then s
    else s.(link := Link(s.link.node, Starting, s.link.connectJobs - 1, true))
  }

  function Opened(s: Transport): Transport {
    s.(link := Link(Running, Connected, s.link.connectJobs, false), keepalive := true)
  }

  /** ssh_assembly_connect: once the connection is up the assembly is RUNNING and checked. */
  function SessionStep(s: Transport, step: Handshake): Transport {
    match step
    case NoSession => s
    case Waits => s.(link := s.link.(life := Opening))
    case Refused => s.(link := s.link.(life := Opening, sessionJob := false))
    case Up => Submit(Opened(s), Healthcheck)
  }

  function Step(s: Transport, e: Event): Transport
    requires Allowed(s, e)
  {
    match e
    case Execute => Submit(s, Action)
    case Job(op, v, failed, rc, r) =>
      var taken := s.(jobs := Remove(s.jobs, op));
      (match v
       case Repeat => taken.(jobs := taken.jobs + [op])
       case Complete => Complete(taken, op, failed, rc, r)
       case _ => taken)
    case TimerFires(op, r) => Timeout(s, op, r)
    case HealthFires => Submit(s.(healthTimer := false), Healthcheck)
    case Teardown => Disconnect(s)
    case Pending => s.(link := s.link.(node := Unknown))
    case Connects => s.(link := s.link.(life := Connecting, connectJobs := s.link.connectJobs + 1))
    case ConnectRuns(ok) => ConnectExecute(s, ok)
    case SessionRuns(step) => SessionStep(s, step)
    case Tick(ms) => s.(now := s.now + ms)
  }

  predicate PossibleRun(s: Transport, run: seq<Event>)
    decreases |run|
  {
    run == [] || (Allowed(s, run[0]) && PossibleRun(Step(s, run[0]), run[1..]))
  }

  function After(s: Transport, run: seq<Event>): Transport
    requires PossibleRun(s, run)
    decreases |run|
  {
    if run == [] then s else After(Step(s, run[0]), run[1..])
  }

  // ---- What holds between two turns of the loop ----

  /** The executor: scheduled exactly when something is queued, at most one job, for the head. */
  ghost predicate OneJob(s: Transport) {
    && (s.scheduled <==> s.queue != [])
    && (s.jobs == [] || (s.queue != [] && s.jobs == [s.queue[0]]))
  }

  /** Every queued operation, and nothing else, has an armed timeout that is not overdue. */
  ghost predicate AllTimed(now: int, queue: seq<OpId>, timers: map<OpId, int>, made: seq<Made>) {
    && (forall o :: o in timers <==> o in queue)
    && forall o :: o in timers ==> o < |made| && now <= timers[o] == made[o].at + SSH_TIMEOUT
  }

  /** First in, first out: what finished is a prefix of what was submitted since the last flush. */
  ghost predicate Fifo(finished: seq<OpId>, queue: seq<OpId>, submitted: seq<OpId>, next: OpId) {
    && finished + queue == submitted
    && (forall i, j :: 0 <= i < j < |submitted| ==> submitted[i] < submitted[j])
    && (forall i :: 0 <= i < |submitted| ==> submitted[i] < next)
  }

  /** No operation is called back twice, or while it is still queued. */
  ghost predicate CalledOnce(callbacks: seq<Callback>, queue: seq<OpId>, next: OpId) {
    && (forall i :: 0 <= i < |callbacks| ==> callbacks[i].op < next && callbacks[i].op !in queue)
    && (forall i, j :: 0 <= i < j < |callbacks| ==> callbacks[i].op != callbacks[j].op)
  }

  /** A health check is queued or its timer is armed, never both and never twice. */
  ghost predicate OneHealthcheck(queue: seq<OpId>, made: seq<Made>, timer: bool) {
    && (forall o, p :: o in queue && p in queue && IsHealthcheck(made, o) && IsHealthcheck(made, p) ==> o == p)
    && (timer ==> NoHealthcheck(queue, made))
  }

  ghost predicate NoHealthcheck(queue: seq<OpId>, made: seq<Made>) {
    forall o :: o in queue ==> !IsHealthcheck(made, o)
  }

  /** Nothing is queued and nothing timed. */
  ghost predicate Quiet(s: Transport) {
    s.queue == [] && s.jobs == [] && s.timers == map[] && !s.healthTimer && !s.keepalive
  }

  /** A transport that is gone is referred to by no job and no timer. */
  ghost predicate NothingLeft(s: Transport) {
    Quiet(s) && s.link.connectJobs == 0 && !s.link.sessionJob
  }

  /** What does not depend on the executor's job. */
  ghost predicate Core(s: Transport) {
    && AllTimed(s.now, s.queue, s.timers, s.made)
    && Fifo(s.log.finished, s.queue, s.log.submitted, |s.made|)
    && CalledOnce(s.log.callbacks, s.queue, |s.made|)
    && OneHealthcheck(s.queue, s.made, s.healthTimer)
    && (s.link.life != Connected ==> Quiet(s))
    && (s.link.sessionJob ==> s.link.life in {Starting, Opening})
    && (s.link.life == Connecting ==> s.link.connectJobs > 0)
    && !s.harm.fault
  }

  ghost predicate Inv(s: Transport) {
    Core(s) && OneJob(s)
  }

  /** Connecting submits the first health check. */
  const START := Submit(CONNECTED, Healthcheck)

  lemma StartIsGood()
    ensures Inv(START)
  {
  }

  /** What is queued was submitted, and the head is not queued twice. */
  lemma QueueFacts(finished: seq<OpId>, queue: seq<OpId>, submitted: seq<OpId>, next: OpId)
    requires Fifo(finished, queue, submitted, next)
    ensures forall o :: o in queue ==> o < next
    ensures queue != [] ==> queue[0] !in queue[1..]
  {
    forall i | 0 <= i < |queue|
      ensures queue[i] == submitted[|finished| + i]
    {
      assert (finished + queue)[|finished| + i] == queue[i];
    }
  }

  lemma TimersAfterSubmit(now: int, queue: seq<OpId>, timers: map<OpId, int>, made: seq<Made>, kind: Kind)
    requires AllTimed(now, queue, timers, made) && |made| !in queue
    ensures AllTimed(now, queue + [|made|], timers[|made| := now + SSH_TIMEOUT], made + [Made(kind, now)])
  {
  }

  lemma TimersAfterHead(now: int, queue: seq<OpId>, timers: map<OpId, int>, made: seq<Made>)
    requires AllTimed(now, queue, timers, made) && queue != [] && queue[0] !in queue[1..]
    ensures AllTimed(now, queue[1..], timers - {queue[0]}, made)
  {
    assert queue == [queue[0]] + queue[1..];
  }

  lemma SubmitKeepsCore(s: Transport, kind: Kind)
    requires Core(s) && s.link.life != Freed
    requires kind == Healthcheck ==> !s.healthTimer && NoHealthcheck(s.queue, s.made)
    ensures Core(Submit(s, kind))
  {
    QueueFacts(s.log.finished, s.queue, s.log.submitted, |s.made|);
    if s.link.life == Connected {
      var op, made := |s.made|, s.made + [Made(kind, s.now)];
      TimersAfterSubmit(s.now, s.queue, s.timers, s.made, kind);
      FifoAfterSubmit(s.log.finished, s.queue, s.log.submitted, op);
      assert CalledOnce(s.log.callbacks, s.queue + [op], |made|);
      HealthAfterSubmit(s.queue, s.made, s.healthTimer, Made(kind, s.now));
    }
  }

  lemma FifoAfterSubmit(finished: seq<OpId>, queue: seq<OpId>, submitted: seq<OpId>, op: OpId)
    requires Fifo(finished, queue, submitted, op)
    ensures Fifo(finished, queue + [op], submitted + [op], op + 1)
  {
    assert finished + (queue + [op]) == submitted + [op];
  }

  lemma HealthAfterSubmit(queue: seq<OpId>, made: seq<Made>, timer: bool, m: Made)
    requires OneHealthcheck(queue, made, timer) && forall o :: o in queue ==> o < |made|
    requires m.kind == Healthcheck ==> !timer && NoHealthcheck(queue, made)
    ensures OneHealthcheck(queue + [|made|], made + [m], timer)
  {
    assert forall o :: o in queue ==> IsHealthcheck(made + [m], o) == IsHealthcheck(made, o);
  }

  lemma SubmitKeeps(s: Transport, kind: Kind)
    requires Inv(s) && s.link.life != Freed
    requires kind == Healthcheck ==> !s.healthTimer && NoHealthcheck(s.queue, s.made)
    ensures Inv(Submit(s, kind))
  {
    SubmitKeepsCore(s, kind);
  }

  /** Submitting from a callback only appends: the executor reschedules afterwards. */
  lemma {:induction false} NestedSubmitsKeep(s: Transport, n: nat)
    requires Core(s) && s.scheduled && s.jobs == [] && s.link.life != Freed
    ensures var s' := SubmitActions(s, n);
            Core(s') && s'.scheduled && s'.jobs == [] && s'.link.life == s.link.life
  {
    if n > 0 {
      NestedSubmitsKeep(s, n - 1);
      SubmitKeepsCore(SubmitActions(s, n - 1), Action);
    }
  }

  lemma {:induction false} UntimedEmpties(timers: map<OpId, int>, q: seq<OpId>)
    requires forall o :: o in timers ==> o in q
    ensures Untimed(timers, q) == map[]
    decreases |q|
  {
    if q == [] {
      assert timers == map[];
    } else {
      assert q == [q[0]] + q[1..];
      UntimedEmpties(timers - {q[0]}, q[1..]);
    }
  }

  lemma FlushKeeps(s: Transport)
    requires Core(s) && (s.jobs == [] || OneJob(s))
    ensures Inv(Flush(s)) && Flush(s).jobs == [] && Flush(s).timers == map[]
  {
    UntimedEmpties(s.timers, s.queue);
  }

  lemma DisconnectKeeps(s: Transport)
    requires Inv(s) && s.link.life != Freed
    ensures var s' := Disconnect(s);
            && Inv(s') && Quiet(s') && !s'.link.sessionJob && s'.link.life == Freed && s'.harm.closed
            && s'.link.connectJobs == ConnectJobsLeft(s.link)
  {
    FlushKeeps(s);
  }

  lemma HeadLeaves(s: Transport, op: OpId)
    requires Core(s) && s.queue != [] && op == s.queue[0]
    ensures Core(Unlinked(s, op)) && CalledOnce(s.log.callbacks, [op], |s.made|)
    ensures op !in Unlinked(s, op).queue
    ensures IsHealthcheck(s.made, op) ==> !s.healthTimer && NoHealthcheck(Unlinked(s, op).queue, s.made)
  {
    var rest := s.queue[1..];
    QueueFacts(s.log.finished, s.queue, s.log.submitted, |s.made|);
    TimersAfterHead(s.now, s.queue, s.timers, s.made);
    assert s.queue == [op] + rest;
    assert (s.log.finished + [op]) + rest == s.log.submitted;
    assert Fifo(s.log.finished + [op], rest, s.log.submitted, |s.made|);
    assert forall o :: o in rest ==> o in s.queue;
    assert CalledOnce(s.log.callbacks, rest, |s.made|);
  }

  lemma CallbackKeepsCore(s: Transport, cb: Callback)
    requires Core(s) && CalledOnce(s.log.callbacks, [cb.op], |s.made|) && cb.op !in s.queue && cb.op < |s.made|
    ensures Core(s.(log := s.log.Called(cb)))
  {
  }

  /** A job that completes its operation, when the callback leaves the transport alone. */
  lemma CompleteKeeps(s: Transport, op: OpId, failed: bool, rc: int, r: Reaction)
    requires Core(s) && s.scheduled && s.jobs == [] && s.queue != [] && op == s.queue[0]
    requires failed || !TearsDown(s, op, rc, r)
    ensures Inv(Complete(s, op, failed, rc, r))
  {
    QueueFacts(s.log.finished, s.queue, s.log.submitted, |s.made|);
    HeadLeaves(s, op);
    var off := Unlinked(s, op);
    if !failed {
      CallbackKeepsCore(off, Completed(op, rc));
      var told := off.(log := off.log.Called(Completed(op, rc)));
      ReactKeeps(told, op, rc, r);
    }
  }

  lemma ReactKeeps(s: Transport, op: OpId, rc: int, r: Reaction)
    requires Core(s) && s.scheduled && s.jobs == [] && s.link.life == Connected && !TearsDown(s, op, rc, r)
    requires IsHealthcheck(s.made, op) ==> NoHealthcheck(s.queue, s.made)
    ensures var s' := React(s, op, rc, r); Core(s') && s'.scheduled && s'.jobs == [] && s'.link.life == Connected
  {
    if !IsHealthcheck(s.made, op) {
      NestedSubmitsKeep(s, r.more);
    }
  }

  lemma TimeoutKeeps(s: Transport, op: OpId, r: Reaction)
    requires Inv(s) && op in s.timers
    ensures Inv(Timeout(s, op, r))
  {
    QueueFacts(s.log.finished, s.queue, s.log.submitted, |s.made|);
    assert op in s.queue;
    FlushKeeps(s);
    UntimedEmpties(s.timers - {op}, s.queue);
    assert CalledOnce(s.log.callbacks, [op], |s.made|);
    CallbackKeepsCore(Flush(s), TimedOut(op));
  }

  /** A failed health check whose recovery restarts the node frees the transport under the executor. */
  predicate FreesOwnTransport(s: Transport, e: Event) {
    e.Job? && e.verdict == Verdict.Complete && !e.failed && TearsDown(s, e.op, e.rc, e.reaction)
  }

  /** The assembly's transport is gone and no new one has been made, but it is used. */
  predicate UsesFreedTransport(s: Transport, e: Event) {
    s.link.life == Freed && (e.Execute? || e.Teardown? || e.ConnectRuns?)
  }

  predicate GoesWrong(s: Transport, e: Event) {
    FreesOwnTransport(s, e) || UsesFreedTransport(s, e)
  }

  lemma JobKeeps(s: Transport, op: OpId, v: Verdict, failed: bool, rc: int, r: Reaction)
    requires var e := Job(op, v, failed, rc, r); Inv(s) && Allowed(s, e) && !FreesOwnTransport(s, e)
    ensures Inv(Step(s, Job(op, v, failed, rc, r)))
  {
    assert s.jobs == [op] && Remove(s.jobs, op) == [];
    if v == Verdict.Complete {
      CompleteKeeps(s.(jobs := Remove(s.jobs, op)), op, failed, rc, r);
    }
  }

  /** The steps towards a connection. */
  lemma ConnectingKeeps(s: Transport, e: Event)
    requires Inv(s) && Allowed(s, e) && !GoesWrong(s, e) && (e.Pending? || e.Connects? || e.ConnectRuns? || e.SessionRuns?)
    ensures Inv(Step(s, e))
  {
    if e == SessionRuns(Up) {
      SubmitKeeps(Opened(s), Healthcheck);
    }
  }

  lemma StepKeeps(s: Transport, e: Event)
    requires Inv(s) && Allowed(s, e) && !GoesWrong(s, e)
    ensures Inv(Step(s, e))
  {
    match e
    case Execute => SubmitKeeps(s, Action);
    case Job(op, v, failed, rc, r) => JobKeeps(s, op, v, failed, rc, r);
    case TimerFires(op, r) => TimeoutKeeps(s, op, r);
    case HealthFires => SubmitKeeps(s.(healthTimer := false), Healthcheck);
    case Teardown => DisconnectKeeps(s);
    case Tick(ms) =>
    case _ => ConnectingKeeps(s, e);
  }

  // ---- Whole runs ----

  /** No event of the run frees the transport from under its own executor or uses a freed one. */
  predicate Careful(s: Transport, run: seq<Event>)
    requires PossibleRun(s, run)
    decreases |run|
  {
    run == [] || (!GoesWrong(s, run[0]) && Careful(Step(s, run[0]), run[1..]))
  }

  lemma {:induction false} RunKeeps(s: Transport, run: seq<Event>)
    requires Inv(s) && PossibleRun(s, run) && Careful(s, run)
    ensures Inv(After(s, run))
    decreases |run|
  {
    if run != [] {
      StepKeeps(s, run[0]);
      RunKeeps(Step(s, run[0]), run[1..]);
    }
  }

  /** What a caller may rely on after every turn of every run. */
  lemma EveryTurn(run: seq<Event>)
    requires PossibleRun(START, run) && Careful(START, run)
    ensures var s := After(START, run);
            && (s.scheduled <==> s.queue != [])
            && |s.jobs| <= 1
            && (forall o :: o in s.jobs ==> s.queue != [] && o == s.queue[0])
            && (forall o :: o in s.queue ==> o in s.timers && o < |s.made| && s.now <= s.timers[o] == s.made[o].at + SSH_TIMEOUT)
            && (forall o :: o in s.timers ==> o in s.queue)
  {
    StartIsGood();
    RunKeeps(START, run);
    var s := After(START, run);
    assert s.jobs == [] || s.jobs == [s.queue[0]];
  }

  /** Each operation is called back at most once, and since the last flush operations finish in
      the order they were submitted. */
  lemma CallbacksAndOrder(run: seq<Event>)
    requires PossibleRun(START, run) && Careful(START, run)
    ensures var s := After(START, run);
            && (forall i, j :: 0 <= i < j < |s.log.callbacks| ==> s.log.callbacks[i].op != s.log.callbacks[j].op)
            && (forall i :: 0 <= i < |s.log.callbacks| ==> s.log.callbacks[i].op !in s.queue)
            && s.log.finished <= s.log.submitted
            && s.queue == s.log.submitted[|s.log.finished|..]
  {
    StartIsGood();
    RunKeeps(START, run);
  }

  /** Disconnecting from outside an executor step leaves no operation, no timer and no executor or
      session job behind, and nothing at all exactly when no connect_execute job remains. */
  lemma TeardownLeavesNothing(run: seq<Event>)
    requires PossibleRun(START, run) && Careful(START, run) && After(START, run).link.life != Freed
    ensures var s := After(START, run); var s' := Disconnect(s);
            && Quiet(s') && !s'.link.sessionJob && s'.link.life == Freed && !s'.harm.fault
            && (NothingLeft(s') <==> ConnectJobsLeft(s.link) == 0)
            && (s.link.life == Connecting ==> !NothingLeft(s'))
  {
    StartIsGood();
    RunKeeps(START, run);
    DisconnectKeeps(After(START, run));
  }

  // ---- Runs before the daemon exits ----

  predicate NoExit(run: seq<Event>) {
    Teardown !in run
  }

  /** An assembly is RUNNING only on a connected transport, and only one that is being connected has a
      connect_execute job. */
  ghost predicate Patient(s: Transport) {
    PatientLink(s.link)
  }

  lemma {:induction false} SubmitsLeave(s: Transport, n: nat)
    ensures var s' := SubmitActions(s, n);
            s'.link == s.link && s'.harm.closed == s.harm.closed
  {
    if n > 0 {
      SubmitsLeave(s, n - 1);
    }
  }

  /** What a completion callback makes of the connection. */
  function LinkAfter(s: Transport, op: OpId, rc: int, r: Reaction): Link {
    var failed := s.link.(node := Failed);
    if !IsHealthcheck(s.made, op) || rc == 0 then s.link
    else if Restarts(s, r) && s.link.life != Freed then Cut(failed)
    else failed
  }

  lemma ReactLink(s: Transport, op: OpId, rc: int, r: Reaction)
    ensures var s' := React(s, op, rc, r);
            && s'.link == LinkAfter(s, op, rc, r)
            && (s'.harm.closed <==> s.harm.closed || (TearsDown(s, op, rc, r) && s.link.life != Freed))
  {
    SubmitsLeave(s, r.more);
  }

  lemma CompleteLink(s: Transport, op: OpId, failed: bool, rc: int, r: Reaction)
    ensures var s' := Complete(s, op, failed, rc, r);
            && s'.link == (if failed then s.link else LinkAfter(s, op, rc, r))
            && (s'.harm.closed <==> s.harm.closed || (!failed && TearsDown(s, op, rc, r) && s.link.life != Freed))
  {
    var off := Unlinked(s, op);
    ReactLink(off.(log := off.log.Called(Completed(op, rc))), op, rc, r);
  }

  /** A patient connection, whatever is queued on it. */
  ghost predicate PatientLink(l: Link) {
    && (l.node == Running ==> l.life == Connected)
    && l.connectJobs == (if l.life == Connecting then 1 else 0)
    && (l.sessionJob ==> l.life in {Starting, Opening})
  }

  lemma StepPatient(s: Transport, e: Event)
    requires Patient(s) && Inv(s) && Allowed(s, e) && e != Teardown
    ensures Patient(Step(s, e))
  {
    match e
    case Job(op, v, failed, rc, r) =>
      assert s.link.life == Connected;
      CompleteLink(s.(jobs := Remove(s.jobs, op)), op, failed, rc, r);
    case TimerFires(op, r) => assert s.link.life == Connected;
    case _ =>
  }

  predicate NeverFreesOwn(s: Transport, run: seq<Event>)
    requires PossibleRun(s, run)
    decreases |run|
  {
    run == [] || (!FreesOwnTransport(s, run[0]) && NeverFreesOwn(Step(s, run[0]), run[1..]))
  }

  lemma {:induction false} PatientRun(s: Transport, run: seq<Event>)
    requires Inv(s) && Patient(s) && PossibleRun(s, run) && NoExit(run)
    ensures Careful(s, run) <==> NeverFreesOwn(s, run)
    ensures Careful(s, run) ==> Inv(After(s, run)) && Patient(After(s, run))
    decreases |run|
  {
    if run != [] {
      assert !UsesFreedTransport(s, run[0]);
      if !FreesOwnTransport(s, run[0]) {
        StepPatient(s, run[0]);
        StepKeeps(s, run[0]);
        PatientRun(Step(s, run[0]), run[1..]);
      }
    }
  }

  /** Until the daemon exits, the failed health check is the one thing that goes wrong: actions reach
      only a connected transport, and disconnecting leaves nothing exactly when no socket is being
      connected. */
  lemma BeforeExit(run: seq<Event>)
    requires PossibleRun(START, run) && NoExit(run)
    ensures Careful(START, run) <==> NeverFreesOwn(START, run)
    ensures var s := After(START, run);
            Careful(START, run) ==>
              && (s.link.node == Running ==> s.link.life == Connected)
              && (s.link.life != Freed ==> (NothingLeft(Disconnect(s)) <==> s.link.life != Connecting))
  {
    StartIsGood();
    PatientRun(START, run);
    if Careful(START, run) && After(START, run).link.life != Freed {
      DisconnectKeeps(After(START, run));
    }
  }

  lemma {:induction false} SubmitsKeepFault(s: Transport, n: nat)
    requires s.harm.fault
    ensures SubmitActions(s, n).harm.fault
  {
    if n > 0 {
      SubmitsKeepFault(s, n - 1);
    }
  }

  lemma CompleteKeepsFault(s: Transport, op: OpId, failed: bool, rc: int, r: Reaction)
    requires s.harm.fault
    ensures Complete(s, op, failed, rc, r).harm.fault
  {
    var told := Unlinked(s, op).(log := s.log.Finished(op).Called(Completed(op, rc)));
    SubmitsKeepFault(told, r.more);
    assert React(told, op, rc, r).harm.fault;
  }

  lemma StepKeepsFault(s: Transport, e: Event)
    requires Allowed(s, e) && s.harm.fault
    ensures Step(s, e).harm.fault
  {
    match e
    case Job(op, v, failed, rc, r) =>
      if v == Verdict.Complete {
        CompleteKeepsFault(s.(jobs := Remove(s.jobs, op)), op, failed, rc, r);
      }
    case _ =>
  }

  lemma {:induction false} RunKeepsFault(s: Transport, run: seq<Event>)
    requires PossibleRun(s, run) && s.harm.fault
    ensures After(s, run).harm.fault
    decreases |run|
  {
    if run != [] {
      StepKeepsFault(s, run[0]);
      RunKeepsFault(Step(s, run[0]), run[1..]);
    }
  }

  lemma {:induction false} FaultExactly(s: Transport, run: seq<Event>)
    requires Inv(s) && PossibleRun(s, run)
    ensures !After(s, run).harm.fault <==> Careful(s, run)
    decreases |run|
  {
    if run != [] {
      if GoesWrong(s, run[0]) {
        assert Step(s, run[0]).harm.fault;
        RunKeepsFault(Step(s, run[0]), run[1..]);
      } else {
        StepKeeps(s, run[0]);
        FaultExactly(Step(s, run[0]), run[1..]);
      }
    }
  }

  /** Apart from the close after the free, freed memory is used in exactly the runs in which a failed
      health check makes recovery restart the node, or a transport that is gone is given an action,
      torn down again or connected by a job it left behind. */
  lemma NoFaultIffCareful(run: seq<Event>)
    requires PossibleRun(START, run)
    ensures !After(START, run).harm.fault <==> Careful(START, run)
  {
    StartIsGood();
    FaultExactly(START, run);
  }

  /** The event disconnects a transport that is there. */
  predicate Disconnects(s: Transport, e: Event) {
    && s.link.life != Freed
    && match e
       case Teardown => true
       case Job(op, v, failed, rc, r) => v == Verdict.Complete && !failed && TearsDown(s, op, rc, r)
       case TimerFires(_, r) => Restarts(s, r)
       case _ => false
  }

  predicate NeverDisconnects(s: Transport, run: seq<Event>)
    requires PossibleRun(s, run)
    decreases |run|
  {
    run == [] || (!Disconnects(s, run[0]) && NeverDisconnects(Step(s, run[0]), run[1..]))
  }

  lemma StepCloses(s: Transport, e: Event)
    requires Allowed(s, e)
    ensures Step(s, e).harm.closed <==> s.harm.closed || Disconnects(s, e)
  {
    match e
    case Job(op, v, failed, rc, r) => CompleteLink(s.(jobs := Remove(s.jobs, op)), op, failed, rc, r);
    case _ =>
  }

  lemma {:induction false} RunCloses(s: Transport, run: seq<Event>)
    requires PossibleRun(s, run)
    ensures After(s, run).harm.closed <==> s.harm.closed || !NeverDisconnects(s, run)
    decreases |run|
  {
    if run != [] {
      StepCloses(s, run[0]);
      RunCloses(Step(s, run[0]), run[1..]);
    }
  }

  /** Every disconnect, the first one too, closes the descriptor of the transport it has just freed: in
      every run that memory is read exactly when some event disconnects a transport. */
  lemma EveryDisconnectReadsFreed(run: seq<Event>)
    requires PossibleRun(START, run)
    ensures After(START, run).harm.closed <==> !NeverDisconnects(START, run)
  {
    RunCloses(START, run);
  }

  lemma FirstTeardownReadsFreed()
    ensures PossibleRun(START, [Teardown]) && After(START, [Teardown]).harm.closed && Careful(START, [Teardown])
  {
    assert [Teardown][1..] == [];
  }

  /** Such a run exists: the first health check answers with a failure. */
  lemma FailedHealthcheckFaults()
    ensures var run := [Job(0, Verdict.Complete, false, 1, Reaction(0, true))];
            PossibleRun(START, run) && After(START, run).harm.fault
  {
  }

  /** Another: the node was restarted and the daemon exits before the new instance is up. */
  lemma SecondTeardownFaults()
    ensures var run := [Tick(5000), TimerFires(0, Reaction(0, true)), Teardown];
            PossibleRun(START, run) && After(START, run).harm.fault
  {
    var run := [Tick(5000), TimerFires(0, Reaction(0, true)), Teardown];
    assert run[1..] == [TimerFires(0, Reaction(0, true)), Teardown];
    assert run[1..][1..] == [Teardown];
  }

  /** Another, in the last turn of the loop: the daemon has disconnected, but the assembly is still
      RUNNING. */
  lemma ExecuteAfterTeardownFaults()
    ensures PossibleRun(START, [Teardown, Execute]) && After(START, [Teardown, Execute]).harm.fault
  {
    assert [Teardown, Execute][1..] == [Execute];
  }

  /** Another: it has disconnected a transport whose socket was being connected. */
  lemma ConnectJobFaults()
    ensures var run := [TimerFires(0, Reaction(0, true)), Connects, Teardown, ConnectRuns(false)];
            var s := Step(START, Tick(5000));
            PossibleRun(s, run) && After(s, run).harm.fault
  {
    var run := [TimerFires(0, Reaction(0, true)), Connects, Teardown, ConnectRuns(false)];
    assert run[1..] == [Connects, Teardown, ConnectRuns(false)];
    assert run[1..][1..] == [Teardown, ConnectRuns(false)];
    assert run[1..][1..][1..] == [ConnectRuns(false)];
  }
}

/** The same transport as the source keeps it: fields updated in place. */
module SshTransport {
  import SshExec
  import opened RecoverStates
  import opened SshQueue

  class TransSsh {
    var now: int
    var link: Link
    var ops: seq<OpId>
    var scheduled: bool
    var jobs: seq<OpId>
    var timers: map<OpId, int>
    var healthTimer: bool
    var keepalive: bool
    var made: seq<Made>
    ghost var log: Log
    ghost var harm: Harm

    ghost function View(): Transport
      reads this
    {
      Transport(now, link, ops, scheduled, jobs, timers, healthTimer, keepalive, made, log, harm)
    }

    /** A connection that has just been authenticated submits its first health check. */
    constructor ()
      ensures View() == START
    {
      now, link := 0, Link(Running, Connected, 0, false);
      ops, scheduled, jobs, timers := [], false, [], map[];
      healthTimer, keepalive, made := false, true, [];
      log, harm := Log([], [], []), Harm(false, false);
      new;
      TransportExecute(Healthcheck);
    }

    method TransportSchedule()
      modifies `scheduled, `jobs
      ensures scheduled == (ops != [])
      ensures jobs == if ops == [] then old(jobs) else old(jobs) + [ops[0]]
    {
      if |ops| != 0 {
        scheduled := true;
        jobs := jobs + [ops[0]];
      } else {
        scheduled := false;
      }
    }

    method TransportUnschedule()
      modifies `scheduled, `jobs
      ensures !scheduled
      ensures jobs == if old(scheduled) && ops != [] then Remove(old(jobs), ops[0]) else old(jobs)
    {
      if scheduled {
        scheduled := false;
        if |ops| != 0 {
          jobs := Remove(jobs, ops[0]);
        }
      }
    }

    /** transport_execute on a transport that is up. */
    method Enqueue(kind: Kind)
      modifies `ops, `scheduled, `jobs, `timers, `made, `log
      ensures View() == Append(old(View()), kind)
    {
      var op := |made|;
      made := made + [Made(kind, now)];
      log := log.Submitted(op);
      ops := ops + [op];
      if !scheduled {
        TransportSchedule();
      }
      timers := timers[op := now + SSH_TIMEOUT];
    }

    method TransportExecute(kind: Kind)
      modifies `ops, `scheduled, `jobs, `timers, `made, `log, `harm
      ensures View() == Submit(old(View()), kind)
    {
      harm := harm.(fault := harm.fault || link.life == Freed);
      if link.life == Connected {
        Enqueue(kind);
      }
    }

    /** What ssh_timeout and transport_disconnect share: unschedule, then unlink every queued
        operation and delete its timer. */
    method FlushQueue()
      modifies `ops, `scheduled, `jobs, `timers, `log
      ensures View() == Flush(old(View()))
    {
      TransportUnschedule();
      DropAll();
    }

    method DropAll()
      modifies `ops, `timers, `log
      ensures ops == [] && log == old(log).Flushed()
      ensures timers == Untimed(old(timers), old(ops))
    {
      while |ops| != 0
        invariant log == old(log) && Untimed(timers, ops) == Untimed(old(timers), old(ops))
        decreases |ops|
      {
        timers := timers - {ops[0]};
        ops := ops[1..];
      }
      log := log.Flushed();
    }

    method TransportDisconnect()
      modifies `link, `ops, `scheduled, `jobs, `timers, `healthTimer, `keepalive, `log, `harm
      ensures View() == Disconnect(old(View()))
    {
      if link.life == Freed {
        harm := harm.(fault := true);
        return;
      }
      FlushQueue();
      healthTimer, keepalive := false, false;
      if link.life == Starting && link.connectJobs > 0 {
        link := link.(connectJobs := link.connectJobs - 1);
      }
      link := link.(sessionJob := false);
      link := link.(life := Freed);
      harm := harm.(closed := true);
    }

    /** recover_state_set of the assembly to FAILED, with what its policy decides. */
    method NodeFails(restarts: bool)
      modifies this
      ensures var s := old(View()).(link := old(View()).link.(node := Failed));
              View() == if old(link.node) != Failed && restarts then Disconnect(s) else s
    {
      if link.node == Failed {
        return;
      }
      link := link.(node := Failed);
      if restarts {
        TransportDisconnect();
      }
    }

    /** The completion callbacks: resource_action_completion and assembly_healthcheck_completion. */
    method Completion(op: OpId, rc: int, r: Reaction)
      modifies this
      ensures View() == React(old(View()), op, rc, r)
    {
      if !IsHealthcheck(made, op) {
        var i := 0;
        while i < r.more
          invariant i <= r.more && View() == SubmitActions(old(View()), i)
        {
          TransportExecute(Action);
          i := i + 1;
        }
      } else if rc != 0 {
        keepalive := false;
        NodeFails(r.restarts);
      } else if link.node == Running {
        healthTimer := true;
      }
    }

    /** qb_list_del: unlink one operation wherever it is in the list. */
    method Unlink(op: OpId)
      modifies this`ops
      ensures ops == Remove(old(ops), op)
    {
      var before, rest := [], ops;
      while |rest| != 0 && rest[0] != op
        invariant before + rest == ops && before + Remove(rest, op) == Remove(ops, op)
      {
        assert Remove(rest, op) == [rest[0]] + Remove(rest[1..], op);
        before, rest := before + [rest[0]], rest[1..];
      }
      ops := before + if |rest| == 0 then [] else rest[1..];
    }

    method SshOpComplete(op: OpId, failed: bool, rc: int, r: Reaction)
      modifies this
      ensures var off := Unlinked(old(View()), op);
              View() == if failed then off
                        else React(off.(log := off.log.Called(Completed(op, rc))), op, rc, r)
    {
      timers := timers - {op};
      Unlink(op);
      log := log.Finished(op);
      if !failed {
        log := log.Called(Completed(op, rc));
        Completion(op, rc, r);
      }
    }

    /** An executor job whose switch ended with `verdict`. */
    method AssemblySshExec(op: OpId, verdict: SshExec.Verdict, failed: bool, rc: int, r: Reaction)
      requires Allowed(View(), Job(op, verdict, failed, rc, r))
      modifies this
      ensures View() == Step(old(View()), Job(op, verdict, failed, rc, r))
    {
      jobs := Remove(jobs, op);
      match verdict
      case Repeat => jobs := jobs + [op];
      case Complete => FinishJob(op, failed, rc, r);
      case _ =>
    }

    /** The end of the executor: complete the operation, then schedule the next one. Scheduling
        a transport the callback has freed is the fault. */
    method FinishJob(op: OpId, failed: bool, rc: int, r: Reaction)
      modifies this
      ensures View() == Complete(old(View()), op, failed, rc, r)
    {
      SshOpComplete(op, failed, rc, r);
      if link.life != Freed {
        TransportSchedule();
      } else {
        harm := harm.(fault := true);
      }
    }

    /** transport_failed: stop sending keepalives. */
    method TransportFailed()
      modifies `keepalive, `harm
      ensures keepalive == (old(keepalive) && link.life == Freed)
      ensures harm == old(harm).(fault := old(harm.fault) || link.life == Freed)
    {
      if link.life == Freed {
        harm := harm.(fault := true);
      } else {
        keepalive := false;
      }
    }

    method SshTimeout(op: OpId, r: Reaction)
      requires op in timers
      modifies this
      ensures View() == Timeout(old(View()), op, r)
    {
      timers := timers - {op};
      FlushQueue();
      log := log.Called(TimedOut(op));
      TimeoutCallback(op, r);
    }

    /** assembly_healthcheck_timeout or resource_action_timeout, on a queue that has been flushed. */
    method TimeoutCallback(op: OpId, r: Reaction)
      requires ops == [] && !scheduled && log.Flushed() == log
      modifies this
      ensures View() == GiveUp(old(View()), op, r)
    {
      if IsHealthcheck(made, op) {
        TransportFailed();
      }
      NodeFails(r.restarts);
    }

    /** transport_connect: the assembly's reference leads to a new transport. */
    method TransportConnect()
      requires link.life == Freed
      modifies `link
      ensures View() == Step(old(View()), Connects)
    {
      link := link.(life := Connecting);
      link := link.(connectJobs := link.connectJobs + 1);
    }

    /** connect_execute; `ok` says whether connect() succeeded. */
    method ConnectJob(ok: bool)
      requires Allowed(View(), ConnectRuns(ok))
      modifies `link, `harm
      ensures View() == Step(old(View()), ConnectRuns(ok))
    {
      if link.life == Freed {
        harm := harm.(fault := true);
        return;
      }
      link := link.(connectJobs := link.connectJobs - 1);
      if ok {
        link := link.(life := Starting, sessionJob := true);
      } else {
        link := link.(connectJobs := link.connectJobs + 1);
      }
    }

    /** ssh_assembly_connect: the switch falls through from the state it is in until something has to be
        waited for. */
    method SessionConnect(step: Handshake)
      requires Allowed(View(), SessionRuns(step)) && link.life in {Starting, Opening}
      modifies this
      ensures View() == Step(old(View()), SessionRuns(step))
    {
      if link.life == Starting {
        if step == NoSession {
          return;
        }
        link := link.(life := Opening);
      }
      match step
      case Waits =>
      case Refused => link := link.(sessionJob := false);
      case Up => SessionUp();
    }

    method SessionUp()
      requires link.life == Opening
      modifies this
      ensures View() == Submit(Opened(old(View())), Healthcheck)
    {
      link := link.(sessionJob := false);
      keepalive := true;
      link := link.(life := Connected);
      link := link.(node := Running);
      TransportExecute(Healthcheck);
    }

    method AssemblyHealthcheck()
      requires healthTimer
      modifies this
      ensures View() == Step(old(View()), HealthFires)
    {
      healthTimer := false;
      TransportExecute(Healthcheck);
    }
  }
}
