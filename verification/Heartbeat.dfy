/**
  Failure detection by heartbeat: a node is failed when its heartbeats skip a sequence number or
  come too late, and lateness is noticed by a check every four seconds.
 */
module Heartbeat {
  import opened Options
  import opened RecoverStates
  import opened Escalation
  import Recover

  const TWO_32 := 0x1_0000_0000
  const LATE := 20_000_000      // HEALTHCHECK_TIMEOUT, in microseconds
  const PERIOD := 4_000_000     // between two checks

  datatype Beats = Init | NotReceived | Ok | SeqBad

  /** A GTimer: still running, or stopped at `end`. */
  datatype Watch = Watch(start: int, end: Option<int>) {
    function Elapsed(now: int): int {
      (if end.None? then now else end.value) - start
    }
  }

  datatype Object = Resources | Services | Host

  /** Not in the program: when RUNNING was entered, when a heartbeat last came in, accepted or not,
      and when the node was last restarted. */
  datatype History = History(entered: int, heard: int, restarted: int)

  datatype Node = Node(
    now: int,                // microseconds
    beats: Beats,            // _hb_state
    lastSequence: nat,       // uint32_t
    lastHeartbeat: Watch,
    recovery: Recovery,
    timers: map<nat, int>,   // armed heartbeat_check_tmo timers and when they fire
    handle: nat,             // healthcheck_timer
    made: nat,
    connected: set<Object>,
    history: History)

  const BORN := Node(0, Init, 0, Watch(0, None), INITIAL, map[], 0, 0, {}, History(0, 0, 0))

  /** The check of the sequence number, in 32-bit arithmetic. */
  predicate Gap(last: nat, sequence: nat) {
    sequence > (last + 1) % TWO_32
  }

  /** heartbeat_recv. */
  function Recv(n: Node, sequence: nat): Node {
    if n.beats != Ok then
      n.(lastSequence := sequence, beats := Ok, lastHeartbeat := Watch(n.now, None))
    else if Gap(n.lastSequence, sequence) then n.(beats := SeqBad)
    else if n.lastHeartbeat.(end := Some(n.now)).Elapsed(n.now) > LATE then
      n.(lastSequence := sequence, beats := NotReceived,
         lastHeartbeat := n.lastHeartbeat.(end := Some(n.now)))
    else n.(lastSequence := sequence, lastHeartbeat := Watch(n.now, None))
  }

  function AddTimer(n: Node): Node {
    n.(timers := n.timers[n.made := n.now + PERIOD], handle := n.made, made := n.made + 1)
  }

  /** transport_disconnect and state_online_to_offline, called when the node is restarted. */
  function Disconnect(n: Node): Node {
    n.(timers := n.timers - {n.handle}, connected := {}, beats := Init,
       history := n.history.(restarted := n.now))
  }

  function Fail(p: Policy, n: Node): Node {
    var (recovery, decision) := SetState(p, n.recovery, Failed, n.now);
    var m := n.(recovery := recovery);
    if decision == Restart then Disconnect(m) else m
  }

  predicate Ready(n: Node) {
    n.beats == Ok && n.connected == {Resources, Services, Host}
  }

  function Enter(p: Policy, n: Node): Node {
    AddTimer(n.(recovery := SetState(p, n.recovery, Running, n.now).0,
                history := n.history.(entered := n.now)))
  }

  /** The first half of check_state on a running node: a heartbeat that is late. */
  function Judge(n: Node): Node {
    if n.beats == Ok && n.lastHeartbeat.Elapsed(n.now) > LATE then n.(beats := NotReceived) else n
  }

  /** check_state. */
  function Checked(p: Policy, n: Node): Node {
    if n.recovery.state == Running then
      var m := Judge(n);
      if m.beats != Ok then Fail(p, m) else m
    else if Ready(n) then Enter(p, n)
    else n
  }

  /** heartbeat_check_tmo. */
  function CheckTimer(p: Policy, n: Node, t: nat): Node {
    var m := Checked(p, n.(timers := n.timers - {t}));
    if m.recovery.state == Running then AddTimer(m) else m
  }

  /** host_event_handler. */
  function HostEvent(p: Policy, n: Node, sequence: nat): Node {
    Checked(p, Recv(n.(history := n.history.(heard := n.now)), sequence))
  }

  datatype Event =
    | Tick(to: int)
    | Beat(sequence: nat)
    | Connects(o: Object)
    | AgentGone(o: Object)
    | TimerFires(t: nat)
    | InstanceLost          // instance_state_completion without an active instance

  /** Time never passes an armed timer. */
  predicate Possible(n: Node, e: Event) {
    match e
    case Tick(to) => n.now <= to && forall t :: t in n.timers ==> to <= n.timers[t]
    case Beat(sequence) => sequence < TWO_32
    case Connects(o) => o !in n.connected
    case AgentGone(o) => o in n.connected
    case TimerFires(t) => t in n.timers && n.timers[t] == n.now
    case InstanceLost => true
  }

  function Step(p: Policy, n: Node, e: Event): Node
    requires Possible(n, e)
  {
    match e
    case Tick(to) => n.(now := to)
    case Beat(sequence) => HostEvent(p, n, sequence)
    case Connects(o) => Checked(p, n.(connected := n.connected + {o}))
    case AgentGone(o) => n.(connected := n.connected - {o})
    case TimerFires(t) => CheckTimer(p, n, t)
    case InstanceLost => n.(recovery := SetState(p, n.recovery, Unknown, n.now).0)
  }

  // ---- Invariant ----

  function Deadline(h: History): int {
    var byBeat, byEntry := h.heard + LATE + PERIOD, h.entered + PERIOD;
    if byBeat > byEntry then byBeat else byEntry
  }

  /** A check will come in time. */
  ghost predicate Watched(n: Node) {
    exists t :: t in n.timers && n.timers[t] <= Deadline(n.history)
  }

  ghost predicate TimersGood(n: Node) {
    forall t :: t in n.timers ==> t < n.made && n.now <= n.timers[t] <= n.now + PERIOD
  }

  ghost predicate BeatsGood(n: Node) {
    && n.lastSequence < TWO_32
    && (n.beats == Ok ==> n.lastHeartbeat == Watch(n.history.heard, None) && n.history.restarted <= n.history.heard <= n.now)
  }

  ghost predicate Inv(n: Node) {
    && TimersGood(n)
    && BeatsGood(n)
    && n.history.entered <= n.now && n.history.heard <= n.now && n.history.restarted <= n.now
    && (n.recovery.state == Running ==> n.beats == Ok && Watched(n))
  }

  /** Inside a handler a running node may have bad beats until check_state has looked at them. */
  ghost predicate Loose(n: Node) {
    && TimersGood(n)
    && BeatsGood(n)
    && n.history.entered <= n.now && n.history.heard <= n.now && n.history.restarted <= n.now
    && (n.recovery.state == Running && n.beats == Ok && n.now <= n.history.heard + LATE ==> Watched(n))
  }

  lemma EnterKeeps(p: Policy, n: Node)
    requires Loose(n) && n.beats == Ok
    ensures Inv(Enter(p, n))
  {
    assert Enter(p, n).timers[n.made] == n.now + PERIOD;
  }

  lemma CheckStateKeeps(p: Policy, n: Node)
    requires Loose(n)
    ensures Inv(Checked(p, n))
  {
    if n.recovery.state != Running && Ready(n) {
      EnterKeeps(p, n);
    }
  }

  lemma AddTimerKeeps(n: Node)
    requires Inv(n)
    ensures Inv(AddTimer(n))
  {
    if Watched(n) {
      var t :| t in n.timers && n.timers[t] <= Deadline(n.history);
      assert AddTimer(n).timers[t] == n.timers[t];
    }
  }

  lemma CheckTimerKeeps(p: Policy, n: Node, t: nat)
    requires Inv(n) && t in n.timers
    ensures Inv(CheckTimer(p, n, t))
  {
    var m := n.(timers := n.timers - {t});
    if n.recovery.state == Running && n.now <= n.history.heard + LATE {
      assert Checked(p, m) == m;
      assert AddTimer(m).timers[m.made] <= Deadline(m.history);
    } else {
      CheckStateKeeps(p, m);
      AddTimerKeeps(Checked(p, m));
    }
  }

  lemma RecvKeeps(n: Node, sequence: nat)
    requires Inv(n) && sequence < TWO_32
    ensures Loose(Recv(n.(history := n.history.(heard := n.now)), sequence))
  {
  }

  lemma StepKeeps(p: Policy, n: Node, e: Event)
    requires Inv(n) && Possible(n, e)
    ensures Inv(Step(p, n, e))
  {
    match e
    case Beat(sequence) =>
      RecvKeeps(n, sequence);
      CheckStateKeeps(p, Recv(n.(history := n.history.(heard := n.now)), sequence));
    case Connects(o) => CheckStateKeeps(p, n.(connected := n.connected + {o}));
    case TimerFires(t) => CheckTimerKeeps(p, n, t);
    case _ =>
  }

  // ---- Whole runs ----

  predicate PossibleRun(p: Policy, n: Node, run: seq<Event>)
    decreases |run|
  {
    run == [] || (Possible(n, run[0]) && PossibleRun(p, Step(p, n, run[0]), run[1..]))
  }

  function After(p: Policy, n: Node, run: seq<Event>): Node
    requires PossibleRun(p, n, run)
    decreases |run|
  {
    if run == [] then n else After(p, Step(p, n, run[0]), run[1..])
  }

  lemma {:induction false} RunKeeps(p: Policy, n: Node, run: seq<Event>)
    requires Inv(n) && PossibleRun(p, n, run)
    ensures Inv(After(p, n, run))
    decreases |run|
  {
    if run != [] {
      StepKeeps(p, n, run[0]);
      RunKeeps(p, Step(p, n, run[0]), run[1..]);
    }
  }

  /** In every run, under every policy: a node that is RUNNING has good heartbeats and a check timer;
      the heartbeat it relies on came in after its last restart; and it has not been silent for more
      than 24 seconds, unless it entered RUNNING less than 4 seconds ago. */
  lemma SilenceIsNoticed(p: Policy, run: seq<Event>)
    requires PossibleRun(p, BORN, run)
    ensures var n := After(p, BORN, run);
            n.recovery.state == Running ==>
              && n.beats == Ok && n.timers.Keys != {}
              && n.history.restarted <= n.history.heard
              && (n.now <= n.history.heard + 24_000_000 || n.now <= n.history.entered + 4_000_000)
  {
    RunKeeps(p, BORN, run);
    var n := After(p, BORN, run);
    if n.recovery.state == Running {
      var t :| t in n.timers && n.timers[t] <= Deadline(n.history);
      assert t in n.timers.Keys;
    }
  }

  lemma {:induction false} Extend(p: Policy, run: seq<Event>, n: Node, e: Event) returns (run': seq<Event>, n': Node)
    requires PossibleRun(p, n, run) && Possible(After(p, n, run), e)
    ensures run' == run + [e] && PossibleRun(p, n, run')
    ensures n' == Step(p, After(p, n, run), e) == After(p, n, run')
    decreases |run|
  {
    run', n' := run + [e], Step(p, After(p, n, run), e);
    if run == [] {
      assert run'[1..] == [];
    } else {
      var r, m := Extend(p, run[1..], Step(p, n, run[0]), e);
      assert run'[1..] == r;
    }
  }

  lemma Found(p: Policy) returns (run: seq<Event>)
    ensures PossibleRun(p, BORN, run) && After(p, BORN, run) == BORN.(connected := {Resources, Services, Host})
  {
    var n;
    run, n := Extend(p, [], BORN, Connects(Resources));
    run, n := Extend(p, run, BORN, Connects(Services));
    run, n := Extend(p, run, BORN, Connects(Host));
    assert n.connected == {Resources, Services, Host};
  }

  /** A node that is heard once, just as it enters RUNNING, after `checks` checks. */
  function Silent(checks: nat): Node {
    Node(checks * 4_000_000, Ok, 0, Watch(0, None), Recovery(Running, []),
         map[checks := checks * 4_000_000 + 4_000_000], checks, checks + 1,
         {Resources, Services, Host}, History(0, 0, 0))
  }

  lemma {:induction false} SilentFor(p: Policy, checks: nat) returns (run: seq<Event>)
    requires checks <= 5
    ensures PossibleRun(p, BORN, run) && After(p, BORN, run) == Silent(checks)
  {
    var n;
    if checks == 0 {
      run := Found(p);
      run, n := Extend(p, run, BORN, Beat(0));
    } else {
      run := SilentFor(p, checks - 1);
      run, n := Extend(p, run, BORN, Tick(checks * 4_000_000));
      run, n := Extend(p, run, BORN, TimerFires(checks - 1));
      assert n.timers == Silent(checks).timers;
    }
  }

  /** The 24 seconds are reached: no smaller bound holds of every run. */
  lemma BoundIsReached(p: Policy) returns (run: seq<Event>)
    ensures PossibleRun(p, BORN, run)
    ensures var n := After(p, BORN, run);
            n.recovery.state == Running && n.history.heard == 0 && n.now == 24_000_000
  {
    run := SilentFor(p, 5);
    var n;
    run, n := Extend(p, run, BORN, Tick(24_000_000));
  }

  /** A running node fails at an event exactly when that event is a heartbeat that skips a number, or
      it makes the node look at its clock and the last heartbeat is more than 20 seconds old. */
  lemma FailsExactly(p: Policy, n: Node, e: Event)
    requires Inv(n) && n.recovery.state == Running && Possible(n, e)
    ensures Step(p, n, e).recovery.state == Failed <==>
            || (e.Beat? && Gap(n.lastSequence, e.sequence))
            || ((e.Beat? || e.Connects? || e.TimerFires?) && n.now > n.history.heard + 20_000_000)
    ensures !e.InstanceLost? && Step(p, n, e).recovery.state != Failed ==> Step(p, n, e).recovery == n.recovery
  {
  }

  /** The events bring heartbeats numbered from `next` on, the instance stays, and whenever the node
      looks at its clock the last heartbeat is no more than 20 seconds old. */
  predicate Healthy(now: int, heard: int, next: nat, run: seq<Event>)
    decreases |run|
  {
    run == [] ||
    match run[0]
    case Tick(to) => Healthy(to, heard, next, run[1..])
    case Beat(sequence) => sequence == next && now <= heard + LATE && Healthy(now, now, (next + 1) % TWO_32, run[1..])
    case Connects(_) => now <= heard + LATE && Healthy(now, heard, next, run[1..])
    case TimerFires(_) => now <= heard + LATE && Healthy(now, heard, next, run[1..])
    case AgentGone(_) => Healthy(now, heard, next, run[1..])
    case InstanceLost => false
  }

  /** No false alarm: a node whose heartbeats keep coming in sequence and in time stays RUNNING. */
  lemma {:induction false} NoFalseAlarm(p: Policy, n: Node, run: seq<Event>)
    requires Inv(n) && n.recovery.state == Running && PossibleRun(p, n, run)
    requires Healthy(n.now, n.history.heard, (n.lastSequence + 1) % TWO_32, run)
    ensures After(p, n, run).recovery == n.recovery && After(p, n, run).history.entered == n.history.entered
    decreases |run|
  {
    if run != [] {
      StepKeeps(p, n, run[0]);
      NoFalseAlarm(p, Step(p, n, run[0]), run[1..]);
    }
  }

  /** A heartbeat as the run tells of it: when it came and its number. */
  datatype Heard = Heard(at: int, sequence: nat)

  /** Read off the events alone: the heartbeats are numbered one after the other, from any first number
      on, and whenever the node looks at its clock the last one is no more than 20 seconds old. */
  predicate Steady(now: int, last: Option<Heard>, run: seq<Event>)
    decreases |run|
  {
    run == [] ||
    var recent := last.Some? ==> now <= last.value.at + 20_000_000;
    match run[0]
    case Tick(to) => Steady(to, last, run[1..])
    case Beat(sequence) =>
      && recent && (last.Some? ==> sequence == (last.value.sequence + 1) % TWO_32)
      && Steady(now, Some(Heard(now, sequence)), run[1..])
    case Connects(_) => recent && Steady(now, last, run[1..])
    case TimerFires(_) => recent && Steady(now, last, run[1..])
    case AgentGone(_) => Steady(now, last, run[1..])
    case InstanceLost => Steady(now, last, run[1..])
  }

  ghost predicate Tracks(n: Node, last: Option<Heard>) {
    match last
    case None => n.beats != Ok
    case Some(h) => n.beats == Ok && n.lastSequence == h.sequence && n.history.heard == h.at
  }

  lemma {:induction false} SteadyRun(p: Policy, n: Node, last: Option<Heard>, run: seq<Event>)
    requires Inv(n) && Tracks(n, last) && PossibleRun(p, n, run) && Steady(n.now, last, run)
    ensures After(p, n, run).recovery.log == n.recovery.log
    ensures After(p, n, run).recovery.state == Failed ==> n.recovery.state == Failed
    decreases |run|
  {
    if run != [] {
      var e := run[0];
      StepKeeps(p, n, e);
      SteadyStep(p, n, last, e, run[1..]);
      SteadyRun(p, Step(p, n, e), if e.Beat? then Some(Heard(n.now, e.sequence)) else last, run[1..]);
    }
  }

  lemma SteadyStep(p: Policy, n: Node, last: Option<Heard>, e: Event, rest: seq<Event>)
    requires Inv(n) && Tracks(n, last) && Possible(n, e) && Steady(n.now, last, [e] + rest)
    ensures var m, now := Step(p, n, e), if e.Beat? then Some(Heard(n.now, e.sequence)) else last;
            && Tracks(m, now) && Steady(m.now, now, rest) && m.recovery.log == n.recovery.log
            && (m.recovery.state == Failed ==> n.recovery.state == Failed)
  {
    assert ([e] + rest)[1..] == rest;
  }

  /** Never a false alarm: whatever its first number is, a node whose heartbeats are numbered one after the
      other and come in time is never failed, through every run from the start. */
  lemma NeverFailedFalsely(p: Policy, run: seq<Event>)
    requires PossibleRun(p, BORN, run) && Steady(0, None, run)
    ensures After(p, BORN, run).recovery.state != Failed && After(p, BORN, run).recovery.log == []
  {
    SteadyRun(p, BORN, None, run);
  }

  /** The same after every restart: no further failure is counted. */
  lemma NotFailedAgain(p: Policy, n: Node, run: seq<Event>)
    requires Inv(n) && n.beats != Ok && PossibleRun(p, n, run) && Steady(n.now, None, run)
    ensures After(p, n, run).recovery.log == n.recovery.log
    ensures n.recovery.state != Failed ==> After(p, n, run).recovery.state != Failed
  {
    SteadyRun(p, n, None, run);
  }

  /** A node that is not running starts to run at an event exactly when that makes it look at its state, all
      three objects are connected then, and its heartbeats are good: a first one, or one in order and in
      time. */
  lemma RunsExactly(p: Policy, n: Node, e: Event)
    requires Inv(n) && n.recovery.state != Running && Possible(n, e)
    ensures var all := {Resources, Services, Host};
            Step(p, n, e).recovery.state == Running <==>
              match e
              case Beat(sequence) =>
                && n.connected == all
                && (n.beats != Ok || (!Gap(n.lastSequence, sequence) && n.now <= n.history.heard + 20_000_000))
              case Connects(o) => n.beats == Ok && n.connected + {o} == all
              case TimerFires(_) => n.beats == Ok && n.connected == all
              case _ => false
  {
  }

  /** The state after an event, in full: a lost instance is UNKNOWN, a running node fails and any other one
      runs as FailsExactly and RunsExactly say, and nothing else changes it. */
  lemma StateMoves(p: Policy, n: Node, e: Event)
    requires Inv(n) && Possible(n, e)
    ensures var was, now := n.recovery.state, Step(p, n, e).recovery.state;
            if e.InstanceLost? then now == Unknown
            else now == was || (was == Running && now == Failed) || (was != Running && now == Running)
    ensures e.Tick? || e.AgentGone? ==> Step(p, n, e).recovery == n.recovery
  {
  }

  /** The failure at this event restarts the node. */
  predicate RestartsAt(p: Policy, n: Node, e: Event)
    requires Possible(n, e)
  {
    && n.recovery.state == Running && Step(p, n, e).recovery.state == Failed
    && SetState(p, n.recovery, Failed, n.now).1 == Restart
  }

  /** The objects found and not lost since the last restart. */
  function FoundBy(p: Policy, n: Node, found: set<Object>, run: seq<Event>): set<Object>
    requires PossibleRun(p, n, run)
    decreases |run|
  {
    if run == [] then found
    else
      var e := run[0];
      var now := if RestartsAt(p, n, e) then {}
                 else match e
                      case Connects(o) => found + {o}
                      case AgentGone(o) => found - {o}
                      case _ => found;
      FoundBy(p, Step(p, n, e), now, run[1..])
  }

  lemma {:induction false} FoundReadOffRun(p: Policy, n: Node, run: seq<Event>)
    requires PossibleRun(p, n, run)
    ensures After(p, n, run).connected == FoundBy(p, n, n.connected, run)
    decreases |run|
  {
    if run != [] {
      FoundReadOffRun(p, Step(p, n, run[0]), run[1..]);
    }
  }

  // ---- The history, read off the run ----

  function Clock(now: int, run: seq<Event>): int
    decreases |run|
  {
    if run == [] then now else Clock(if run[0].Tick? then run[0].to else now, run[1..])
  }

  /** When the last heartbeat came. */
  function LastBeat(now: int, heard: int, run: seq<Event>): int
    decreases |run|
  {
    if run == [] then heard
    else LastBeat(if run[0].Tick? then run[0].to else now, if run[0].Beat? then now else heard, run[1..])
  }

  /** The number of the last heartbeat. */
  function LastNumber(number: nat, run: seq<Event>): nat
    decreases |run|
  {
    if run == [] then number else LastNumber(if run[0].Beat? then run[0].sequence else number, run[1..])
  }

  lemma {:induction false} NumberReadOffRun(p: Policy, n: Node, number: nat, run: seq<Event>)
    requires PossibleRun(p, n, run) && (n.beats == Ok ==> n.lastSequence == number)
    ensures After(p, n, run).beats == Ok ==> After(p, n, run).lastSequence == LastNumber(number, run)
    decreases |run|
  {
    if run != [] {
      StepNumber(p, n, run[0]);
      NumberReadOffRun(p, Step(p, n, run[0]), if run[0].Beat? then run[0].sequence else number, run[1..]);
    }
  }

  lemma StepNumber(p: Policy, n: Node, e: Event)
    requires Possible(n, e)
    ensures var m := Step(p, n, e);
            m.beats == Ok ==> if e.Beat? then m.lastSequence == e.sequence else n.beats == Ok && m.lastSequence == n.lastSequence
  {
  }

  /** In every run from the start, a RUNNING node is failed by a heartbeat exactly when its number is more
      than one after that of the heartbeat before it, in 32-bit arithmetic, or that one came more than 20
      seconds ago. */
  lemma FailsReadOffRun(p: Policy, run: seq<Event>, sequence: nat)
    requires PossibleRun(p, BORN, run) && After(p, BORN, run).recovery.state == Running && sequence < TWO_32
    ensures Step(p, After(p, BORN, run), Beat(sequence)).recovery.state == Failed <==>
            || sequence > (LastNumber(0, run) + 1) % TWO_32
            || Clock(0, run) > LastBeat(0, 0, run) + 20_000_000
  {
    RunKeeps(p, BORN, run);
    NumberReadOffRun(p, BORN, 0, run);
    HistoryReadOffRun(p, BORN, run);
    FailsExactly(p, After(p, BORN, run), Beat(sequence));
  }

  /** When the node last began to run. */
  function LastEntry(p: Policy, n: Node, entered: int, run: seq<Event>): int
    requires PossibleRun(p, n, run)
    decreases |run|
  {
    if run == [] then entered
    else
      var m := Step(p, n, run[0]);
      var begins := n.recovery.state != Running && m.recovery.state == Running;
      LastEntry(p, m, if begins then n.now else entered, run[1..])
  }

  lemma StepHistory(p: Policy, n: Node, e: Event)
    requires Possible(n, e)
    ensures var m := Step(p, n, e);
            && m.now == (if e.Tick? then e.to else n.now)
            && m.history.heard == (if e.Beat? then n.now else n.history.heard)
            && m.history.entered
               == (if n.recovery.state != Running && m.recovery.state == Running then n.now else n.history.entered)
  {
  }

  lemma {:induction false} HistoryReadOffRun(p: Policy, n: Node, run: seq<Event>)
    requires PossibleRun(p, n, run)
    ensures var m := After(p, n, run);
            && m.now == Clock(n.now, run) && m.history.heard == LastBeat(n.now, n.history.heard, run)
            && m.history.entered == LastEntry(p, n, n.history.entered, run)
    decreases |run|
  {
    if run != [] {
      StepHistory(p, n, run[0]);
      HistoryReadOffRun(p, Step(p, n, run[0]), run[1..]);
    }
  }

  /** In every run from the start, a RUNNING node was last heard no more than 24 seconds ago or began to run
      no more than 4 seconds ago, by the times of the events themselves. */
  lemma SilenceReadOffRun(p: Policy, run: seq<Event>)
    requires PossibleRun(p, BORN, run) && After(p, BORN, run).recovery.state == Running
    ensures || Clock(0, run) <= LastBeat(0, 0, run) + 24_000_000
            || Clock(0, run) <= LastEntry(p, BORN, 0, run) + 4_000_000
  {
    SilenceIsNoticed(p, run);
    HistoryReadOffRun(p, BORN, run);
  }

  /** A restart forgets the heartbeat and every connection, so the node runs again only once it has
      been heard again and all three objects have been found again; an escalation forgets nothing. */
  lemma RestartOrEscalate(p: Policy, n: Node, e: Event)
    requires Inv(n) && n.recovery.state == Running && Possible(n, e) && Step(p, n, e).recovery.state == Failed
    ensures var m := Step(p, n, e); var escalates := p.Enabled() && TooMany(p, n.recovery.log + [n.now]);
            && (escalates ==> m.recovery.log == [] && m.beats in {NotReceived, SeqBad} && n.connected <= m.connected)
            && (!escalates ==> m.beats == Init && m.connected == {} && m.handle !in m.timers && m.history.restarted == n.now)
  {
  }

  /** Of `skipped` lost heartbeats the next one tells, unless its number has wrapped round. */
  lemma SkipIsSeen(last: nat, skipped: nat)
    requires last < TWO_32 && 0 < skipped < TWO_32
    ensures Gap(last, (last + 1 + skipped) % TWO_32) <==> (last + 1) % TWO_32 + skipped < TWO_32
  {
  }

  /** A heartbeat in sequence is never a gap. */
  lemma NextIsNoGap(last: nat)
    requires last < TWO_32
    ensures !Gap(last, (last + 1) % TWO_32)
  {
  }

  // ---- The transport object ----

  class Matahari {
    const recover: Recover.Recover   // of the assembly
    var now: int
    var beats: Beats
    var lastSequence: nat
    var lastHeartbeat: Watch
    var timers: map<nat, int>
    var healthcheckTimer: nat
    var made: nat
    var connected: set<Object>
    ghost var history: History

    ghost predicate Valid()
      reads this, recover, recover.sw, if recover.sw != null then {recover.sw.ring} else {}
    {
      recover.Valid()
    }

    ghost function View(): Node
      reads this, recover, recover.sw
    {
      Node(now, beats, lastSequence, lastHeartbeat, recover.View(), timers, healthcheckTimer, made, connected, history)
    }

    constructor (failures: int, period: int)
      ensures Valid() && recover.policy == Policy(failures, period) && View() == BORN && fresh(recover)
    {
      recover := new Recover.Recover(failures, period);
      now, beats, lastSequence, lastHeartbeat := 0, Init, 0, Watch(0, None);
      timers, healthcheckTimer, made := map[], 0, 0;
      connected, history := {}, History(0, 0, 0);
    }

    method HeartbeatRecv(sequence: nat)
      modifies `beats, `lastSequence, `lastHeartbeat
      ensures View() == Recv(old(View()), sequence)
    {
      if beats != Ok {
        lastSequence, beats := sequence, Ok;
        lastHeartbeat := Watch(now, None);
        return;
      }
      if sequence > (lastSequence + 1) % TWO_32 {
        beats := SeqBad;
        return;
      }
      lastSequence := sequence;
      lastHeartbeat := lastHeartbeat.(end := Some(now));
      if lastHeartbeat.Elapsed(now) > LATE {
        beats := NotReceived;
        return;
      }
      lastHeartbeat := Watch(now, None);
    }

    method TimerAdd()
      modifies `timers, `healthcheckTimer, `made
      ensures View() == AddTimer(old(View()))
    {
      timers := timers[made := now + PERIOD];
      healthcheckTimer, made := made, made + 1;
    }

    method TransportDisconnect()
      modifies `timers, `connected, `beats, `history
      ensures View() == Disconnect(old(View()))
    {
      timers := timers - {healthcheckTimer};
      connected, beats := {}, Init;
      history := history.(restarted := now);
    }

    method RecoverFailed()
      requires Valid()
      modifies this, recover, recover.sw, if recover.sw != null then {recover.sw.ring} else {}
      ensures Valid() && recover.sw == old(recover.sw)
      ensures View() == Fail(recover.policy, old(View()))
    {
      var notified, decision := recover.StateSet(Failed, now);
      if decision == Restart {
        TransportDisconnect();
      }
    }

    method CheckState()
      requires Valid()
      modifies this, recover, recover.sw, if recover.sw != null then {recover.sw.ring} else {}
      ensures Valid() && recover.sw == old(recover.sw)
      ensures View() == Checked(recover.policy, old(View()))
    {
      if recover.state == Running {
        if beats == Ok && lastHeartbeat.Elapsed(now) > LATE {
          beats := NotReceived;
        }
        if beats != Ok {
          RecoverFailed();
        }
      } else if beats == Ok && connected == {Resources, Services, Host} {
        var notified, decision := recover.StateSet(Running, now);
        history := history.(entered := now);
        TimerAdd();
      }
    }

    method HeartbeatCheckTmo(t: nat)
      requires Valid() && t in timers
      modifies this, recover, recover.sw, if recover.sw != null then {recover.sw.ring} else {}
      ensures Valid() && recover.sw == old(recover.sw)
      ensures View() == CheckTimer(recover.policy, old(View()), t)
    {
      timers := timers - {t};
      CheckState();
      if recover.state == Running {
        TimerAdd();
      }
    }

    method ConnectionEventHandler(o: Object)
      requires Valid() && o !in connected
      modifies this, recover, recover.sw, if recover.sw != null then {recover.sw.ring} else {}
      ensures Valid() && recover.sw == old(recover.sw)
      ensures View() == Step(recover.policy, old(View()), Connects(o))
    {
      connected := connected + {o};
      CheckState();
    }

    method HostEventHandler(sequence: nat)
      requires Valid()
      modifies this, recover, recover.sw, if recover.sw != null then {recover.sw.ring} else {}
      ensures Valid() && recover.sw == old(recover.sw)
      ensures View() == HostEvent(recover.policy, old(View()), sequence)
    {
      history := history.(heard := now);
      HeartbeatRecv(sequence);
      CheckState();
    }
  }
}
