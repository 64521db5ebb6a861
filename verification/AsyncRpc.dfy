/**
  Asynchronous method calls over QMF: a request is raced by its reply and its timer, which share
  it by reference count.
 */
module AsyncRpc {
  import opened Options

  datatype JobState = Scheduled | Running | Completed

  datatype Result = Ok | Timeout | NotConnected | Cancelled | Exception

  type ReqId = nat   // requests in the order they are made
  type Cid = nat     // correlators

  /** A QmfAsyncRequest; it is deleted when `refs` reaches 0. */
  datatype Request = Request(
    state: JobState,
    refs: nat,
    armed: nat,               // timers of the loop that will run method_call_tmo on it
    responses: seq<Result>)   // what the response function was called with

  const NEW := Request(Scheduled, 1, 0, [])

  /** An object, its agent and their requests. */
  datatype Rpc = Rpc(
    reqs: seq<Request>,
    out: map<Cid, Option<ReqId>>,   // _outstanding_calls, which may hold null references
    pending: seq<ReqId>,            // _pending_jobs
    jobs: nat,                      // run_pending_calls jobs in the loop
    connected: bool,
    agent: bool,                    // the agent exists
    fault: bool)                    // a deleted request or a null reference was used

  const IDLE := Rpc([], map[], [], 0, false, false, false)

  function Put(s: Rpc, q: ReqId, r: Request): Rpc
    requires q < |s.reqs|
  {
    s.(reqs := s.reqs[q := r], fault := s.fault || s.reqs[q].refs == 0)
  }

  /** call_method_async, the reference taken for the timer, and the timer itself. */
  function Send(s: Rpc, q: ReqId, c: Cid): Rpc
    requires q < |s.reqs|
  {
    var r := s.reqs[q];
    Put(s, q, r.(state := Running, refs := r.refs + 1, armed := r.armed + 1)).(out := s.out[c := Some(q)])
  }

  /** QmfObject::method_call_async. */
  function Call(s: Rpc, c: Cid): Rpc {
    var q, made := |s.reqs|, s.(reqs := s.reqs + [NEW]);
    if s.connected then Send(made, q, c) else made.(pending := s.pending + [q])
  }

  /** The loop of run_pending_calls from position `i` on; without an agent it uses a null reference. */
  function RunPending(s: Rpc, i: nat, cs: seq<Cid>): Rpc
    requires InRange(s) && |cs| == |s.pending|
    decreases |s.pending| - i
  {
    if i >= |s.pending| then s
    else if !s.connected then s.(fault := true)
    else RunPending(Send(s, s.pending[i], cs[i]), i + 1, cs)
  }

  /** QmfObject::method_response. */
  function Respond(r: Request, x: Result): Request {
    r.(state := Completed, responses := r.responses + [x])
  }

  function Unref(r: Request): Request {
    r.(refs := if r.refs > 0 then r.refs - 1 else 0)
  }

  /** method_call_tmo. */
  function TimeOut(s: Rpc, q: ReqId): Rpc
    requires q < |s.reqs| && s.reqs[q].armed > 0
  {
    var r := s.reqs[q].(armed := s.reqs[q].armed - 1);
    Put(s, q, Unref(if r.state == Completed then r
                    else Respond(r, if r.state == Scheduled then NotConnected else Timeout)))
  }

  /** QmfAgent::process_event and QmfObject::process_event. */
  function Reply(s: Rpc, c: Cid, exception: bool): Rpc
    requires InRange(s)
  {
    if c in s.out && s.out[c].Some? then
      var q := s.out[c].value;
      var r := s.reqs[q];
      Put(s, q, Unref(if exception then Respond(r, Exception)
                      else if r.state == Running then Respond(r, Ok) else r)).(out := s.out - {c})
    else s.(out := s.out[c := None])
  }

  function Entries(out: map<Cid, Option<ReqId>>, q: ReqId): set<Cid> {
    set c | c in out && out[c] == Some(q)
  }

  function Cancel(r: Request, times: nat): Request {
    if times == 0 then r
    else r.(state := Completed, responses := r.responses + seq(times, i => Cancelled))
  }

  /** ~QmfAgent cancels what is outstanding and never drops the reference that the reply held. */
  ghost function AgentGone(s: Rpc): Rpc {
    s.(reqs := seq(|s.reqs|, q requires 0 <= q < |s.reqs| => Cancel(s.reqs[q], |Entries(s.out, q)|)),
       out := map[], connected := false, agent := false,
       fault := s.fault || exists c :: c in s.out && UnusableEntry(s, c))
  }

  predicate UnusableEntry(s: Rpc, c: Cid)
    requires c in s.out
  {
    s.out[c].None? || (s.out[c].value < |s.reqs| && s.reqs[s.out[c].value].refs == 0)
  }

  predicate InRange(s: Rpc) {
    && (forall k :: 0 <= k < |s.pending| ==> s.pending[k] < |s.reqs|)
    && (forall c :: c in s.out && s.out[c].Some? ==> s.out[c].value < |s.reqs|)
  }

  datatype Event =
    | Calls(c: Cid)
    | Connects
    | Disconnects                           // state_online_to_offline
    | PendingRuns(cs: seq<Cid>)
    | Replies(c: Cid, exception: bool)      // any correlator, known or not
    | TimerFires(q: ReqId)
    | AgentDeleted

  /** The library's correlators are fresh. */
  predicate Fresh(s: Rpc, c: Cid) {
    c in s.out ==> s.out[c].None?
  }

  predicate AllFresh(s: Rpc, cs: seq<Cid>) {
    && (forall i :: 0 <= i < |cs| ==> Fresh(s, cs[i]))
    && (forall i, j :: 0 <= i < j < |cs| ==> cs[i] != cs[j])
  }

  predicate Possible(s: Rpc, e: Event) {
    InRange(s) &&
    match e
    case Calls(c) => Fresh(s, c)
    case Connects => !s.connected
    case Disconnects => true
    case PendingRuns(cs) => s.jobs > 0 && |cs| == |s.pending| && AllFresh(s, cs)
    case Replies(_, _) => s.agent
    case TimerFires(q) => q < |s.reqs| && s.reqs[q].armed > 0
    case AgentDeleted => s.agent
  }

  ghost function Step(s: Rpc, e: Event): Rpc
    requires Possible(s, e)
  {
    match e
    case Calls(c) => Call(s, c)
    case Connects => s.(connected := true, agent := true, jobs := s.jobs + 1)
    case Disconnects => s.(connected := false)
    case PendingRuns(cs) => RunPending(s.(jobs := s.jobs - 1), 0, cs)
    case Replies(c, exception) => Reply(s, c, exception)
    case TimerFires(q) => TimeOut(s, q)
    case AgentDeleted => AgentGone(s)
  }

  // ---- The race ----

  ghost predicate Held(s: Rpc, q: ReqId) {
    exists c :: c in s.out && s.out[c] == Some(q)
  }

  /** Waiting to be sent; racing; or answered exactly once, with a reference for the reply while it is
      expected and one for the timer while it is armed. A cancelled request keeps the reply's. */
  ghost predicate ReqGood(r: Request, held: bool) {
    match r.state
    case Scheduled => r == NEW && !held
    case Running => r == Request(Running, 2, 1, []) && held
    case Completed =>
      && |r.responses| == 1
      && r.armed <= 1
      && r.refs == (if held || r.responses[0] == Cancelled then 1 else 0) + r.armed
      && (held ==> r.responses[0] == Timeout && r.armed == 0)
      && (r.armed == 1 ==> r.responses[0] in {Ok, Exception, Cancelled})
      && r.responses[0] != NotConnected
  }

  ghost predicate Inv(s: Rpc) {
    && InRange(s)
    && (forall q :: 0 <= q < |s.reqs| ==> ReqGood(s.reqs[q], Held(s, q)))
    && (forall c, d :: c in s.out && d in s.out && s.out[c] == s.out[d] && s.out[c].Some? ==> c == d)
    && (forall i, j :: 0 <= i < j < |s.pending| ==> s.pending[i] != s.pending[j])
    && (s.connected ==> s.agent)
    && (!s.agent ==> s.out == map[])
    && !s.fault
  }

  /** What the environment owes: an exception comes before the timer; the pending list is run while
      connected and before any of it was sent; when an agent goes, no request it still has was
      answered already, and it was never asked for an unknown correlator. */
  ghost predicate Contract(s: Rpc, e: Event)
    requires Possible(s, e)
  {
    match e
    case Replies(c, exception) => exception && c in s.out && s.out[c].Some? ==> s.reqs[s.out[c].value].state == Running
    case PendingRuns(_) => s.pending == [] || (s.connected && AllScheduled(s, 0))
    case AgentDeleted => forall c :: c in s.out ==> s.out[c].Some? && s.reqs[s.out[c].value].state == Running
    case _ => true
  }

  ghost predicate AllScheduled(s: Rpc, i: nat)
    requires InRange(s)
  {
    forall k :: i <= k < |s.pending| ==> s.reqs[s.pending[k]].state == Scheduled
  }

  lemma CallKeeps(s: Rpc, c: Cid)
    requires Inv(s) && Fresh(s, c)
    ensures Inv(Call(s, c))
  {
    var t := Call(s, c);
    forall q | 0 <= q < |t.reqs| ensures ReqGood(t.reqs[q], Held(t, q)) {
      if q < |s.reqs| {
        assert ReqGood(s.reqs[q], Held(s, q));
        HeldAfter(s, t, q);
      } else if s.connected {
        assert t.out[c] == Some(q);
      }
    }
  }

  /** Entries for `q` come and go only under correlators that changed. */
  lemma HeldAfter(s: Rpc, t: Rpc, q: ReqId)
    requires forall c :: c in s.out && s.out[c] == Some(q) ==> c in t.out && t.out[c] == Some(q)
    requires forall c :: c in t.out && t.out[c] == Some(q) ==> c in s.out && s.out[c] == Some(q)
    ensures Held(s, q) <==> Held(t, q)
  {
  }

  lemma SendKeeps(s: Rpc, q: ReqId, c: Cid)
    requires Inv(s) && s.connected && q < |s.reqs| && s.reqs[q].state == Scheduled && Fresh(s, c)
    ensures Inv(Send(s, q, c))
  {
    var t := Send(s, q, c);
    forall p | 0 <= p < |t.reqs| ensures ReqGood(t.reqs[p], Held(t, p)) {
      assert ReqGood(s.reqs[p], Held(s, p));
      if p == q {
        assert t.out[c] == Some(q);
      } else {
        HeldAfter(s, t, p);
      }
    }
    forall d, e | d in t.out && e in t.out && t.out[d] == t.out[e] && t.out[d].Some? ensures d == e {
      assert ReqGood(s.reqs[q], Held(s, q));
    }
  }

  /** Sending the first of the pending requests leaves the rest as they were. */
  lemma RestPending(s: Rpc, i: nat, cs: seq<Cid>)
    requires Inv(s) && s.connected && i < |s.pending| == |cs| && AllScheduled(s, i)
    requires forall k :: i <= k < |cs| ==> Fresh(s, cs[k])
    requires forall k, l :: 0 <= k < l < |cs| ==> cs[k] != cs[l]
    ensures var t := Send(s, s.pending[i], cs[i]);
            && Inv(t) && AllScheduled(t, i + 1) && t.reqs[s.pending[i]] == Request(Running, 2, 1, [])
            && forall k :: i + 1 <= k < |cs| ==> Fresh(t, cs[k])
  {
    assert ReqGood(s.reqs[s.pending[i]], Held(s, s.pending[i]));
    SendKeeps(s, s.pending[i], cs[i]);
  }

  lemma {:induction false} RunPendingKeeps(s: Rpc, i: nat, cs: seq<Cid>)
    requires Inv(s) && i <= |s.pending| == |cs| && (i < |s.pending| ==> s.connected)
    requires AllScheduled(s, i)
    requires forall k :: i <= k < |cs| ==> Fresh(s, cs[k])
    requires forall k, l :: 0 <= k < l < |cs| ==> cs[k] != cs[l]
    ensures Inv(RunPending(s, i, cs))
    decreases |s.pending| - i
  {
    if i < |s.pending| {
      RestPending(s, i, cs);
      RunPendingKeeps(Send(s, s.pending[i], cs[i]), i + 1, cs);
    }
  }

  lemma Erased(s: Rpc, t: Rpc, c: Cid, q: ReqId)
    requires Inv(s) && c in s.out && s.out[c] == Some(q) && t.out == s.out - {c}
    ensures !Held(t, q)
  {
  }

  lemma ReplyKeeps(s: Rpc, c: Cid, exception: bool)
    requires Inv(s) && s.agent
    requires exception && c in s.out && s.out[c].Some? ==> s.reqs[s.out[c].value].state == Running
    ensures Inv(Reply(s, c, exception))
  {
    var t := Reply(s, c, exception);
    forall p | 0 <= p < |t.reqs| ensures ReqGood(t.reqs[p], Held(t, p)) {
      assert ReqGood(s.reqs[p], Held(s, p));
      if c in s.out && s.out[c] == Some(p) {
        Erased(s, t, c, p);
      } else {
        HeldAfter(s, t, p);
      }
    }
  }

  lemma TimeOutKeeps(s: Rpc, q: ReqId)
    requires Inv(s) && q < |s.reqs| && s.reqs[q].armed > 0
    ensures Inv(TimeOut(s, q))
  {
  }

  /** A request has one entry or none. */
  lemma EntriesOf(s: Rpc, q: ReqId)
    requires Inv(s)
    ensures |Entries(s.out, q)| == if Held(s, q) then 1 else 0
  {
    if Held(s, q) {
      var c :| c in s.out && s.out[c] == Some(q);
      assert Entries(s.out, q) == {c};
    } else {
      assert Entries(s.out, q) == {};
    }
  }

  lemma AgentGoneKeeps(s: Rpc)
    requires Inv(s) && s.agent
    requires forall c :: c in s.out ==> s.out[c].Some? && s.reqs[s.out[c].value].state == Running
    ensures Inv(AgentGone(s))
  {
    var t := AgentGone(s);
    forall q | 0 <= q < |t.reqs| ensures ReqGood(t.reqs[q], Held(t, q)) {
      EntriesOf(s, q);
      assert ReqGood(s.reqs[q], Held(s, q));
    }
    forall c | c in s.out ensures !UnusableEntry(s, c) {
      assert ReqGood(s.reqs[s.out[c].value], Held(s, s.out[c].value));
    }
  }

  lemma StepKeeps(s: Rpc, e: Event)
    requires Inv(s) && Possible(s, e) && Contract(s, e)
    ensures Inv(Step(s, e))
  {
    match e
    case Calls(c) => CallKeeps(s, c);
    case Connects => HeldSame(s, Step(s, e));
    case Disconnects => HeldSame(s, Step(s, e));
    case PendingRuns(cs) =>
      var t := s.(jobs := s.jobs - 1);
      HeldSame(s, t);
      RunPendingKeeps(t, 0, cs);
    case Replies(c, exception) => ReplyKeeps(s, c, exception);
    case TimerFires(q) => TimeOutKeeps(s, q);
    case AgentDeleted => AgentGoneKeeps(s);
  }

  lemma HeldSame(s: Rpc, t: Rpc)
    requires s.out == t.out
    ensures forall q: ReqId :: Held(s, q) <==> Held(t, q)
  {
  }

  /** What the pending list is for: after a connection everything on it is racing, each request
      under its own correlator. */
  lemma {:induction false} PendingAreSent(s: Rpc, i: nat, cs: seq<Cid>, k: nat)
    requires Inv(s) && s.connected && i <= k < |s.pending| == |cs|
    requires AllScheduled(s, i)
    requires forall a :: i <= a < |cs| ==> Fresh(s, cs[a])
    requires forall a, b :: 0 <= a < b < |cs| ==> cs[a] != cs[b]
    ensures var t := RunPending(s, i, cs);
            && |t.reqs| == |s.reqs| && t.reqs[s.pending[k]] == Request(Running, 2, 1, [])
            && cs[k] in t.out && t.out[cs[k]] == Some(s.pending[k])
    decreases |s.pending| - i
  {
    var t := Send(s, s.pending[i], cs[i]);
    RestPending(s, i, cs);
    if i == k {
      RunPendingOthers(t, i + 1, cs, s.pending[k]);
      RunPendingEntries(t, i + 1, cs, cs[k]);
    } else {
      PendingAreSent(t, i + 1, cs, k);
    }
  }

  /** Entries under other correlators stay. */
  lemma {:induction false} RunPendingEntries(s: Rpc, i: nat, cs: seq<Cid>, c: Cid)
    requires InRange(s) && i <= |s.pending| == |cs| && c in s.out
    requires forall k :: i <= k < |cs| ==> cs[k] != c
    ensures c in RunPending(s, i, cs).out && RunPending(s, i, cs).out[c] == s.out[c]
    decreases |s.pending| - i
  {
    if i < |s.pending| && s.connected {
      RunPendingEntries(Send(s, s.pending[i], cs[i]), i + 1, cs, c);
    }
  }

  // ---- The contract is exact ----

  /** The rest of the pending list leaves a request alone that is not on it. */
  lemma {:induction false} RunPendingOthers(s: Rpc, i: nat, cs: seq<Cid>, q: ReqId)
    requires InRange(s) && i <= |s.pending| == |cs| && q < |s.reqs|
    requires forall k :: i <= k < |s.pending| ==> s.pending[k] != q
    ensures |RunPending(s, i, cs).reqs| == |s.reqs| && RunPending(s, i, cs).reqs[q] == s.reqs[q]
    decreases |s.pending| - i
  {
    if i < |s.pending| && s.connected {
      RunPendingOthers(Send(s, s.pending[i], cs[i]), i + 1, cs, q);
    }
  }

  /** Sending a request that was sent before leaves it in a state no single send explains. */
  lemma {:induction false} ResendBreaks(s: Rpc, i: nat, cs: seq<Cid>, k: nat)
    requires InRange(s) && s.connected && i <= k < |s.pending| == |cs|
    requires forall a, b :: 0 <= a < b < |s.pending| ==> s.pending[a] != s.pending[b]
    requires var r := s.reqs[s.pending[k]]; r.state != Scheduled && (ReqGood(r, true) || ReqGood(r, false))
    ensures !Inv(RunPending(s, i, cs))
    decreases |s.pending| - i
  {
    var t, q := Send(s, s.pending[i], cs[i]), s.pending[k];
    if i == k {
      RunPendingOthers(t, i + 1, cs, q);
      assert !ReqGood(t.reqs[q], Held(RunPending(t, i + 1, cs), q));
    } else {
      ResendBreaks(t, i + 1, cs, k);
    }
  }

  lemma PendingRunsBreak(s: Rpc, cs: seq<Cid>)
    requires Inv(s) && Possible(s, PendingRuns(cs)) && !Contract(s, PendingRuns(cs))
    ensures !Inv(Step(s, PendingRuns(cs)))
  {
    if s.connected {
      var k :| 0 <= k < |s.pending| && s.reqs[s.pending[k]].state != Scheduled;
      assert ReqGood(s.reqs[s.pending[k]], Held(s, s.pending[k]));
      ResendBreaks(s.(jobs := s.jobs - 1), 0, cs, k);
    }
  }

  lemma AgentGoneBreaks(s: Rpc, c: Cid)
    requires Inv(s) && c in s.out
    requires s.out[c].None? || s.reqs[s.out[c].value].state != Running
    ensures !Inv(AgentGone(s))
  {
    if s.out[c].None? {
      assert UnusableEntry(s, c);
    } else {
      var q := s.out[c].value;
      EntriesOf(s, q);
      assert ReqGood(s.reqs[q], true);
      assert |AgentGone(s).reqs[q].responses| == 2;
    }
  }

  /** An event keeps every request answered at most once and counted right, if and only if the
      environment kept its side. */
  lemma ContractIsExact(s: Rpc, e: Event)
    requires Inv(s) && Possible(s, e)
    ensures Contract(s, e) <==> Inv(Step(s, e))
  {
    if Contract(s, e) {
      StepKeeps(s, e);
    } else {
      match e
      case PendingRuns(cs) => PendingRunsBreak(s, cs);
      case Replies(c, _) =>
        var q := s.out[c].value;
        assert ReqGood(s.reqs[q], Held(s, q));
        assert |Step(s, e).reqs[q].responses| == 2;
      case AgentDeleted =>
        var c :| c in s.out && (s.out[c].None? || s.reqs[s.out[c].value].state != Running);
        AgentGoneBreaks(s, c);
    }
  }

  /** Running the pending list uses a deleted request exactly when one on it has been deleted: the
      list is never emptied, so a second connection runs it again. */
  lemma {:induction false} PendingFault(s: Rpc, i: nat, cs: seq<Cid>)
    requires InRange(s) && s.connected && i <= |s.pending| == |cs|
    requires forall a, b :: 0 <= a < b < |s.pending| ==> s.pending[a] != s.pending[b]
    ensures RunPending(s, i, cs).fault <==> s.fault || exists k :: i <= k < |s.pending| && s.reqs[s.pending[k]].refs == 0
    decreases |s.pending| - i
  {
    if i < |s.pending| {
      var t := Send(s, s.pending[i], cs[i]);
      PendingFault(t, i + 1, cs);
      assert forall k :: i < k < |s.pending| ==> t.reqs[s.pending[k]] == s.reqs[s.pending[k]];
    }
  }

  // ---- Whole runs ----

  ghost predicate PossibleRun(s: Rpc, run: seq<Event>)
    decreases |run|
  {
    run == [] || (Possible(s, run[0]) && PossibleRun(Step(s, run[0]), run[1..]))
  }

  ghost function After(s: Rpc, run: seq<Event>): Rpc
    requires PossibleRun(s, run)
    decreases |run|
  {
    if run == [] then s else After(Step(s, run[0]), run[1..])
  }

  ghost predicate ContractKept(s: Rpc, run: seq<Event>)
    requires PossibleRun(s, run)
    decreases |run|
  {
    run == [] || (Contract(s, run[0]) && ContractKept(Step(s, run[0]), run[1..]))
  }

  lemma {:induction false} RunKeeps(s: Rpc, run: seq<Event>)
    requires Inv(s) && PossibleRun(s, run) && ContractKept(s, run)
    ensures Inv(After(s, run))
    decreases |run|
  {
    if run != [] {
      StepKeeps(s, run[0]);
      RunKeeps(Step(s, run[0]), run[1..]);
    }
  }

  /** In every careful run: a request that was sent is answered exactly once by the time its timer has
      fired, and by then at the latest; it is deleted exactly when the reply and the timer have both
      let go of it, unless its agent went away first; and nothing deleted is ever used. */
  lemma OneResponse(run: seq<Event>, q: ReqId)
    requires PossibleRun(IDLE, run) && ContractKept(IDLE, run)
    requires q < |After(IDLE, run).reqs|
    ensures var s := After(IDLE, run); var r := s.reqs[q];
            && !s.fault
            && |r.responses| <= 1
            && (r.responses == [] <==> r.state == Scheduled || (Held(s, q) && r.armed == 1))
            && (r.state != Scheduled ==>
                 && (r.armed == 0 ==> |r.responses| == 1)
                 && (r.refs == 0 <==> !Held(s, q) && r.armed == 0 && r.responses != [Cancelled])
                 && (Held(s, q) && r.armed == 0 ==> r.responses == [Timeout])
                 && (!Held(s, q) && r.armed == 1 ==> r.responses in {[Ok], [Exception], [Cancelled]}))
  {
    RunKeeps(IDLE, run);
    var s := After(IDLE, run);
    assert ReqGood(s.reqs[q], Held(s, q));
    assert |s.reqs[q].responses| == 1 ==> s.reqs[q].responses == [s.reqs[q].responses[0]];
  }

  /** The race itself: in either order the request is answered by the first and deleted by the second. */
  lemma Race(s: Rpc, c: Cid, q: ReqId, exception: bool)
    requires Inv(s) && c in s.out && s.out[c] == Some(q) && s.reqs[q].state == Running
    ensures var t := Reply(s, c, exception);
            && t.reqs[q] == Request(Completed, 1, 1, [if exception then Exception else Ok])
            && TimeOut(t, q).reqs[q] == Request(Completed, 0, 0, [if exception then Exception else Ok])
            && !TimeOut(t, q).fault
    ensures var t := TimeOut(s, q);
            && t.reqs[q] == Request(Completed, 1, 0, [Timeout])
            && Reply(t, c, false).reqs[q] == Request(Completed, 0, 0, [Timeout])
            && Reply(t, c, true).reqs[q].responses == [Timeout, Exception]
            && !Reply(t, c, exception).fault
  {
  }

  // ---- From the call on ----

  /** A call while connected sends its request at once, under its correlator and with its timer; a call
      while not connected puts exactly that request on the pending list. Nothing else changes. */
  lemma CallSends(s: Rpc, c: Cid)
    ensures s.connected ==>
              Call(s, c) == s.(reqs := s.reqs + [Request(Running, 2, 1, [])], out := s.out[c := Some(|s.reqs|)])
    ensures !s.connected ==> Call(s, c) == s.(reqs := s.reqs + [NEW], pending := s.pending + [|s.reqs|])
  {
    assert (s.reqs + [NEW])[|s.reqs| := Request(Running, 2, 1, [])] == s.reqs + [Request(Running, 2, 1, [])];
  }

  lemma {:induction false} RunPendingSent(s: Rpc, i: nat, cs: seq<Cid>, q: ReqId)
    requires InRange(s) && |cs| == |s.pending| && q < |s.reqs| && s.reqs[q].state != Scheduled
    ensures |RunPending(s, i, cs).reqs| == |s.reqs| && RunPending(s, i, cs).reqs[q].state != Scheduled
    decreases |s.pending| - i
  {
    if i < |s.pending| && s.connected {
      RunPendingSent(Send(s, s.pending[i], cs[i]), i + 1, cs, q);
    }
  }

  /** A request that has been sent never waits again. */
  lemma StepSent(s: Rpc, e: Event, q: ReqId)
    requires Possible(s, e) && q < |s.reqs| && s.reqs[q].state != Scheduled
    ensures q < |Step(s, e).reqs| && Step(s, e).reqs[q].state != Scheduled
  {
    match e
    case Calls(c) => CallSends(s, c);
    case PendingRuns(cs) => RunPendingSent(s.(jobs := s.jobs - 1), 0, cs, q);
    case _ =>
  }

  lemma {:induction false} RunSent(s: Rpc, run: seq<Event>, q: ReqId)
    requires PossibleRun(s, run) && q < |s.reqs| && s.reqs[q].state != Scheduled
    ensures q < |After(s, run).reqs| && After(s, run).reqs[q].state != Scheduled
    decreases |run|
  {
    if run != [] {
      StepSent(s, run[0], q);
      RunSent(Step(s, run[0]), run[1..], q);
    }
  }

  /** A call made while connected, in any careful run: from then on its request is racing until it has been
      answered, it has been answered exactly once when its timer has fired, and it is deleted exactly when
      reply and timer have both let go of it, unless its agent went away. */
  lemma CallIsAnswered(before: seq<Event>, c: Cid, after: seq<Event>)
    requires PossibleRun(IDLE, before) && ContractKept(IDLE, before)
    requires After(IDLE, before).connected && Possible(After(IDLE, before), Calls(c))
    requires var s := Step(After(IDLE, before), Calls(c)); PossibleRun(s, after) && ContractKept(s, after)
    ensures var q := |After(IDLE, before).reqs|; var s := After(Step(After(IDLE, before), Calls(c)), after);
            && q < |s.reqs| && !s.fault
            && var r := s.reqs[q];
            && r.state != Scheduled && |r.responses| <= 1
            && (r.responses == [] <==> Held(s, q) && r.armed == 1)
            && (r.armed == 0 ==> |r.responses| == 1)
            && (r.refs == 0 <==> !Held(s, q) && r.armed == 0 && r.responses != [Cancelled])
  {
    RunKeeps(IDLE, before);
    var s := After(IDLE, before);
    var q, called := |s.reqs|, Step(s, Calls(c));
    StepKeeps(s, Calls(c));
    CallSends(s, c);
    RunSent(called, after, q);
    RunKeeps(called, after);
    var t := After(called, after);
    assert ReqGood(t.reqs[q], Held(t, q));
    assert |t.reqs[q].responses| == 1 ==> t.reqs[q].responses == [t.reqs[q].responses[0]];
  }

  function ConnectsLess(run: seq<Event>): int {
    if run == [] then 0
    else (if run[0].Connects? then 1 else if run[0].PendingRuns? then -1 else 0) + ConnectsLess(run[1..])
  }

  lemma {:induction false} RunPendingJobs(s: Rpc, i: nat, cs: seq<Cid>)
    requires InRange(s) && |cs| == |s.pending|
    ensures RunPending(s, i, cs).jobs == s.jobs && RunPending(s, i, cs).pending == s.pending
    decreases |s.pending| - i
  {
    if i < |s.pending| && s.connected {
      RunPendingJobs(Send(s, s.pending[i], cs[i]), i + 1, cs);
    }
  }

  /** Every connection runs the pending list once: the jobs that are to run it are the connections made, less
      the times it was run. */
  lemma {:induction false} OneRunPerConnection(s: Rpc, run: seq<Event>)
    requires PossibleRun(s, run)
    ensures After(s, run).jobs == s.jobs + ConnectsLess(run)
    decreases |run|
  {
    if run != [] {
      match run[0] {
        case PendingRuns(cs) => RunPendingJobs(s.(jobs := s.jobs - 1), 0, cs);
        case Calls(c) => CallSends(s, c);
        case _ =>
      }
      OneRunPerConnection(Step(s, run[0]), run[1..]);
    }
  }

  /** The connection is up after the run. */
  predicate Up(up: bool, run: seq<Event>)
    decreases |run|
  {
    if run == [] then up
    else Up(run[0].Connects? || (up && !run[0].Disconnects? && !run[0].AgentDeleted?), run[1..])
  }

  /** The agent exists after the run: it stays when the connection is lost. */
  predicate HasAgent(has: bool, run: seq<Event>)
    decreases |run|
  {
    if run == [] then has else HasAgent(run[0].Connects? || (has && !run[0].AgentDeleted?), run[1..])
  }

  lemma {:induction false} RunPendingLink(s: Rpc, i: nat, cs: seq<Cid>)
    requires InRange(s) && |cs| == |s.pending|
    ensures RunPending(s, i, cs).connected == s.connected && RunPending(s, i, cs).agent == s.agent
    decreases |s.pending| - i
  {
    if i < |s.pending| && s.connected {
      RunPendingLink(Send(s, s.pending[i], cs[i]), i + 1, cs);
    }
  }

  /** So whether a call is sent at once or waits is read off the events before it. */
  lemma {:induction false} ConnectedReadOffRun(s: Rpc, run: seq<Event>)
    requires PossibleRun(s, run)
    ensures After(s, run).connected == Up(s.connected, run) && After(s, run).agent == HasAgent(s.agent, run)
    decreases |run|
  {
    if run != [] {
      match run[0] {
        case PendingRuns(cs) => RunPendingLink(s.(jobs := s.jobs - 1), 0, cs);
        case Calls(c) => CallSends(s, c);
        case _ =>
      }
      ConnectedReadOffRun(Step(s, run[0]), run[1..]);
    }
  }

  // ---- A branch that no run takes ----

  ghost predicate Untimed(s: Rpc) {
    forall q :: 0 <= q < |s.reqs| ==>
      (s.reqs[q].state == Scheduled ==> s.reqs[q].armed == 0) && NotConnected !in s.reqs[q].responses
  }

  lemma {:induction false} RunPendingUntimed(s: Rpc, i: nat, cs: seq<Cid>)
    requires InRange(s) && |cs| == |s.pending| && Untimed(s)
    ensures Untimed(RunPending(s, i, cs))
    decreases |s.pending| - i
  {
    if i < |s.pending| && s.connected {
      RunPendingUntimed(Send(s, s.pending[i], cs[i]), i + 1, cs);
    }
  }

  lemma StepUntimed(s: Rpc, e: Event)
    requires Untimed(s) && Possible(s, e)
    ensures Untimed(Step(s, e))
  {
    match e
    case PendingRuns(cs) => RunPendingUntimed(s.(jobs := s.jobs - 1), 0, cs);
    case _ =>
  }

  lemma {:induction false} RunUntimed(s: Rpc, run: seq<Event>)
    requires Untimed(s) && PossibleRun(s, run)
    ensures Untimed(After(s, run))
    decreases |run|
  {
    if run != [] {
      StepUntimed(s, run[0]);
      RunUntimed(Step(s, run[0]), run[1..]);
    }
  }

  /** Whatever happens, nobody is ever told that a call was not connected: a request that waits for a
      connection has no timer. */
  lemma NeverNotConnected(run: seq<Event>, q: ReqId)
    requires PossibleRun(IDLE, run) && q < |After(IDLE, run).reqs|
    ensures NotConnected !in After(IDLE, run).reqs[q].responses
    ensures After(IDLE, run).reqs[q].state == Scheduled ==> After(IDLE, run).reqs[q].armed == 0
  {
    RunUntimed(IDLE, run);
  }

  // ---- Careless runs ----

  lemma {:induction false} Extend(s0: Rpc, run: seq<Event>, e: Event) returns (run': seq<Event>, s': Rpc)
    requires PossibleRun(s0, run) && Possible(After(s0, run), e)
    ensures run' == run + [e] && PossibleRun(s0, run')
    ensures s' == Step(After(s0, run), e) == After(s0, run')
    decreases |run|
  {
    run', s' := run + [e], Step(After(s0, run), e);
    if run == [] {
      assert run'[1..] == [];
    } else {
      var r, t := Extend(Step(s0, run[0]), run[1..], e);
      assert run'[1..] == r;
    }
  }

  lemma CalledThenConnected() returns (run: seq<Event>)
    ensures PossibleRun(IDLE, run) && After(IDLE, run) == Rpc([NEW], map[], [0], 1, true, true, false)
  {
    var s;
    run, s := Extend(IDLE, [], Calls(7));
    run, s := Extend(IDLE, run, Connects);
  }

  lemma SentLate() returns (run: seq<Event>)
    ensures PossibleRun(IDLE, run)
    ensures After(IDLE, run) == Rpc([Request(Running, 2, 1, [])], map[7 := Some(0)], [0], 0, true, true, false)
  {
    run := CalledThenConnected();
    var t := After(IDLE, run).(jobs := 0);
    var s;
    run, s := Extend(IDLE, run, PendingRuns([7]));
    var u := Send(t, 0, 7);
    assert RunPending(t, 0, [7]) == RunPending(u, 1, [7]) == u;
    assert u.reqs == [Request(Running, 2, 1, [])];
  }

  /** An exception after the timer is answered a second time. */
  lemma LateException() returns (run: seq<Event>)
    ensures PossibleRun(IDLE, run) && |After(IDLE, run).reqs| == 1
    ensures After(IDLE, run).reqs[0].responses == [Timeout, Exception]
  {
    run := SentLate();
    var s;
    run, s := Extend(IDLE, run, TimerFires(0));
    run, s := Extend(IDLE, run, Replies(7, true));
  }

  /** So is an agent that goes away after the timer. */
  lemma LateCancellation() returns (run: seq<Event>)
    ensures PossibleRun(IDLE, run) && |After(IDLE, run).reqs| == 1
    ensures After(IDLE, run).reqs[0].responses == [Timeout, Cancelled]
  {
    run := SentLate();
    var s;
    run, s := Extend(IDLE, run, TimerFires(0));
    assert s.reqs[0].responses == [Timeout] && s.out == map[7 := Some(0)];
    assert s.reqs[0] == Request(Completed, 1, 0, [Timeout]);
    assert Entries(s.out, 0) == {7};
    run, s := Extend(IDLE, run, AgentDeleted);
    assert s.reqs[0] == Cancel(Request(Completed, 1, 0, [Timeout]), 1);
  }

  lemma SentAndAnswered() returns (run: seq<Event>)
    ensures PossibleRun(IDLE, run)
    ensures After(IDLE, run) == Rpc([Request(Completed, 0, 0, [Ok])], map[], [0], 0, true, true, false)
  {
    run := SentLate();
    var s;
    run, s := Extend(IDLE, run, Replies(7, false));
    assert s.reqs[0].responses == [Ok] && s.out == map[];
    run, s := Extend(IDLE, run, TimerFires(0));
    assert s.reqs == [Request(Completed, 0, 0, [Ok])];
  }

  /** A second connection sends a deleted request. */
  lemma SecondConnection() returns (run: seq<Event>)
    ensures PossibleRun(IDLE, run) && After(IDLE, run).fault
  {
    run := SentAndAnswered();
    var s;
    run, s := Extend(IDLE, run, Disconnects);
    run, s := Extend(IDLE, run, Connects);
    assert s == Rpc([Request(Completed, 0, 0, [Ok])], map[], [0], 1, true, true, false);
    PendingFault(s.(jobs := 0), 0, [8]);
    run, s := Extend(IDLE, run, PendingRuns([8]));
  }

  /** A reply nobody asked for leaves a null reference that the agent's end trips over. */
  lemma UnknownCorrelator() returns (run: seq<Event>)
    ensures PossibleRun(IDLE, run) && After(IDLE, run).fault
  {
    var s;
    run, s := Extend(IDLE, [], Connects);
    run, s := Extend(IDLE, run, Replies(7, false));
    assert UnusableEntry(s, 7);
    run, s := Extend(IDLE, run, AgentDeleted);
  }

  // ---- The object and its agent ----

  function CancelOne(s: Rpc, c: Cid): Rpc
    requires c in s.out && (s.out[c].Some? ==> s.out[c].value < |s.reqs|)
  {
    if s.out[c].None? then s.(fault := true)
    else Put(s, s.out[c].value, Respond(s.reqs[s.out[c].value], Cancelled))
  }

  /** The destructor's loop after the entries in `done`. */
  ghost function CancelledBy(s: Rpc, done: set<Cid>): Rpc {
    s.(reqs := seq(|s.reqs|, q requires 0 <= q < |s.reqs| => Cancel(s.reqs[q], |Entries(s.out, q) * done|)),
       fault := s.fault || exists c :: c in done && c in s.out && UnusableEntry(s, c))
  }

  lemma CancelNone(s: Rpc)
    ensures CancelledBy(s, {}) == s
  {
  }

  lemma OneMoreEntry(out: map<Cid, Option<ReqId>>, done: set<Cid>, c: Cid, q: ReqId)
    requires c in out && c !in done
    ensures |Entries(out, q) * (done + {c})| == |Entries(out, q) * done| + if out[c] == Some(q) then 1 else 0
  {
    if out[c] == Some(q) {
      assert Entries(out, q) * (done + {c}) == Entries(out, q) * done + {c};
    } else {
      assert Entries(out, q) * (done + {c}) == Entries(out, q) * done;
    }
  }

  lemma CancelAgain(r: Request, n: nat)
    ensures Respond(Cancel(r, n), Cancelled) == Cancel(r, n + 1)
  {
  }

  lemma FaultMore(s: Rpc, done: set<Cid>, c: Cid)
    requires InRange(s) && c in s.out
    ensures CancelledBy(s, done + {c}).fault == CancelOne(CancelledBy(s, done), c).fault
  {
  }

  lemma RequestsMore(s: Rpc, done: set<Cid>, c: Cid, q: ReqId)
    requires InRange(s) && c in s.out && c !in done && q < |s.reqs|
    ensures CancelOne(CancelledBy(s, done), c).reqs[q] == CancelledBy(s, done + {c}).reqs[q]
  {
    OneMoreEntry(s.out, done, c, q);
    CancelAgain(s.reqs[q], |Entries(s.out, q) * done|);
  }

  /** One more entry cancels its request once more, and no other. */
  lemma CancelMore(s: Rpc, done: set<Cid>, c: Cid)
    requires InRange(s) && c in s.out && c !in done
    ensures CancelledBy(s, done + {c}) == CancelOne(CancelledBy(s, done), c)
  {
    var a, b := CancelOne(CancelledBy(s, done), c), CancelledBy(s, done + {c});
    forall q: ReqId | q < |s.reqs| ensures a.reqs[q] == b.reqs[q] {
      RequestsMore(s, done, c, q);
    }
    assert a.reqs == b.reqs;
    FaultMore(s, done, c);
  }

  lemma MoveOne(left: set<Cid>, done: set<Cid>, all: set<Cid>, c: Cid)
    requires left !! done && left + done == all && c in left
    ensures c in all && c !in done && left - {c} !! done + {c} && (left - {c}) + (done + {c}) == all
  {
  }

  /** The destructor's loop has cancelled `done` and still has `left` to do. */
  ghost predicate Cancelling(s: Rpc, v: Rpc, left: set<Cid>, done: set<Cid>) {
    InRange(s) && left !! done && left + done == s.out.Keys && v == CancelledBy(s, done)
  }

  lemma CancelNext(s: Rpc, v: Rpc, left: set<Cid>, done: set<Cid>, c: Cid)
    requires Cancelling(s, v, left, done) && c in left
    ensures c in v.out && (v.out[c].Some? ==> v.out[c].value < |v.reqs|)
    ensures Cancelling(s, CancelOne(v, c), left - {c}, done + {c})
  {
    MoveOne(left, done, s.out.Keys, c);
    CancelMore(s, done, c);
  }

  lemma CancelAll(s: Rpc, done: set<Cid>)
    requires done == s.out.Keys
    ensures CancelledBy(s, done).(out := map[], connected := false, agent := false) == AgentGone(s)
  {
    forall q | 0 <= q < |s.reqs| ensures CancelledBy(s, done).reqs[q] == AgentGone(s).reqs[q] {
      assert Entries(s.out, q) * done == Entries(s.out, q);
    }
    assert CancelledBy(s, done).reqs == AgentGone(s).reqs;
  }

  class QmfObject {
    var reqs: seq<Request>
    var outstanding: map<Cid, Option<ReqId>>
    var pendingJobs: seq<ReqId>
    var jobs: nat
    var connected: bool
    var agent: bool
    var fault: bool

    constructor ()
      ensures View() == IDLE
    {
      reqs, outstanding, pendingJobs, jobs := [], map[], [], 0;
      connected, agent, fault := false, false, false;
    }

    ghost function View(): Rpc
      reads this
    {
      Rpc(reqs, outstanding, pendingJobs, jobs, connected, agent, fault)
    }

    /** Every access to a request goes through here. */
    method Update(q: ReqId, r: Request)
      requires q < |reqs|
      modifies `reqs, `fault
      ensures View() == Put(old(View()), q, r)
    {
      if reqs[q].refs == 0 {
        fault := true;
      }
      reqs := reqs[q := r];
    }

    method CallMethodAsync(q: ReqId, c: Cid)
      requires q < |reqs|
      modifies `reqs, `fault, `outstanding
      ensures View() == Send(old(View()), q, c)
    {
      outstanding := outstanding[c := Some(q)];
      var r := reqs[q];
      Update(q, r.(state := Running, refs := r.refs + 1, armed := r.armed + 1));
    }

    method MethodCallAsync(c: Cid)
      modifies `reqs, `fault, `outstanding, `pendingJobs
      ensures View() == Call(old(View()), c)
    {
      var q := |reqs|;
      reqs := reqs + [NEW];
      if connected {
        CallMethodAsync(q, c);
      } else {
        pendingJobs := pendingJobs + [q];
      }
    }

    method RunPendingCalls(cs: seq<Cid>)
      requires jobs > 0 && InRange(View()) && |cs| == |pendingJobs|
      modifies `reqs, `fault, `outstanding, `jobs
      ensures View() == RunPending(old(View()).(jobs := old(jobs) - 1), 0, cs)
    {
      jobs := jobs - 1;
      var i := 0;
      while i < |pendingJobs|
        invariant 0 <= i <= |pendingJobs| && InRange(View())
        invariant RunPending(View(), i, cs) == RunPending(old(View()).(jobs := old(jobs) - 1), 0, cs)
      {
        if !connected {
          fault := true;
          return;
        }
        CallMethodAsync(pendingJobs[i], cs[i]);
        i := i + 1;
      }
    }

    method MethodCallTmo(q: ReqId)
      requires q < |reqs| && reqs[q].armed > 0
      modifies `reqs, `fault
      ensures View() == TimeOut(old(View()), q)
    {
      var r := reqs[q].(armed := reqs[q].armed - 1);
      if r.state != Completed {
        if r.state == Scheduled {
          r := Respond(r, NotConnected);
        } else {
          r := Respond(r, Timeout);
        }
      }
      Update(q, Unref(r));
    }

    /** A reply or an exception for a request that is known. */
    method ObjectProcessEvent(q: ReqId, exception: bool)
      requires q < |reqs|
      modifies `reqs, `fault
      ensures var r := old(reqs)[q];
              View() == Put(old(View()), q, Unref(if exception then Respond(r, Exception)
                                                  else if r.state == Running then Respond(r, Ok) else r))
    {
      var r := reqs[q];
      if exception {
        r := Respond(r, Exception);
      } else if r.state == Running {
        r := Respond(r, Ok);
      }
      Update(q, Unref(r));
    }

    method AgentProcessEvent(c: Cid, exception: bool)
      requires InRange(View())
      modifies `reqs, `fault, `outstanding
      ensures View() == Reply(old(View()), c, exception)
    {
      if c !in outstanding {
        outstanding := outstanding[c := None];
      }
      var ar := outstanding[c];
      if ar.Some? {
        ObjectProcessEvent(ar.value, exception);
        outstanding := outstanding - {c};
      }
    }

    method CancelEntry(c: Cid)
      requires c in outstanding && (outstanding[c].Some? ==> outstanding[c].value < |reqs|)
      modifies `reqs, `fault
      ensures View() == CancelOne(old(View()), c)
    {
      if outstanding[c].None? {
        fault := true;
      } else {
        Update(outstanding[c].value, Respond(reqs[outstanding[c].value], Cancelled));
      }
    }

    method AgentDestructor()
      requires InRange(View())
      modifies `reqs, `fault, `outstanding, `connected, `agent
      ensures View() == AgentGone(old(View()))
    {
      ghost var s, done := View(), {};
      var left := outstanding.Keys;
      CancelNone(s);
      while left != {}
        invariant Cancelling(s, View(), left, done)
        decreases left
      {
        var c :| c in left;
        CancelNext(s, View(), left, done, c);
        CancelEntry(c);
        left, done := left - {c}, done + {c};
      }
      CancelAll(s, done);
      outstanding, connected, agent := map[], false, false;
    }

    method Connect()
      requires !connected
      modifies `connected, `agent, `jobs
      ensures View() == old(View()).(connected := true, agent := true, jobs := old(jobs) + 1)
    {
      connected, agent, jobs := true, true, jobs + 1;
    }

    method Disconnect()
      modifies `connected
      ensures View() == old(View()).(connected := false)
    {
      connected := false;
    }
  }

}
