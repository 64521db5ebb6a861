/**
  Operations over Matahari: how often a request can be answered at all, and what the answers do to the
  references of the operation it carries. A good answer drops the transport's reference, an error
  does not.
 */
module MatahariAnswers {
  import opened Options
  import opened AsyncRpc

  /** Everything a request that is sent once can be answered with. */
  predicate Answered(responses: seq<Result>) {
    responses in {[Ok], [Exception], [Cancelled], [Timeout], [Timeout, Exception], [Timeout, Cancelled]}
  }

  ghost predicate Shape(r: Request, held: bool) {
    match r.state
    case Scheduled => r.responses == [] && r.armed == 0 && !held
    case Running => r.responses == [] && r.armed == 1 && held
    case Completed =>
      && r.armed <= 1 && Answered(r.responses)
      && (held ==> r.responses == [Timeout] && r.armed == 0)
      && (r.armed == 1 ==> r.responses in {[Ok], [Exception], [Cancelled]})
  }

  ghost predicate Shaped(s: Rpc) {
    && InRange(s)
    && (forall q :: 0 <= q < |s.reqs| ==> Shape(s.reqs[q], Held(s, q)))
    && (forall c, d :: c in s.out && d in s.out && s.out[c] == s.out[d] && s.out[c].Some? ==> c == d)
    && (forall i, j :: 0 <= i < j < |s.pending| ==> s.pending[i] != s.pending[j])
    && (s.connected ==> s.agent)
    && (!s.agent ==> s.out == map[])
  }

  /** No request is sent a second time. */
  ghost predicate SentOnce(s: Rpc, e: Event)
    requires Possible(s, e)
  {
    e.PendingRuns? && s.connected ==> AllScheduled(s, 0)
  }

  lemma Longer(x: Result, y: Result)
    ensures [] + [x] == [x] && [x] + [y] == [x, y]
  {
  }

  lemma SendShaped(s: Rpc, q: ReqId, c: Cid)
    requires Shaped(s) && s.connected && q < |s.reqs| && s.reqs[q].state == Scheduled && Fresh(s, c)
    ensures Shaped(Send(s, q, c))
  {
    var t := Send(s, q, c);
    forall p | 0 <= p < |t.reqs| ensures Shape(t.reqs[p], Held(t, p)) {
      assert Shape(s.reqs[p], Held(s, p));
      if p == q {
        assert t.out[c] == Some(q);
      } else {
        HeldAfter(s, t, p);
      }
    }
    forall d, e | d in t.out && e in t.out && t.out[d] == t.out[e] && t.out[d].Some? ensures d == e {
      assert Shape(s.reqs[q], Held(s, q));
    }
  }

  lemma CallShaped(s: Rpc, c: Cid)
    requires Shaped(s) && Fresh(s, c)
    ensures Shaped(Call(s, c))
  {
    var made := s.(reqs := s.reqs + [NEW]);
    HeldSame(s, made);
    forall p | 0 <= p < |made.reqs| ensures Shape(made.reqs[p], Held(made, p)) {
      if p < |s.reqs| {
        assert Shape(s.reqs[p], Held(s, p));
      }
    }
    if s.connected {
      SendShaped(made, |s.reqs|, c);
    } else {
      HeldSame(s, Call(s, c));
    }
  }

  lemma {:induction false} RunPendingShaped(s: Rpc, i: nat, cs: seq<Cid>)
    requires Shaped(s) && i <= |s.pending| == |cs| && (s.connected ==> AllScheduled(s, i))
    requires forall k :: i <= k < |cs| ==> Fresh(s, cs[k])
    requires forall k, l :: 0 <= k < l < |cs| ==> cs[k] != cs[l]
    ensures Shaped(RunPending(s, i, cs))
    decreases |s.pending| - i
  {
    if i < |s.pending| {
      if s.connected {
        SendShaped(s, s.pending[i], cs[i]);
        RunPendingShaped(Send(s, s.pending[i], cs[i]), i + 1, cs);
      } else {
        HeldSame(s, s.(fault := true));
      }
    }
  }

  lemma ReplyShaped(s: Rpc, c: Cid, exception: bool)
    requires Shaped(s) && s.agent
    ensures Shaped(Reply(s, c, exception))
  {
    var t := Reply(s, c, exception);
    forall p | 0 <= p < |t.reqs| ensures Shape(t.reqs[p], Held(t, p)) {
      assert Shape(s.reqs[p], Held(s, p));
      if c in s.out && s.out[c] == Some(p) {
        assert Held(s, p) && !Held(t, p);
        Longer(Timeout, Exception);
        Longer(Exception, Ok);
        Longer(Ok, Ok);
      } else {
        HeldAfter(s, t, p);
      }
    }
  }

  lemma TimeOutShaped(s: Rpc, q: ReqId)
    requires Shaped(s) && q < |s.reqs| && s.reqs[q].armed > 0
    ensures Shaped(TimeOut(s, q))
  {
    var t := TimeOut(s, q);
    Longer(Timeout, Timeout);
    forall p | 0 <= p < |t.reqs| ensures Shape(t.reqs[p], Held(t, p)) {
      assert Shape(s.reqs[p], Held(s, p));
      HeldAfter(s, t, p);
    }
  }

  lemma OneEntry(s: Rpc, q: ReqId)
    requires Shaped(s)
    ensures |Entries(s.out, q)| == if Held(s, q) then 1 else 0
  {
    if Held(s, q) {
      var c :| c in s.out && s.out[c] == Some(q);
      assert Entries(s.out, q) == {c};
    } else {
      assert Entries(s.out, q) == {};
    }
  }

  lemma AgentGoneShaped(s: Rpc)
    requires Shaped(s)
    ensures Shaped(AgentGone(s))
  {
    var t := AgentGone(s);
    Longer(Timeout, Cancelled);
    Longer(Cancelled, Ok);
    forall q | 0 <= q < |t.reqs| ensures Shape(t.reqs[q], Held(t, q)) {
      OneEntry(s, q);
      assert Shape(s.reqs[q], Held(s, q));
      assert seq(1, i => Cancelled) == [Cancelled];
    }
  }

  lemma StepShaped(s: Rpc, e: Event)
    requires Shaped(s) && Possible(s, e) && SentOnce(s, e)
    ensures Shaped(Step(s, e))
  {
    match e
    case Calls(c) => CallShaped(s, c);
    case Connects => HeldSame(s, Step(s, e));
    case Disconnects => HeldSame(s, Step(s, e));
    case PendingRuns(cs) =>
      var t := s.(jobs := s.jobs - 1);
      HeldSame(s, t);
      RunPendingShaped(t, 0, cs);
    case Replies(c, exception) => ReplyShaped(s, c, exception);
    case TimerFires(q) => TimeOutShaped(s, q);
    case AgentDeleted => AgentGoneShaped(s);
  }

  ghost predicate AllSentOnce(s: Rpc, run: seq<Event>)
    requires PossibleRun(s, run)
    decreases |run|
  {
    run == [] || (SentOnce(s, run[0]) && AllSentOnce(Step(s, run[0]), run[1..]))
  }

  lemma {:induction false} RunShaped(s: Rpc, run: seq<Event>)
    requires Shaped(s) && PossibleRun(s, run) && AllSentOnce(s, run)
    ensures Shaped(After(s, run))
    decreases |run|
  {
    if run != [] {
      StepShaped(s, run[0]);
      RunShaped(Step(s, run[0]), run[1..]);
    }
  }

  /** Late exceptions, late cancellations and replies nobody asked for included: as long as no request is
      sent twice, every request is answered at most twice, and twice only if first with a timeout. */
  lemma AtMostTwoAnswers(run: seq<Event>, q: ReqId)
    requires PossibleRun(IDLE, run) && AllSentOnce(IDLE, run) && q < |After(IDLE, run).reqs|
    ensures var responses := After(IDLE, run).reqs[q].responses; responses == [] || Answered(responses)
  {
    RunShaped(IDLE, run);
    var s := After(IDLE, run);
    assert Shape(s.reqs[q], Held(s, q));
  }
}

/** resource_method_response, applied to the operation. */
module MatahariOps {
  import opened Options
  import opened RecoverStates
  import opened OpLifecycle
  import AsyncRpc
  import MatahariAnswers

  /** A good answer completes the operation and drops the transport's reference; an error only
      completes it. */
  function Answer(s: State, o: OpId, x: AsyncRpc.Result, ec: int): State
    requires o < |s.ops|
  {
    if x == AsyncRpc.Ok then Unref(Completed(s, o, ec), o) else Completed(s, o, OCF_UNKNOWN_ERROR)
  }

  function Answers(s: State, o: OpId, xs: seq<AsyncRpc.Result>, ec: int): State
    requires o < |s.ops|
    decreases |xs|
  {
    if xs == [] then s
    else
      var t := Answer(s, o, xs[0], ec);
      if o < |t.ops| then Answers(t, o, xs[1..], ec) else t
  }

  /** Of the two references an execution holds, how many nothing will ever drop. */
  function Kept(xs: seq<AsyncRpc.Result>): nat {
    if xs == [AsyncRpc.Ok] || |xs| == 2 then 0 else 1
  }

  /** The operation as its execution leaves the transport, of which no error is expected. */
  ghost predicate Answerable(s: State, o: OpId, k: nat) {
    && o < |s.ops| && Good(s, o, k) && Idle(s, o) && ResourceThere(s, s.ops[o].info) && Counting(s, o)
    && (s.ops[o].info.Recurring() ==> Alone(s, o) && s.ops[o].info.target != OCF_UNKNOWN_ERROR)
  }

  /** An error gives up one reference: that of the timer or of the action itself. */
  lemma ErrorAnswer(s: State, o: OpId, k: nat)
    requires Answerable(s, o, k + 1)
    ensures Good(Completed(s, o, OCF_UNKNOWN_ERROR), o, k)
  {
    CompletedKeeps(s, o, k, OCF_UNKNOWN_ERROR);
  }

  /** What the error has made of the operation before the reference is dropped. */
  lemma ErrorSettles(s: State, o: OpId, k: nat)
    requires Answerable(s, o, k) && k > 0
    ensures var ran := Ran(s, o);
            && ResourceThere(ran, s.ops[o].info)
            && var t := Settle(ran, s.ops[o].info, OCF_UNKNOWN_ERROR);
            && Good(t, o, k) && Idle(t, o) && t.ops[o] == ran.ops[o] && |t.res| == |s.res|
            && (s.ops[o].info.Recurring() ==> Alone(t, o))
  {
    assert OpGood(s, o, o, k);
    RanKeeps(s, o, k);
    if s.ops[o].info.Recurring() {
      StillAlone(s, Ran(s, o), o);
    }
    SettleKeeps(Ran(s, o), o, k, OCF_UNKNOWN_ERROR);
  }

  lemma RanCounts(s: State, o: OpId)
    requires o < |s.ops|
    ensures var t := Ran(s, o);
            && t.ops[o].runs == s.ops[o].runs + 1 && t.ops[o].info == s.ops[o].info && t.pe.live == s.pe.live
  {
  }

  lemma UnrefAlone(s: State, o: OpId)
    requires o < |s.ops| && ResourceThere(s, s.ops[o].info) && Alone(s, o)
    ensures Alone(Unref(s, o), o)
  {
    StillAlone(s, Unref(s, o), o);
  }

  lemma StillAnswerable(s: State, o: OpId, k: nat)
    requires Answerable(s, o, k + 1) && (ComesRound(s.ops[o].(runs := s.ops[o].runs + 1)) ==> s.pe.live.None?)
    ensures Answerable(Completed(s, o, OCF_UNKNOWN_ERROR), o, k)
  {
    var i := s.ops[o].info;
    ErrorSettles(s, o, k + 1);
    RanCounts(s, o);
    var settled := Settle(Ran(s, o), i, OCF_UNKNOWN_ERROR);
    assert settled.pe.live == s.pe.live;
    assert Completed(s, o, OCF_UNKNOWN_ERROR) == Unref(settled, o);
    UnrefKeeps(settled, o, k);
    if i.Recurring() {
      UnrefAlone(settled, o);
    }
  }

  lemma TwoErrors(s: State, o: OpId)
    requires Answerable(s, o, 2) && (ComesRound(s.ops[o].(runs := s.ops[o].runs + 1)) ==> s.pe.live.None?)
    ensures var t := Completed(s, o, OCF_UNKNOWN_ERROR);
            Good(t, o, 1) && o < |t.ops| && Good(Completed(t, o, OCF_UNKNOWN_ERROR), o, 0)
  {
    StillAnswerable(s, o, 1);
    ErrorAnswer(Completed(s, o, OCF_UNKNOWN_ERROR), o, 0);
  }

  lemma AnswersOfOne(s: State, o: OpId, x: AsyncRpc.Result, ec: int)
    requires o < |s.ops|
    ensures Answers(s, o, [x], ec) == Answer(s, o, x, ec)
  {
    assert [x][1..] == [];
  }

  lemma AnswersOfTwo(s: State, o: OpId, x: AsyncRpc.Result, y: AsyncRpc.Result, ec: int)
    requires o < |s.ops| && o < |Answer(s, o, x, ec).ops|
    ensures Answers(s, o, [x, y], ec) == Answer(Answer(s, o, x, ec), o, y, ec)
  {
    assert [x, y][1..] == [y];
    AnswersOfOne(Answer(s, o, x, ec), o, y, ec);
  }

  /** Whatever a request is answered with, the references of its operation stay right. A single error
      keeps one reference for ever, so that the operation is never freed, and a second answer is
      the one that drops it. */
  lemma AnswersBalance(s: State, o: OpId, xs: seq<AsyncRpc.Result>, ec: int)
    requires Answerable(s, o, 2) && 2 <= s.ops[o].refs <= 3 && MatahariAnswers.Answered(xs)
    requires ComesRound(s.ops[o].(runs := s.ops[o].runs + 1)) ==> s.pe.live.None?
    ensures o < |s.ops| && Good(Answers(s, o, xs, ec), o, Kept(xs))
  {
    if xs == [AsyncRpc.Ok] {
      FinishFlight(s, o, ec);
      AnswersOfOne(s, o, AsyncRpc.Ok, ec);
    } else {
      TwoErrors(s, o);
      if |xs| == 1 {
        AnswersOfOne(s, o, xs[0], ec);
      } else {
        AnswersOfTwo(s, o, xs[0], xs[1], ec);
      }
    }
  }
}
