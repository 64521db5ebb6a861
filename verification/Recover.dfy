/** The states a node or a resource moves through (enum recover_state). */
module RecoverStates {
  datatype RecoverState = Unknown | Running | Failed | Stopped | Unrecoverable
}

/**
  What the escalation policy means, on the plain list of failure times since the
  last escalation, and how many restarts it lets through in a period.
 */
module Escalation {
  import opened RecoverStates

  /** Parsed configuration: missing or malformed numbers are -1. Period in seconds. */
  datatype Policy = Policy(failures: int, period: int) {
    predicate Enabled() { failures > 0 && period > 0 }

    /** The period in microseconds. */
    function Window(): int { period * 1_000_000 }
  }

  datatype Decision = NoAction | Restart | Escalate

  /** `log` holds the failure times, in microseconds, since the last escalation. */
  datatype Recovery = Recovery(state: RecoverState, log: seq<int>)

  const INITIAL := Recovery(Unknown, [])

  /** At least `failures` failures, and the newest `failures` span no more than the period. */
  predicate TooMany(p: Policy, log: seq<int>)
    requires p.Enabled()
  {
    |log| >= p.failures &&
    log[|log| - 1] - log[|log| - p.failures] <= p.Window()
  }

  function SetState(p: Policy, r: Recovery, to: RecoverState, now: int): (Recovery, Decision) {
    if r.state == to then (r, NoAction)
    else if to != Failed then (r.(state := to), NoAction)
    else if !p.Enabled() then (r.(state := to), Restart)
    else if TooMany(p, r.log + [now]) then (Recovery(to, []), Escalate)
    else (Recovery(to, r.log + [now]), Restart)
  }

  /** One call of recover_state_set: the requested state and the clock at that call. */
  datatype Change = Change(to: RecoverState, at: int)

  function After(p: Policy, run: seq<Change>): Recovery {
    if run == [] then INITIAL
    else var last := run[|run| - 1]; SetState(p, After(p, run[..|run| - 1]), last.to, last.at).0
  }

  function Outcome(p: Policy, run: seq<Change>): Decision
    requires run != []
  {
    var last := run[|run| - 1]; SetState(p, After(p, run[..|run| - 1]), last.to, last.at).1
  }

  /** How often `d` was decided at a time within [lo, hi]. */
  function Count(p: Policy, run: seq<Change>, d: Decision, lo: int, hi: int): nat {
    if run == [] then 0
    else
      Count(p, run[..|run| - 1], d, lo, hi) +
      if lo <= run[|run| - 1].at <= hi && Outcome(p, run) == d then 1 else 0
  }

  ghost predicate Monotone(run: seq<Change>) {
    forall i, j :: 0 <= i <= j < |run| ==> run[i].at <= run[j].at
  }

  ghost predicate Sorted(log: seq<int>) {
    forall i, j :: 0 <= i <= j < |log| ==> log[i] <= log[j]
  }

  /** Failures still in the log that happened at `lo` or later. */
  function Recent(log: seq<int>, lo: int): nat {
    if log == [] then 0
    else Recent(log[..|log| - 1], lo) + if log[|log| - 1] >= lo then 1 else 0
  }

  /** Every failure in the log is at `now` or earlier, in order. */
  ghost predicate UpTo(log: seq<int>, now: int) {
    Sorted(log) && forall i :: 0 <= i < |log| ==> log[i] <= now
  }

  lemma {:induction false} RecentBeforeAll(log: seq<int>, lo: int)
    requires forall i :: 0 <= i < |log| ==> log[i] < lo
    ensures Recent(log, lo) == 0
  {
    if log != [] {
      RecentBeforeAll(log[..|log| - 1], lo);
    }
  }

  lemma {:induction false} RecentAreNewest(log: seq<int>, lo: int, n: nat)
    requires Sorted(log) && 0 < n <= Recent(log, lo)
    ensures n <= |log| && log[|log| - n] >= lo
  {
    if log[|log| - 1] < lo {
      RecentBeforeAll(log, lo);
    } else if n > 1 {
      RecentAreNewest(log[..|log| - 1], lo, n - 1);
    }
  }

  lemma {:induction false} LogFollowsClock(p: Policy, run: seq<Change>)
    requires Monotone(run)
    ensures if run == [] then After(p, run).log == [] else UpTo(After(p, run).log, run[|run| - 1].at)
  {
    if run != [] {
      var prev, now := run[..|run| - 1], run[|run| - 1].at;
      LogFollowsClock(p, prev);
      if prev != [] {
        assert prev[|prev| - 1].at <= now;
      }
      assert UpTo(After(p, prev).log, now);
      assert UpTo(After(p, prev).log + [now], now);
    }
  }

  /** Of the `restarts` since `lo`, all but the fewer than `failures` recent log entries are
      covered by `budget`. */
  ghost predicate Accounted(p: Policy, log: seq<int>, lo: int, restarts: int, budget: int) {
    Recent(log, lo) <= p.failures - 1 && restarts <= budget + Recent(log, lo)
  }

  /** What `escalations` escalations have paid for. */
  function Budget(p: Policy, escalations: nat): int {
    if escalations == 0 then 0 else Budget(p, escalations - 1) + p.failures - 1
  }

  lemma {:induction false} BudgetIsProduct(p: Policy, escalations: nat)
    ensures Budget(p, escalations) == (p.failures - 1) * escalations
  {
    if escalations > 0 {
      BudgetIsProduct(p, escalations - 1);
      assert (p.failures - 1) * escalations == (p.failures - 1) * (escalations - 1) + (p.failures - 1);
    }
  }

  lemma {:induction false} ChangeKeepsAccount(p: Policy, r: Recovery, c: Change, lo: int, hi: int, restarts: int, budget: int)
    requires p.Enabled() && hi - lo <= p.Window() && lo <= c.at <= hi && UpTo(r.log, c.at)
    requires Accounted(p, r.log, lo, restarts, budget)
    ensures var (r', d) := SetState(p, r, c.to, c.at);
            Accounted(p, r'.log, lo, if d == Restart then restarts + 1 else restarts,
                      if d == Escalate then budget + p.failures - 1 else budget)
  {
    if r.state != c.to && c.to == Failed {
      AppendFailure(r.log, c.at, lo, hi);
      if !TooMany(p, r.log + [c.at]) {
        FewAreRecent(p, r.log + [c.at], lo, hi);
      }
    }
  }

  lemma {:induction false} AppendFailure(log: seq<int>, now: int, lo: int, hi: int)
    requires UpTo(log, now) && lo <= now <= hi
    ensures UpTo(log + [now], hi) && Recent(log + [now], lo) == Recent(log, lo) + 1 && Recent([], lo) == 0
  {
  }

  /** As long as there is no reason to escalate, fewer than `failures` entries are recent. */
  lemma {:induction false} FewAreRecent(p: Policy, log: seq<int>, lo: int, hi: int)
    requires p.Enabled() && hi - lo <= p.Window() && UpTo(log, hi) && !TooMany(p, log)
    ensures Recent(log, lo) <= p.failures - 1
  {
    if Recent(log, lo) >= p.failures {
      RecentAreNewest(log, lo, p.failures);
    }
  }

  lemma {:induction false} RunKeepsAccount(p: Policy, run: seq<Change>, lo: int, hi: int)
    requires p.Enabled() && Monotone(run) && hi - lo <= p.Window()
    requires run != [] ==> run[|run| - 1].at <= hi
    ensures Accounted(p, After(p, run).log, lo, Count(p, run, Restart, lo, hi),
                      Budget(p, Count(p, run, Escalate, lo, hi)))
  {
    if run == [] {
    } else if run[|run| - 1].at < lo {
      LogFollowsClock(p, run);
      RecentBeforeAll(After(p, run).log, lo);
      NothingBefore(p, run, lo, hi);
    } else {
      var prev, c := run[..|run| - 1], run[|run| - 1];
      assert prev != [] ==> prev[|prev| - 1].at <= c.at;
      RunKeepsAccount(p, prev, lo, hi);
      LogFollowsClock(p, prev);
      ChangeKeepsAccount(p, After(p, prev), c, lo, hi, Count(p, prev, Restart, lo, hi),
                         Budget(p, Count(p, prev, Escalate, lo, hi)));
    }
  }

  lemma {:induction false} NothingBefore(p: Policy, run: seq<Change>, lo: int, hi: int)
    requires Monotone(run) && run != [] && run[|run| - 1].at < lo
    ensures Count(p, run, Restart, lo, hi) == Count(p, run, Escalate, lo, hi) == 0
  {
    var prev := run[..|run| - 1];
    if prev != [] {
      assert prev[|prev| - 1].at <= run[|run| - 1].at;
      NothingBefore(p, prev, lo, hi);
    }
  }

  /** In any interval no longer than the period there are at most failures - 1 restarts
      for each escalation in it, and failures - 1 more. */
  lemma {:induction false} RestartBound(p: Policy, run: seq<Change>, lo: int, hi: int)
    requires p.Enabled() && Monotone(run) && hi - lo <= p.Window()
    ensures Count(p, run, Restart, lo, hi) <= (p.failures - 1) * (Count(p, run, Escalate, lo, hi) + 1)
  {
    if run != [] && run[|run| - 1].at > hi {
      RestartBound(p, run[..|run| - 1], lo, hi);
    } else {
      RunKeepsAccount(p, run, lo, hi);
      BudgetIsProduct(p, Count(p, run, Escalate, lo, hi) + 1);
    }
  }

  /** Alternating Running and Failed `k` times, all at one instant. */
  function Flapping(k: nat): (run: seq<Change>)
    ensures Monotone(run)
    ensures forall i :: 0 <= i < |run| ==> run[i].at == 0
  {
    if k == 0 then [] else Flapping(k - 1) + [Change(Running, 0)] + [Change(Failed, 0)]
  }

  lemma {:induction false} AppendChange(p: Policy, run: seq<Change>, c: Change, d: Decision)
    ensures (After(p, run + [c]), Outcome(p, run + [c])) == SetState(p, After(p, run), c.to, c.at)
    ensures Count(p, run + [c], d, c.at, c.at)
         == Count(p, run, d, c.at, c.at) + if SetState(p, After(p, run), c.to, c.at).1 == d then 1 else 0
  {
    assert (run + [c])[..|run + [c]| - 1] == run;
  }

  lemma {:induction false} OneFlap(p: Policy, run: seq<Change>)
    requires p.Enabled() && |After(p, run).log| + 1 < p.failures && After(p, run).state != Running
    ensures var longer := run + [Change(Running, 0)] + [Change(Failed, 0)];
            && After(p, longer) == Recovery(Failed, After(p, run).log + [0])
            && Count(p, longer, Restart, 0, 0) == Count(p, run, Restart, 0, 0) + 1
            && Count(p, longer, Escalate, 0, 0) == Count(p, run, Escalate, 0, 0)
  {
    var up, down := Change(RecoverState.Running, 0), Change(Failed, 0);
    AppendChange(p, run, up, Restart);
    AppendChange(p, run, up, Escalate);
    AppendChange(p, run + [up], down, Restart);
    AppendChange(p, run + [up], down, Escalate);
  }

  /** The bound is attained: `failures - 1` quick failures are all restarted. */
  lemma {:induction false} RestartBoundIsTight(p: Policy, k: nat)
    requires p.Enabled() && k < p.failures
    ensures Count(p, Flapping(k), Restart, 0, 0) == k
    ensures Count(p, Flapping(k), Escalate, 0, 0) == 0
    ensures |After(p, Flapping(k)).log| == k && After(p, Flapping(k)).state != Running
  {
    if k == 0 {
      assert Flapping(0) == [];
    } else {
      RestartBoundIsTight(p, k - 1);
      OneFlap(p, Flapping(k - 1));
      assert Flapping(k) == Flapping(k - 1) + [Change(Running, 0)] + [Change(Failed, 0)];
    }
  }

  /** The state a run ends in, whatever the policy. */
  function LastState(run: seq<Change>): RecoverState {
    if run == [] then Unknown else run[|run| - 1].to
  }

  lemma StateIsLast(p: Policy, run: seq<Change>)
    ensures After(p, run).state == LastState(run)
  {
  }

  /** The change at `i` is a failure: to FAILED from another state. */
  predicate Fails(run: seq<Change>, i: nat)
    requires i < |run|
  {
    run[i].to == Failed && (i == 0 || run[i - 1].to != Failed)
  }

  /** The times of the failures among the changes from `k` on. */
  function FailuresFrom(run: seq<Change>, k: nat): seq<int>
    requires k <= |run|
    decreases |run|
  {
    if |run| == k then []
    else FailuresFrom(run[..|run| - 1], k) + if Fails(run, |run| - 1) then [run[|run| - 1].at] else []
  }

  /** The last escalation of the run was decided at its change number `k`; there was none if `k` is 0. */
  ghost predicate LastEscalation(p: Policy, run: seq<Change>, k: nat) {
    && k <= |run| && (k > 0 ==> Outcome(p, run[..k]) == Escalate)
    && forall i :: k < i <= |run| ==> Outcome(p, run[..i]) != Escalate
  }

  lemma LastEscalationBefore(p: Policy, run: seq<Change>, k: nat)
    requires LastEscalation(p, run, k) && k < |run|
    ensures LastEscalation(p, run[..|run| - 1], k)
  {
    var prev := run[..|run| - 1];
    assert forall i :: 0 <= i <= |prev| ==> prev[..i] == run[..i];
  }

  /** The times counted are those of every failure since the last escalation, which starts over. */
  lemma {:induction false} LogIsFailuresSince(p: Policy, run: seq<Change>, k: nat)
    requires p.Enabled() && LastEscalation(p, run, k)
    ensures After(p, run).log == FailuresFrom(run, k)
    decreases |run|
  {
    assert run[..|run|] == run;
    if k < |run| {
      LastEscalationBefore(p, run, k);
      LogIsFailuresSince(p, run[..|run| - 1], k);
      StateIsLast(p, run[..|run| - 1]);
      assert Outcome(p, run[..|run|]) != Escalate;
    }
  }

  /** Every decision, read off the run: a failure escalates exactly when the newest N failures since the
      last escalation, itself included, lie within the period, and is otherwise a restart. */
  lemma {:induction false} DecidesExactly(p: Policy, run: seq<Change>, k: nat)
    requires p.Enabled() && run != [] && LastEscalation(p, run[..|run| - 1], k)
    ensures var times := FailuresFrom(run, k);
            Outcome(p, run) ==
            if !Fails(run, |run| - 1) then NoAction
            else if |times| >= p.failures && times[|times| - 1] - times[|times| - p.failures] <= p.period * 1_000_000
            then Escalate
            else Restart
  {
    LogIsFailuresSince(p, run[..|run| - 1], k);
    StateIsLast(p, run[..|run| - 1]);
  }

  /** Without both numbers the policy never escalates: every change to FAILED is a restart. */
  lemma {:induction false} DisabledNeverEscalates(p: Policy, run: seq<Change>, lo: int, hi: int)
    requires !p.Enabled()
    ensures Count(p, run, Escalate, lo, hi) == 0
    ensures run != [] ==>
              Outcome(p, run) == if run[|run| - 1].to == Failed && LastState(run[..|run| - 1]) != Failed then Restart else NoAction
  {
    if run != [] {
      DisabledNeverEscalates(p, run[..|run| - 1], lo, hi);
      StateIsLast(p, run[..|run| - 1]);
    }
  }
}

/** The stopwatch ring and recover_state_set, updated in place. */
module Recover {
  import opened RecoverStates
  import opened Escalation

  lemma RingSlotsDiffer(a: nat, b: nat, n: nat)
    requires b < a < b + n
    ensures a % n != b % n
  {
    var k := a / n - b / n;
    assert a - b == n * k + (a % n - b % n);
    assert k >= 1 ==> n * k >= n;
    assert k <= 0 ==> n * k <= 0;
  }

  /** A ring of split times that overwrites its oldest entry; `times` is everything
      recorded since the last start. */
  class Stopwatch {
    const ring: array<int>
    var splits: nat
    ghost var times: seq<int>

    ghost predicate Valid()
      reads this, ring
    {
      && ring.Length > 0
      && splits == |times|
      && forall k :: 0 <= k < splits < k + ring.Length + 1 ==> ring[k % ring.Length] == times[k]
    }

    constructor (size: nat)
      requires size > 0
      ensures Valid() && times == [] && ring.Length == size && fresh(ring)
    {
      ring := new int[size];
      splits := 0;
      times := [];
    }

    method Start()
      requires Valid()
      modifies this
      ensures Valid() && times == []
    {
      splits := 0;
      times := [];
    }

    method Split(now: int)
      requires Valid()
      modifies this, ring
      ensures Valid() && times == old(times) + [now]
    {
      var n := ring.Length;
      ring[splits % n] := now;
      forall k | 0 <= k < splits && splits < k + n
        ensures ring[k % n] == times[k]
      {
        RingSlotsDiffer(splits, k, n);
        assert old(ring[k % n]) == times[k];
      }
      times := times + [now];
      splits := splits + 1;
    }

    method SplitLast() returns (last: nat)
      requires Valid()
      ensures last == if |times| == 0 then 0 else |times| - 1
    {
      last := if splits > 0 then splits - 1 else splits;
    }

    /** Meaningful while the older entry has not been overwritten. */
    method TimeSplitGet(recent: int, older: int) returns (diff: int)
      requires Valid() && 0 <= older <= recent
      ensures recent < |times| <= older + ring.Length ==> diff == times[recent] - times[older]
      ensures |times| <= recent ==> diff == 0
    {
      if recent >= splits {
        diff := 0;
      } else {
        diff := ring[recent % ring.Length] - ring[older % ring.Length];
      }
    }
  }

  class Recover {
    const policy: Policy
    var state: RecoverState
    var sw: Stopwatch?

    ghost predicate Valid()
      reads this, sw, if sw != null then {sw.ring} else {}
    {
      && (policy.Enabled() <==> sw != null)
      && (sw != null ==> sw.Valid() && sw.ring.Length == policy.failures)
    }

    /** The failures since the last escalation are exactly what the stopwatch was told. */
    ghost function View(): Recovery
      reads this, sw
    {
      Recovery(state, if sw != null then sw.times else [])
    }

    constructor (failures: int, period: int)
      ensures Valid() && View() == INITIAL && policy == Policy(failures, period)
      ensures sw != null ==> fresh(sw) && fresh(sw.ring)
    {
      policy := Policy(failures, period);
      state := Unknown;
      sw := null;
      new;
      if failures > 0 && period > 0 {
        sw := new Stopwatch(failures);
      }
    }

    /** Note a failure; true if the newest `failures` of them are too close together. */
    method CountFailure(now: int) returns (escalating: bool)
      requires Valid() && sw != null
      modifies sw, sw.ring
      ensures Valid()
      ensures escalating <==> TooMany(policy, old(sw.times) + [now])
      ensures sw.times == if escalating then [] else old(sw.times) + [now]
    {
      escalating := false;
      sw.Split(now);
      var last := sw.SplitLast();
      if last >= policy.failures - 1 {
        var diff := sw.TimeSplitGet(last, last - (policy.failures - 1));
        if diff <= policy.Window() {
          escalating := true;
          sw.Start();
        }
      }
    }

    /** Deciding from the overwriting ring is deciding from the whole list of failures. */
    method StateSet(to: RecoverState, now: int) returns (notified: bool, d: Decision)
      requires Valid()
      modifies this, sw, if sw != null then {sw.ring} else {}
      ensures Valid() && sw == old(sw)
      ensures (View(), d) == SetState(policy, old(View()), to, now)
      ensures notified <==> old(state) != to
    {
      notified, d := false, NoAction;
      if state == to {
        return;
      }
      notified := true;
      state := to;
      if state != Failed {
        return;
      }
      var escalating := false;
      if policy.failures > 0 && policy.period > 0 {
        escalating := CountFailure(now);
      }
      d := if escalating then Escalate else Restart;
    }
  }
}
