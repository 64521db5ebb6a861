module Options {
  datatype Option<+T> = None | Some(value: T)
}

/**
  The policy engine's side of the event loop: one transition at a time, driven by
  process_next_job, and the process_job requests that start the next one.
 */
module PolicyLoop {
  import opened Options

  datatype Pe = Pe(
    live: Option<nat>,       // the transition that owns working_set
    nextJobs: seq<nat>,      // process_next_job jobs in the loop, by transition
    processJobs: nat,        // process_job jobs in the loop
    graphUpdated: bool,
    inPass: bool,            // inside run_graph
    count: nat)              // transition_count

  const IDLE := Pe(None, [], 0, false, false, 0)

  function ScheduleProcessing(p: Pe): Pe {
    p.(processJobs := p.processJobs + 1)
  }

  /** The effect of a confirmation on the engine; the action itself belongs to the operation. */
  function Confirmed(p: Pe): Pe {
    if p.live.None? then p else p.(graphUpdated := true)
  }

  /** process rebuilds the status and starts a transition; pe_process_state refuses a second one. */
  function Process(p: Pe): Pe {
    if p.live.Some? then ScheduleProcessing(p)
    else p.(live := Some(p.count + 1), count := p.count + 1, graphUpdated := true,
            nextJobs := p.nextJobs + [p.count + 1])
  }

  function ProcessJob(p: Pe): Pe
    requires p.processJobs > 0
  {
    var taken := p.(processJobs := p.processJobs - 1);
    if p.live.Some? then ScheduleProcessing(taken) else Process(taken)
  }

  /** process_next_job up to the call of run_graph: nothing to do until something was confirmed. */
  function BeginPass(p: Pe): Pe
    requires p.nextJobs != []
  {
    if !p.graphUpdated then p.(nextJobs := p.nextJobs[1..] + [p.nextJobs[0]])
    else p.(nextJobs := p.nextJobs[1..], graphUpdated := false, inPass := true)
  }

  /** The rest of process_next_job: go on, or destroy the transition. */
  function EndPass(p: Pe, active: bool): Pe {
    if active && p.live.Some? then p.(inPass := false, nextJobs := p.nextJobs + [p.live.value])
    else p.(inPass := false, live := None)
  }

  /** A transition is active exactly when its one process_next_job is queued or running. */
  ghost predicate Orderly(p: Pe) {
    && p.nextJobs == (if p.live.Some? && !p.inPass then [p.live.value] else [])
    && (p.inPass ==> p.live.Some?)
    && (p.live.Some? ==> p.live.value == p.count)
  }

  datatype Event =
    | Request                  // schedule_processing
    | RunProcessJob
    | RunNextJob
    | Confirm                  // pe_resource_completed or an action run_graph confirms itself
    | Finish(active: bool)     // run_graph returns

  predicate Allowed(p: Pe, e: Event) {
    match e
    case Request => true
    case RunProcessJob => !p.inPass && p.processJobs > 0
    case RunNextJob => !p.inPass && p.nextJobs != []
    case Confirm => true
    case Finish(_) => p.inPass
  }

  function Step(p: Pe, e: Event): Pe
    requires Allowed(p, e)
  {
    match e
    case Request => ScheduleProcessing(p)
    case RunProcessJob => ProcessJob(p)
    case RunNextJob => BeginPass(p)
    case Confirm => Confirmed(p)
    case Finish(active) => EndPass(p, active)
  }

  predicate PossibleRun(p: Pe, run: seq<Event>)
    decreases |run|
  {
    run == [] || (Allowed(p, run[0]) && PossibleRun(Step(p, run[0]), run[1..]))
  }

  function After(p: Pe, run: seq<Event>): Pe
    requires PossibleRun(p, run)
    decreases |run|
  {
    if run == [] then p else After(Step(p, run[0]), run[1..])
  }

  lemma {:induction false} RunKeepsOrder(p: Pe, run: seq<Event>)
    requires Orderly(p) && PossibleRun(p, run)
    ensures Orderly(After(p, run)) && p.count <= After(p, run).count
    decreases |run|
  {
    if run != [] {
      assert Orderly(Step(p, run[0]));
      RunKeepsOrder(Step(p, run[0]), run[1..]);
    }
  }

  /** Between two turns of the loop a transition is active exactly when one process_next_job is
      queued, and that job is for it. */
  lemma OneTransition(run: seq<Event>)
    requires PossibleRun(IDLE, run)
    ensures var p := After(IDLE, run);
            !p.inPass ==> (p.live.Some? <==> p.nextJobs != []) && |p.nextJobs| <= 1
                          && (p.live.Some? ==> p.nextJobs == [p.live.value])
  {
    RunKeepsOrder(IDLE, run);
  }

  /** While a transition is active no other one starts. */
  lemma {:induction false} NoSecondTransition(p: Pe, run: seq<Event>)
    requires Orderly(p) && PossibleRun(p, run) && p.live.Some?
    requires forall i :: 0 <= i < |run| ==> run[i] != Finish(false)
    ensures After(p, run).live == p.live && After(p, run).count == p.count
    decreases |run|
  {
    if run != [] {
      NoSecondTransition(Step(p, run[0]), run[1..]);
    }
  }

  /** This event rebuilds the status from the current state. */
  predicate Rebuilds(p: Pe, e: Event) {
    e == RunProcessJob && p.live.None?
  }

  predicate NoRebuild(p: Pe, run: seq<Event>)
    requires PossibleRun(p, run)
    decreases |run|
  {
    run == [] || (!Rebuilds(p, run[0]) && NoRebuild(Step(p, run[0]), run[1..]))
  }

  lemma {:induction false} RequestsStay(p: Pe, run: seq<Event>)
    requires PossibleRun(p, run) && NoRebuild(p, run) && p.processJobs > 0
    ensures After(p, run).processJobs > 0
    decreases |run|
  {
    if run != [] {
      RequestsStay(Step(p, run[0]), run[1..]);
    }
  }

  /** In every run, a request to process stays queued, however often it is dispatched, until the
      status has been rebuilt after it. */
  lemma RequestIsKept(before: seq<Event>, after: seq<Event>)
    requires PossibleRun(IDLE, before) && PossibleRun(After(IDLE, before), [Request] + after)
    requires NoRebuild(After(IDLE, before), [Request] + after)
    ensures After(After(IDLE, before), [Request] + after).processJobs > 0
  {
    assert ([Request] + after)[1..] == after;
    RequestsStay(Step(After(IDLE, before), Request), after);
  }

  lemma {:induction false} UpdateStays(p: Pe, run: seq<Event>)
    requires p.live.Some? && p.graphUpdated && PossibleRun(p, run)
    requires forall i :: 0 <= i < |run| ==> run[i] != RunNextJob && run[i] != Finish(false)
    ensures After(p, run).graphUpdated && After(p, run).live == p.live
    decreases |run|
  {
    if run != [] {
      UpdateStays(Step(p, run[0]), run[1..]);
    }
  }

  /** In every run, a confirmation during a transition is not forgotten: as long as the transition
      lives and no later pass has begun, the next process_next_job will run the graph. */
  lemma ConfirmationIsKept(before: seq<Event>, after: seq<Event>)
    requires PossibleRun(IDLE, before) && PossibleRun(After(IDLE, before), [Confirm] + after)
    requires After(IDLE, before).live.Some?
    requires forall i :: 0 <= i < |after| ==> after[i] != RunNextJob && after[i] != Finish(false)
    ensures var p := After(After(IDLE, before), [Confirm] + after);
            p.graphUpdated && p.live == After(IDLE, before).live
  {
    assert ([Confirm] + after)[1..] == after;
    UpdateStays(Step(After(IDLE, before), Confirm), after);
  }

  /** How often the status is rebuilt in the run. */
  function RebuildsIn(p: Pe, run: seq<Event>): nat
    requires PossibleRun(p, run)
    decreases |run|
  {
    if run == [] then 0
    else (if Rebuilds(p, run[0]) then 1 else 0) + RebuildsIn(Step(p, run[0]), run[1..])
  }

  function RequestsIn(run: seq<Event>): nat {
    if run == [] then 0 else (if run[0] == Request then 1 else 0) + RequestsIn(run[1..])
  }

  lemma {:induction false} RequestsBalance(p: Pe, run: seq<Event>)
    requires PossibleRun(p, run)
    ensures After(p, run).processJobs + RebuildsIn(p, run) == p.processJobs + RequestsIn(run)
    decreases |run|
  {
    if run != [] {
      RequestsBalance(Step(p, run[0]), run[1..]);
    }
  }

  /** Every request is answered by one rebuild: in every run the jobs still queued are the requests made,
      less the times the status was rebuilt. */
  lemma OneRebuildPerRequest(run: seq<Event>)
    requires PossibleRun(IDLE, run)
    ensures After(IDLE, run).processJobs == RequestsIn(run) - RebuildsIn(IDLE, run)
  {
    RequestsBalance(IDLE, run);
  }

  lemma {:induction false} NothingNew(p: Pe, run: seq<Event>)
    requires PossibleRun(p, run) && NoRebuild(p, run) && Confirm !in run && !p.graphUpdated
    ensures !After(p, run).graphUpdated
    decreases |run|
  {
    if run != [] {
      NothingNew(Step(p, run[0]), run[1..]);
    }
  }

  /** The graph is not run again for nothing: after a pass has begun, graph_updated stays clear until
      something is confirmed or another transition starts. */
  lemma PassNeedsConfirmation(before: seq<Event>, after: seq<Event>)
    requires PossibleRun(IDLE, before) && PossibleRun(After(IDLE, before), [RunNextJob] + after)
    requires NoRebuild(After(IDLE, before), [RunNextJob] + after) && Confirm !in after
    ensures !After(After(IDLE, before), [RunNextJob] + after).graphUpdated
  {
    assert ([RunNextJob] + after)[1..] == after;
    NothingNew(Step(After(IDLE, before), RunNextJob), after);
  }

  /** A graph that was updated is run at the next process_next_job, and one that was not is not. */
  lemma PassBegins(run: seq<Event>)
    requires PossibleRun(IDLE, run) && Allowed(After(IDLE, run), RunNextJob)
    ensures Step(After(IDLE, run), RunNextJob).inPass <==> After(IDLE, run).graphUpdated
  {
    RunKeepsOrder(IDLE, run);
  }

  /** A transition is begun, and numbered, exactly when the status is rebuilt. */
  lemma {:induction false} TransitionsAreRebuilds(p: Pe, run: seq<Event>)
    requires PossibleRun(p, run)
    ensures After(p, run).count == p.count + RebuildsIn(p, run)
    decreases |run|
  {
    if run != [] {
      TransitionsAreRebuilds(Step(p, run[0]), run[1..]);
    }
  }

  /** Since the last process_next_job a transition was begun, or something was confirmed while one was
      active. */
  predicate Owed(p: Pe, owed: bool, run: seq<Event>)
    requires PossibleRun(p, run)
    decreases |run|
  {
    if run == [] then owed
    else
      var more := Rebuilds(p, run[0]) || (run[0] == Confirm && p.live.Some?);
      Owed(Step(p, run[0]), run[0] != RunNextJob && (owed || more), run[1..])
  }

  lemma {:induction false} UpdatedReadOffRun(p: Pe, run: seq<Event>)
    requires PossibleRun(p, run)
    ensures After(p, run).graphUpdated == Owed(p, p.graphUpdated, run)
    decreases |run|
  {
    if run != [] {
      UpdatedReadOffRun(Step(p, run[0]), run[1..]);
    }
  }

  /** The graph is run at a process_next_job exactly when there is reason to: a transition that has just
      begun, or a confirmation since the last one. So a new transition is always run. */
  lemma RunsGraphExactly(run: seq<Event>)
    requires PossibleRun(IDLE, run) && Allowed(After(IDLE, run), RunNextJob)
    ensures Step(After(IDLE, run), RunNextJob).inPass <==> Owed(IDLE, false, run)
  {
    PassBegins(run);
    UpdatedReadOffRun(IDLE, run);
  }
}
